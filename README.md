# Hazelcast serialization benchmark: a Dafny model of the harness and the DataSerializable codecs

The benchmark fills a sample object with randomized values, writes it through a
serializer, reads it back, and checks that the object it gets is non-null and equal
to the original. It stops at the first iteration whose object does not come back.
This project models that loop (`PlainBenchmark.test`), the factory that builds the
sample objects (`Factory.createAndSetValues`), the two serializers the repository
writes by hand (DataSerializable and IdentifiedDataSerializable), and the
`writeData`/`readData` field codec of the sample object. It then proves what the
code promises about them.

Modules, one per concern:

- `JavaTypes` (`java_types.dfy`): Java's `byte`/`short`/`int`/`long` as newtypes.
  - `float`/`double` are raw bit patterns.
  - `WrapLong` and `WrapShort` give Java's two's-complement wrap-around.
  - `DecimalText` renders a long or int as string concatenation does, and a
    parser proves the rendering can be read back.
- `Streams` (`streams.dfy`): `ObjectDataOutput` and `ObjectDataInput` at the level
  of the values written and read.
  - Each write call appends one token.
  - Each read call asks for a token of one kind at the cursor.
  - A missing token is `EndOfStream`; a token of another kind is `UnexpectedToken`.
- `SampleObjects` (`ds_sample_object.dfy`): the seven fields, the datatype
  `Fields`, and a class `DSSampleObject` whose fields are updated in place.
  - `WriteData` and `ReadData` are methods over the stream objects.
  - They are specified by the pure `FieldTokens` / `DecodeFields`.
- `Serializers` (`serializers.dfy`): the DataSerializable adapter and the
  IdentifiedDataSerializable adapter.
  - Each adapter is a pure encoder/decoder pair and a pair of methods that drive
    the streams and the object's codec.
  - The benchmark's `Serializer` interface is a value with a `write` function
    and a `read` function.
  - `DSSerializer` and `IDSSerializer` are the two adapters as values of that
    interface.
  - `RoundTrips(ser)` says a serializer reads back every object it writes.
- `PlainBenchmark` (`plain_benchmark.dfy`): the factory as a class over a random
  source, its two array-filling loops, the per-iteration check, and the `test` loop.
  - `Test` returns `Completed`, or `Failed(i, kind)` for the first iteration `i`
    whose object did not come back.
  - `kind` is a thrown exception, a null result, or an unequal object.

Behaviour of the two adapters worth knowing:

- The IdentifiedDataSerializable read reads the factory id and drops it. It then
  asks the factory for an instance for the type id alone.
  - The factory in the code returns a fresh object for any type id.
  - The model lets the factory be any `int32 -> bool` ("returns an instance or
    null").
  - A null instance makes the following `readData` fail with a
    NullPointerException.
- The DataSerializable read reports every failure after the class name as
  `ClassNotFoundException` for that name. That includes a missing or mistyped
  field inside `readData`, and the model reports it as `ClassNotFound(className)`.
  A failure while reading the class name itself is not rewrapped.
- The benchmark's `Serializer` interface lets both `write` and `read` throw. In the
  model `write` returns a `Result`, and an exception from either call stops the
  run as `Threw`. The two adapters' own writes always succeed in the model.

## Model

| member | source | states |
|---|---|---|
| JavaTypes.WrapLong | src/main/java/com/hazelcast/benchmark/serialization/PlainBenchmark.java:244 | `i + offset` in long arithmetic: the result is congruent to the exact sum modulo 2^64, and equal to it when the sum fits in a long |
| JavaTypes.WrapShort | src/main/java/com/hazelcast/benchmark/serialization/PlainBenchmark.java:235 | `(short) offset` keeps the low 16 bits: congruent modulo 2^16, and equal when the value fits in a short |
| JavaTypes.WrapLongUnique | src/main/java/com/hazelcast/benchmark/serialization/PlainBenchmark.java:244 | any long congruent to the exact sum modulo 2^64 is the wrapped sum, so wrap-around has exactly one possible result |
| JavaTypes.DigitsRoundTrip | src/main/java/com/hazelcast/benchmark/serialization/PlainBenchmark.java:254 | the digits of a natural number are a non-empty digit string with no leading zero (except for 0), and they denote the number again |
| JavaTypes.DecimalRoundTrip | src/main/java/com/hazelcast/benchmark/serialization/PlainBenchmark.java:254 | the text concatenation makes of a long or int is a well-formed decimal that starts with '-' exactly for negative numbers and parses back to the number |
| Streams.ReadAt | src/main/java/com/hazelcast/benchmark/serialization/DSSampleObject.java:47-55 | a read succeeds exactly when a token is left at the cursor and it has the kind asked for, and then yields that token; past the end it fails with EndOfStream |
| Streams.ObjectDataOutput.constructor | src/main/java/com/hazelcast/benchmark/serialization/PlainBenchmark.java:83 | a new output stream holds nothing |
| Streams.ObjectDataOutput.Write | src/main/java/com/hazelcast/benchmark/serialization/DSSampleObject.java:36-44 | one write call appends exactly its value to what was written before |
| Streams.ObjectDataInput.constructor | src/main/java/com/hazelcast/benchmark/serialization/PlainBenchmark.java:90 | a new input stream is over the given data with the cursor at the start |
| Streams.ObjectDataInput.Read | src/main/java/com/hazelcast/benchmark/serialization/DSSampleObject.java:47-55 | one read call yields what ReadAt yields at the cursor, and moves the cursor past the token only on success |
| SampleObjects.DecodeFields | src/main/java/com/hazelcast/benchmark/serialization/DSSampleObject.java:47-55 | a successful readData leaves the cursor seven tokens further on, within the data |
| SampleObjects.DecodedFieldsWereWritten | src/main/java/com/hazelcast/benchmark/serialization/DSSampleObject.java:36-55 | whatever readData accepts is exactly the seven tokens writeData writes for the fields it returns |
| SampleObjects.DecodeEncodedFields | src/main/java/com/hazelcast/benchmark/serialization/DSSampleObject.java:36-55 | readData of what writeData wrote gives back every field and stops right after the seven tokens, whatever precedes or follows them |
| SampleObjects.DecodeTruncated | src/main/java/com/hazelcast/benchmark/serialization/DSSampleObject.java:47-55 | with fewer than seven tokens left, readData fails |
| SampleObjects.DSSampleObject.constructor | src/main/java/com/hazelcast/benchmark/serialization/DSSampleObject.java:28-29 | the no-argument constructor gives the blank field state the readers decode into |
| SampleObjects.DSSampleObject.WithIntVal | src/main/java/com/hazelcast/benchmark/serialization/DSSampleObject.java:31-33 | the id constructor sets intVal and leaves the other fields blank |
| SampleObjects.DSSampleObject.WriteData | src/main/java/com/hazelcast/benchmark/serialization/DSSampleObject.java:36-44 | appends intVal, shortVal, floatVal, byteArr, dblArr, longArr and str in that order and leaves the object unchanged |
| SampleObjects.DSSampleObject.ReadData | src/main/java/com/hazelcast/benchmark/serialization/DSSampleObject.java:47-55 | succeeds exactly when DecodeFields does; on success the object holds the decoded fields and the cursor is after them; on failure it reports the first read error |
| Serializers.DSDecode | src/main/java/com/hazelcast/benchmark/serialization/PlainBenchmark.java:89-99 | a successful read starts with a class name the loader resolves; a name it does not resolve fails with ClassNotFound for that name |
| Serializers.DSDecodeSound | src/main/java/com/hazelcast/benchmark/serialization/PlainBenchmark.java:89-99 | what the DataSerializable read accepts is exactly its class name followed by the field tokens of the object it returns |
| Serializers.DSRoundTrip | src/main/java/com/hazelcast/benchmark/serialization/PlainBenchmark.java:82-99 | for a resolvable class name, reading the DataSerializable output gives back the fields, whatever follows in the buffer |
| Serializers.DSWrite | src/main/java/com/hazelcast/benchmark/serialization/PlainBenchmark.java:82-87 | the write method produces the class name followed by writeData's tokens |
| Serializers.DSRead | src/main/java/com/hazelcast/benchmark/serialization/PlainBenchmark.java:89-99 | the read method (read the name, instantiate with the no-argument constructor, readData) computes DSDecode, error cases included |
| Serializers.IDSDecode | src/main/java/com/hazelcast/benchmark/serialization/PlainBenchmark.java:129-136 | a successful read starts with two ints, and the factory builds an instance for the second; when it returns null the read fails with a null pointer |
| Serializers.IDSDecodeSound | src/main/java/com/hazelcast/benchmark/serialization/PlainBenchmark.java:129-136 | what the IdentifiedDataSerializable read accepts is exactly two ints followed by the field tokens of the object it returns |
| Serializers.IDSRoundTrip | src/main/java/com/hazelcast/benchmark/serialization/PlainBenchmark.java:120-136 | for a type id the factory builds, reading the IdentifiedDataSerializable output gives back the fields, whatever follows |
| Serializers.IDSIgnoresFactoryId | src/main/java/com/hazelcast/benchmark/serialization/PlainBenchmark.java:131 | the read drops the factory id: replacing it by any other int does not change the result |
| SampleObjects.DecodeFieldsLocal | src/main/java/com/hazelcast/benchmark/serialization/DSSampleObject.java:47-55 | readData looks only at the seven tokens from its cursor on: inputs that agree on those decode alike, whatever precedes or follows |
| Serializers.IDSWrite | src/main/java/com/hazelcast/benchmark/serialization/PlainBenchmark.java:120-127 | the write method produces factory id, type id, then writeData's tokens |
| Serializers.IDSRead | src/main/java/com/hazelcast/benchmark/serialization/PlainBenchmark.java:129-136 | the read method (skip an int, read the type id, call the factory, readData) computes IDSDecode, error cases included |
| Serializers.Found | src/main/java/com/hazelcast/benchmark/serialization/PlainBenchmark.java:93-95 | an adapter's read, seen through the interface, never yields null: it returns the instance it filled or throws |
| Serializers.DSSerializerRoundTrips | src/main/java/com/hazelcast/benchmark/serialization/PlainBenchmark.java:79-99 | the DataSerializable adapter reads back every object exactly when the loader resolves the object's class name; otherwise every read fails with ClassNotFound for it |
| Serializers.IDSSerializerRoundTrips | src/main/java/com/hazelcast/benchmark/serialization/PlainBenchmark.java:112-136 | the IdentifiedDataSerializable adapter reads back every object exactly when its factory builds the object's type id; otherwise every read fails with a null pointer |
| SampleObjects.FieldTokens | src/main/java/com/hazelcast/benchmark/serialization/DSSampleObject.java:36-44 | definition: the seven tokens writeData writes, in its order |
| Serializers.DSEncode | src/main/java/com/hazelcast/benchmark/serialization/PlainBenchmark.java:82-87 | definition: the DataSerializable output, the class name followed by the field tokens |
| Serializers.IDSEncode | src/main/java/com/hazelcast/benchmark/serialization/PlainBenchmark.java:120-127 | definition: the IdentifiedDataSerializable output, factory id, type id, then the field tokens |
| Serializers.DSSerializer | src/main/java/com/hazelcast/benchmark/serialization/PlainBenchmark.java:79-100 | definition: the anonymous DataSerializable `Serializer` as an interface value |
| Serializers.IDSSerializer | src/main/java/com/hazelcast/benchmark/serialization/PlainBenchmark.java:112-137 | definition: the anonymous IdentifiedDataSerializable `Serializer` as an interface value |
| Serializers.ReadBack | src/main/java/com/hazelcast/benchmark/serialization/PlainBenchmark.java:205-206 | definition: write then read through the interface, a write exception ending it |
| PlainBenchmark.SampleText | src/main/java/com/hazelcast/benchmark/serialization/PlainBenchmark.java:254 | definition: the str template of offset, float value and id |
| PlainBenchmark.SampleFields | src/main/java/com/hazelcast/benchmark/serialization/PlainBenchmark.java:230-257 | definition: the object createAndSetValues builds from an id and a draw; its properties are SampleFieldsShape's |
| PlainBenchmark.Check | src/main/java/com/hazelcast/benchmark/serialization/PlainBenchmark.java:203-213 | definition: the verdict on iteration k, the object with id k built from draw first + k |
| PlainBenchmark.SampleFieldsShape | src/main/java/com/hazelcast/benchmark/serialization/PlainBenchmark.java:230-257 | the built object has the requested id; shortVal is the low 16 bits of offset; floatVal is `(float)(multiplier * offset)`; byteArr is the 4096 random bytes; longArr[i] is i + offset with wrap-around and dblArr[i] is the multiplier times longArr[i] (both of length 3000); str follows the template |
| PlainBenchmark.Factory.constructor | src/main/java/com/hazelcast/benchmark/serialization/PlainBenchmark.java:227-228 | a new factory has drawn nothing from its random source |
| PlainBenchmark.Factory.CreateAndSetValues | src/main/java/com/hazelcast/benchmark/serialization/PlainBenchmark.java:230-257 | returns a fresh object whose fields are SampleFields of the id and the next draw, and consumes exactly one draw |
| PlainBenchmark.FillLongs | src/main/java/com/hazelcast/benchmark/serialization/PlainBenchmark.java:242-246 | the loop fills all 3000 elements with `i + offset` in long arithmetic |
| PlainBenchmark.FillDoubles | src/main/java/com/hazelcast/benchmark/serialization/PlainBenchmark.java:248-252 | the loop fills all 3000 elements with the multiplier times `i + offset` |
| PlainBenchmark.Verdict | src/main/java/com/hazelcast/benchmark/serialization/PlainBenchmark.java:205-213 | an iteration passes exactly when reading what was written gives back an object equal to the original |
| PlainBenchmark.Indices | src/main/java/com/hazelcast/benchmark/serialization/PlainBenchmark.java:203-204 | the ids the loop asks for are 0, 1, ..., n - 1 in order |
| PlainBenchmark.RoundTrip | src/main/java/com/hazelcast/benchmark/serialization/PlainBenchmark.java:205-213 | write, read, the null check and then the equality check compute Verdict of the object |
| PlainBenchmark.Iteration | src/main/java/com/hazelcast/benchmark/serialization/PlainBenchmark.java:203-213 | one iteration consumes one draw, asks for id i, and its verdict is that of the object built from id i and draw first + i; a round-tripping serializer always passes |
| PlainBenchmark.Test | src/main/java/com/hazelcast/benchmark/serialization/PlainBenchmark.java:200-218 | the run completes exactly when every iteration 0 .. count - 1 passes; a failed run names the first failing iteration and why it failed; the factory is asked for ids 0, 1, ... once each, up to the one that stopped the run; a serializer that round-trips every object always completes |

## Left out

- Timing, the `System.out.println` report and the `main` driver (the sweep over
  serializers, garbage collection, sleeps): I/O and clocks, nothing to prove.
- The Java-serialization and Kryo serializers: their encoding lives in libraries
  that are not part of this model. They are covered only as arbitrary values of
  the `Serializer` interface, and for such a value `Test` is still specified.
- `java.util.Random`: the k-th call of createAndSetValues gets `draws(k)`, a
  parameter holding the long, the double and the 4096 bytes drawn.
- Floating-point arithmetic and `Float.toString`: `multiplier * x`, the cast to
  float and the float's text are the parameter functions in `FloatOps`. Doubles
  and floats are opaque bit patterns.
- The byte layout of the Hazelcast streams (lengths, UTF encoding, `BUFFER_SIZE`):
  streams are modelled as sequences of typed tokens. A value of another kind under
  the cursor fails with `UnexpectedToken` rather than being reinterpreted from
  bytes. The 65535-byte limit of `writeUTF` is not modelled.
- `SampleObject` and `IDSSampleObject` are not part of this model. `DSSampleObject`
  stands for all three classes, because they share the seven fields. Equality is
  assumed field-wise with array and string contents compared, and `getFactoryId` /
  `getId` are the parameters of `IDSSerializer`.
- Other DataSerializable classes on the class path: the program would instantiate
  any class whose name it reads and run that class's own readData. The model
  decodes the sample object's fields for every name it resolves, and treats every
  other name as unresolvable.
- The casts in the adapters' write methods (`ClassCastException` for an object of
  the wrong class) are not modelled: the harness only passes its own sample objects.
  For the same reason the two adapters' writes are modelled as never failing.
- SampleObjects.DSSampleObject.constructor, SampleObjects.DSSampleObject.WithIntVal:
  both constructors leave the arrays and the string null in Java. The model uses
  empty values (`Blank`), because readData and createAndSetValues overwrite every
  one of those fields before the object is used.
- SampleObjects.DSSampleObject.ReadData: on failure the contract does not say which
  fields were already overwritten. Both adapters discard the object in that case.
- Arrays are held as sequences in the objects, so aliasing between an object and
  the arrays it was filled from is not modelled. The filling loops do work on
  arrays.
- The cause an exception carries (`new ClassNotFoundException(className, e)`) is
  dropped; only the outer error is kept.
