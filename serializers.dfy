/** The serializers the benchmark drives: the DataSerializable adapter, which
    frames the fields with the class name, and the IdentifiedDataSerializable
    adapter, which frames them with a factory id and a type id. Each adapter is
    given as a pure encoder and decoder over token sequences and as a method that
    drives the streams and the object's codec; the benchmark loop sees either one
    only through the Serializer interface. */
module Serializers {
  import opened JavaTypes
  import opened Streams
  import opened SampleObjects

  /** What `o.getClass().getName()` yields for the benchmark's object. */
  const DSClassName: string := "com.hazelcast.benchmark.serialization.DSSampleObject"

  // ---------------------------------------------------------------- DataSerializable

  /** The DataSerializable adapter's output: the class name, then the fields. */
  function DSEncode(className: string, f: Fields): seq<Tok>
  {
    [Utf(className)] + FieldTokens(f)
  }

  /** The DataSerializable adapter's read. `classes` holds the names the class
      loader resolves to the sample class (in the benchmark, DSClassName alone);
      every other name counts as one that does not resolve. A read error in
      the name propagates; a name that does not resolve, and any failure of
      readData after it, is reported as ClassNotFound for that name. */
  function DSDecode(classes: set<string>, data: seq<Tok>): (r: Result<Fields>)
    ensures r.Ok? ==> 1 + FieldCount <= |data| && data[0].Utf? && data[0].text in classes
    ensures 1 <= |data| && data[0].Utf? && data[0].text !in classes ==> r == Err(ClassNotFound(data[0].text))
  {
    var name :- ReadAt(data, 0, UtfKind);
    var className := name.text;
    if className !in classes then
      Err(ClassNotFound(className))
    else
      match DecodeFields(data, 1)
      case Ok(decoded) => Ok(decoded.0)
      case Err(_) => Err(ClassNotFound(className))
  }

  /** What the DataSerializable read accepts is exactly a resolvable name followed
      by the field tokens of the object it returns. */
  lemma DSDecodeSound(classes: set<string>, data: seq<Tok>)
    requires DSDecode(classes, data).Ok?
    ensures data[..1 + FieldCount] == DSEncode(data[0].text, DSDecode(classes, data).value)
  {
  }

  /** A resolvable class name: the read gives back the written fields, and
      whatever follows the encoding in the buffer is not looked at. */
  lemma DSRoundTrip(classes: set<string>, className: string, f: Fields, trailing: seq<Tok>)
    requires className in classes
    ensures DSDecode(classes, DSEncode(className, f) + trailing) == Ok(f)
  {
  }

  /** `write` of the DataSerializable adapter. */
  method DSWrite(o: DSSampleObject) returns (data: seq<Tok>)
    ensures data == DSEncode(DSClassName, o.Value())
  {
    var out := new ObjectDataOutput();
    out.Write(Utf(DSClassName));
    o.WriteData(out);
    data := out.tokens;
  }

  /** `read` of the DataSerializable adapter: resolve the name, build a fresh
      instance with the no-argument constructor, let it read its fields. */
  method DSRead(classes: set<string>, data: seq<Tok>) returns (r: Result<Fields>)
    ensures r == DSDecode(classes, data)
  {
    var input := new ObjectDataInput(data);
    var name :- input.Read(UtfKind);
    var className := name.text;
    if className !in classes {
      return Err(ClassNotFound(className));
    }
    var ds := new DSSampleObject();
    var done := ds.ReadData(input);
    if done.Err? {
      return Err(ClassNotFound(className));
    }
    r := Ok(ds.Value());
  }

  // ------------------------------------------------------ IdentifiedDataSerializable

  /** The IdentifiedDataSerializable adapter's output: factory id, type id, fields. */
  function IDSEncode(factoryId: int32, typeId: int32, f: Fields): seq<Tok>
  {
    [I32(factoryId), I32(typeId)] + FieldTokens(f)
  }

  /** The IdentifiedDataSerializable adapter's read. The factory id is read and
      dropped; `create` says whether the factory returns an instance for the type
      id (when it returns null, readData is called on null). Read errors propagate. */
  function IDSDecode(create: int32 -> bool, data: seq<Tok>): (r: Result<Fields>)
    ensures r.Ok? ==> 2 + FieldCount <= |data| && data[0].I32? && data[1].I32? && create(data[1].i)
    ensures 2 <= |data| && data[0].I32? && data[1].I32? && !create(data[1].i) ==> r == Err(NullPointer)
  {
    var _ :- ReadAt(data, 0, IntKind);
    var typeId :- ReadAt(data, 1, IntKind);
    if !create(typeId.i) then
      Err(NullPointer)
    else
      var decoded :- DecodeFields(data, 2);
      Ok(decoded.0)
  }

  /** What the IdentifiedDataSerializable read accepts is exactly two ints, the
      second a type id the factory knows, followed by the field tokens of the
      object it returns. */
  lemma IDSDecodeSound(create: int32 -> bool, data: seq<Tok>)
    requires IDSDecode(create, data).Ok?
    ensures data[..2 + FieldCount] == IDSEncode(data[0].i, data[1].i, IDSDecode(create, data).value)
  {
  }

  /** A type id the factory knows: the read gives back the written fields. */
  lemma IDSRoundTrip(create: int32 -> bool, factoryId: int32, typeId: int32, f: Fields, trailing: seq<Tok>)
    requires create(typeId)
    ensures IDSDecode(create, IDSEncode(factoryId, typeId, f) + trailing) == Ok(f)
  {
  }

  /** Whatever int stands first, the read does not depend on its value. */
  lemma IDSIgnoresFactoryId(create: int32 -> bool, data: seq<Tok>, other: int32)
    requires 1 <= |data| && data[0].I32?
    ensures IDSDecode(create, [I32(other)] + data[1..]) == IDSDecode(create, data)
  {
  }

  /** `write` of the IdentifiedDataSerializable adapter, for an object reporting the
      given factory id and type id. */
  method IDSWrite(factoryId: int32, typeId: int32, o: DSSampleObject) returns (data: seq<Tok>)
    ensures data == IDSEncode(factoryId, typeId, o.Value())
  {
    var out := new ObjectDataOutput();
    out.Write(I32(factoryId));
    out.Write(I32(typeId));
    o.WriteData(out);
    data := out.tokens;
  }

  /** `read` of the IdentifiedDataSerializable adapter. */
  method IDSRead(create: int32 -> bool, data: seq<Tok>) returns (r: Result<Fields>)
    ensures r == IDSDecode(create, data)
  {
    var input := new ObjectDataInput(data);
    var _ :- input.Read(IntKind);
    var typeId :- input.Read(IntKind);
    if !create(typeId.i) {
      return Err(NullPointer);
    }
    var ds := new DSSampleObject();
    var _ :- ds.ReadData(input);
    r := Ok(ds.Value());
  }

  // ------------------------------------------------------------- the interface

  /** A serializer as the benchmark loop sees it through the Serializer
      interface: a write and a read, the implementation behind them hidden. Either
      may throw (Err); a read may also yield null (None). The serializers whose
      encoding lives in a library (Java serialization, Kryo) are values of this
      type too. */
  datatype Serializer = Serializer(write: Fields -> Result<seq<Tok>>, read: seq<Tok> -> Result<Option<Fields>>)

  /** What reading back the output of a write gives: the write's exception, or
      whatever the read yields. */
  function ReadBack(ser: Serializer, f: Fields): Result<Option<Fields>>
  {
    var data :- ser.write(f);
    ser.read(data)
  }

  /** An adapter's read result as the interface returns it: an object, never null. */
  function Found(r: Result<Fields>): (o: Result<Option<Fields>>)
    ensures !(o.Ok? && o.value.None?)
  {
    match r
    case Ok(f) => Ok(Some(f))
    case Err(e) => Err(e)
  }

  /** The DataSerializable adapter behind the interface, over a class loader that
      resolves the names in `classes`. */
  function DSSerializer(classes: set<string>): Serializer
  {
    Serializer(f => Ok(DSEncode(DSClassName, f)), data => Found(DSDecode(classes, data)))
  }

  /** The IdentifiedDataSerializable adapter behind the interface, for an object
      reporting factoryId and typeId. */
  function IDSSerializer(factoryId: int32, typeId: int32, create: int32 -> bool): Serializer
  {
    Serializer(f => Ok(IDSEncode(factoryId, typeId, f)), data => Found(IDSDecode(create, data)))
  }

  /** A serializer reads back exactly the object it wrote, whatever the object. */
  ghost predicate RoundTrips(ser: Serializer)
  {
    forall f: Fields :: ReadBack(ser, f) == Ok(Some(f))
  }

  /** The DataSerializable adapter round-trips every object exactly when the class
      loader resolves the object's class; otherwise the read fails with
      ClassNotFound for that name. */
  lemma DSSerializerRoundTrips(classes: set<string>)
    ensures RoundTrips(DSSerializer(classes)) <==> DSClassName in classes
    ensures DSClassName !in classes ==> forall f: Fields ::
      ReadBack(DSSerializer(classes), f) == Err(ClassNotFound(DSClassName))
  {
    var ser := DSSerializer(classes);
    if DSClassName in classes {
      forall f: Fields
        ensures ReadBack(ser, f) == Ok(Some(f))
      {
        DSRoundTrip(classes, DSClassName, f, []);
        assert DSEncode(DSClassName, f) + [] == DSEncode(DSClassName, f);
      }
    } else {
      assert ReadBack(ser, Blank) == Err(ClassNotFound(DSClassName));
    }
  }

  /** The IdentifiedDataSerializable adapter round-trips every object exactly when
      the factory builds an instance for the object's type id; otherwise readData
      is called on null. */
  lemma IDSSerializerRoundTrips(factoryId: int32, typeId: int32, create: int32 -> bool)
    ensures RoundTrips(IDSSerializer(factoryId, typeId, create)) <==> create(typeId)
    ensures !create(typeId) ==> forall f: Fields ::
      ReadBack(IDSSerializer(factoryId, typeId, create), f) == Err(NullPointer)
  {
    var ser := IDSSerializer(factoryId, typeId, create);
    if create(typeId) {
      forall f: Fields
        ensures ReadBack(ser, f) == Ok(Some(f))
      {
        IDSRoundTrip(create, factoryId, typeId, f, []);
        assert IDSEncode(factoryId, typeId, f) + [] == IDSEncode(factoryId, typeId, f);
      }
    } else {
      assert ReadBack(ser, Blank) == Err(NullPointer);
    }
  }
}
