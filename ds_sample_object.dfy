/** The benchmark's payload object and its hand-written DataSerializable field
    codec: writeData appends seven values in a fixed order and readData reads them
    back, in the same order, into the object's own fields. */
module SampleObjects {
  import opened JavaTypes
  import opened Streams

  /** The seven fields of a sample object, as a value. */
  datatype Fields = Fields(
    intVal: int32,
    shortVal: int16,
    floatVal: FloatBits,
    byteArr: seq<int8>,
    dblArr: seq<DoubleBits>,
    longArr: seq<int64>,
    str: string)

  /** How many tokens one object's fields occupy. */
  const FieldCount: nat := 7

  /** The field state of an instance made by the no-argument constructor. */
  const Blank: Fields := Fields(0, 0, 0, [], [], [], "")

  /** The tokens writeData produces for f, in the order it writes them. */
  function FieldTokens(f: Fields): seq<Tok>
  {
    [I32(f.intVal), I16(f.shortVal), F32(f.floatVal), Bytes(f.byteArr), Dbls(f.dblArr), Longs(f.longArr), Utf(f.str)]
  }

  /** What readData makes of the tokens from pos on: the fields and the cursor
      after them, or the first read error. */
  function DecodeFields(data: seq<Tok>, pos: nat): (r: Result<(Fields, nat)>)
    ensures r.Ok? ==> r.value.1 == pos + FieldCount <= |data|
  {
    var intVal :- ReadAt(data, pos, IntKind);
    var shortVal :- ReadAt(data, pos + 1, ShortKind);
    var floatVal :- ReadAt(data, pos + 2, FloatKind);
    var byteArr :- ReadAt(data, pos + 3, ByteArrayKind);
    var dblArr :- ReadAt(data, pos + 4, DoubleArrayKind);
    var longArr :- ReadAt(data, pos + 5, LongArrayKind);
    var str :- ReadAt(data, pos + 6, UtfKind);
    Ok((Fields(intVal.i, shortVal.s, floatVal.f, byteArr.bytes, dblArr.dbls, longArr.longs, str.text), pos + FieldCount))
  }

  /** A successful decode read exactly the seven tokens writeData writes for the
      decoded fields: nothing else decodes to them. */
  lemma DecodedFieldsWereWritten(data: seq<Tok>, pos: nat)
    requires DecodeFields(data, pos).Ok?
    ensures data[pos..pos + FieldCount] == FieldTokens(DecodeFields(data, pos).value.0)
  {
  }

  /** Decoding what writeData wrote gives back every field exactly and stops right
      after the seven tokens, whatever precedes or follows them. */
  lemma DecodeEncodedFields(prefix: seq<Tok>, f: Fields, suffix: seq<Tok>)
    ensures DecodeFields(prefix + FieldTokens(f) + suffix, |prefix|) == Ok((f, |prefix| + FieldCount))
  {
  }

  /** readData looks at nothing but the seven tokens from pos on: two inputs that
      agree on those decode alike, whatever lies before or after them. */
  lemma DecodeFieldsLocal(a: seq<Tok>, b: seq<Tok>, pos: nat)
    requires pos + FieldCount <= |a| && pos + FieldCount <= |b|
    requires a[pos..pos + FieldCount] == b[pos..pos + FieldCount]
    ensures DecodeFields(a, pos) == DecodeFields(b, pos)
  {
    var w := a[pos..pos + FieldCount];
    assert a[pos] == w[0] == b[pos];
    assert a[pos + 1] == w[1] == b[pos + 1];
    assert a[pos + 2] == w[2] == b[pos + 2];
    assert a[pos + 3] == w[3] == b[pos + 3];
    assert a[pos + 4] == w[4] == b[pos + 4];
    assert a[pos + 5] == w[5] == b[pos + 5];
    assert a[pos + 6] == w[6] == b[pos + 6];
  }

  /** Fewer than seven tokens left: readData fails instead of returning a partly
      filled object. */
  lemma DecodeTruncated(data: seq<Tok>, pos: nat)
    requires |data| < pos + FieldCount
    ensures DecodeFields(data, pos).Err?
  {
  }

  /** The object: its fields are updated in place by the factory and by readData. */
  class DSSampleObject {
    var intVal: int32
    var shortVal: int16
    var floatVal: FloatBits
    var byteArr: seq<int8>
    var dblArr: seq<DoubleBits>
    var longArr: seq<int64>
    var str: string

    function Value(): Fields
      reads this
    {
      Fields(intVal, shortVal, floatVal, byteArr, dblArr, longArr, str)
    }

    /** The no-argument constructor used as the decoding target. */
    constructor ()
      ensures Value() == Blank
    {
      intVal, shortVal, floatVal := 0, 0, 0;
      byteArr, dblArr, longArr, str := [], [], [], "";
    }

    /** The constructor the factory calls with the sequence id. */
    constructor WithIntVal(intVal: int32)
      ensures Value() == Blank.(intVal := intVal)
    {
      this.intVal := intVal;
      shortVal, floatVal := 0, 0;
      byteArr, dblArr, longArr, str := [], [], [], "";
    }

    /** Appends the seven field tokens to out; the object itself is left as it is. */
    method WriteData(out: ObjectDataOutput)
      modifies out
      ensures out.tokens == old(out.tokens) + FieldTokens(Value())
      ensures Value() == old(Value())
    {
      out.Write(I32(intVal));
      out.Write(I16(shortVal));
      out.Write(F32(floatVal));
      out.Write(Bytes(byteArr));
      out.Write(Dbls(dblArr));
      out.Write(Longs(longArr));
      out.Write(Utf(str));
    }

    /** Reads the seven fields from input into this object. On success every field
        is the decoded one, whatever the object held before. */
    method ReadData(input: ObjectDataInput) returns (r: Result<()>)
      modifies this, input
      ensures var d := DecodeFields(input.data, old(input.pos));
        (r.Ok? <==> d.Ok?) &&
        (d.Ok? ==> Value() == d.value.0 && input.pos == d.value.1) &&
        (d.Err? ==> r.error == d.error)
    {
      var t :- input.Read(IntKind);
      intVal := t.i;
      t :- input.Read(ShortKind);
      shortVal := t.s;
      t :- input.Read(FloatKind);
      floatVal := t.f;
      t :- input.Read(ByteArrayKind);
      byteArr := t.bytes;
      t :- input.Read(DoubleArrayKind);
      dblArr := t.dbls;
      t :- input.Read(LongArrayKind);
      longArr := t.longs;
      t :- input.Read(UtfKind);
      str := t.text;
      r := Ok(());
    }
  }
}
