/** Hazelcast's ObjectDataOutput and ObjectDataInput at the level of the values
    written and read. Each write call appends one token; each read call asks for a
    token of one kind at the cursor. The byte layout of a token is not modelled. */
module Streams {
  import opened JavaTypes

  /** One value as written by writeInt, writeShort, writeFloat,
      IOUtil.writeByteArray, writeDoubleArray, writeLongArray or writeUTF. */
  datatype Tok =
    | I32(i: int32)
    | I16(s: int16)
    | F32(f: FloatBits)
    | Bytes(bytes: seq<int8>)
    | Dbls(dbls: seq<DoubleBits>)
    | Longs(longs: seq<int64>)
    | Utf(text: string)

  /** Which read call a token answers. */
  datatype Kind = IntKind | ShortKind | FloatKind | ByteArrayKind | DoubleArrayKind | LongArrayKind | UtfKind

  function KindOf(t: Tok): Kind
  {
    match t
    case I32(_) => IntKind
    case I16(_) => ShortKind
    case F32(_) => FloatKind
    case Bytes(_) => ByteArrayKind
    case Dbls(_) => DoubleArrayKind
    case Longs(_) => LongArrayKind
    case Utf(_) => UtfKind
  }

  /** The exceptions a read or a lookup can raise. */
  datatype Error =
    | EndOfStream(pos: nat)          // EOFException: nothing left to read
    | UnexpectedToken(pos: nat)      // the input holds another kind of value here
    | ClassNotFound(className: string)
    | NullPointer

  datatype Option<+T> = None | Some(value: T)

  datatype Result<+T> = Ok(value: T) | Err(error: Error) {
    predicate IsFailure() { Err? }

    function PropagateFailure<U>(): Result<U>
      requires Err?
    {
      Err(error)
    }

    function Extract(): T
      requires Ok?
    {
      value
    }
  }

  /** What a read call of the given kind yields at position pos. */
  function ReadAt(data: seq<Tok>, pos: nat, kind: Kind): (r: Result<Tok>)
    ensures r.Ok? <==> pos < |data| && KindOf(data[pos]) == kind
    ensures r.Ok? ==> r.value == data[pos] && KindOf(r.value) == kind
    ensures pos >= |data| ==> r == Err(EndOfStream(pos))
  {
    if pos >= |data| then Err(EndOfStream(pos))
    else if KindOf(data[pos]) != kind then Err(UnexpectedToken(pos))
    else Ok(data[pos])
  }

  /** An output stream: the tokens written so far. */
  class ObjectDataOutput {
    var tokens: seq<Tok>

    constructor ()
      ensures tokens == []
    {
      tokens := [];
    }

    method Write(t: Tok)
      modifies this
      ensures tokens == old(tokens) + [t]
    {
      tokens := tokens + [t];
    }
  }

  /** An input stream over a fixed token sequence, with a cursor. */
  class ObjectDataInput {
    const data: seq<Tok>
    var pos: nat

    constructor (data: seq<Tok>)
      ensures this.data == data && pos == 0
    {
      this.data := data;
      pos := 0;
    }

    /** Reads one value of the given kind; the cursor moves past it on success. */
    method Read(kind: Kind) returns (r: Result<Tok>)
      modifies this
      ensures r == ReadAt(data, old(pos), kind)
      ensures pos == if r.Ok? then old(pos) + 1 else old(pos)
    {
      r := ReadAt(data, pos, kind);
      if r.Ok? {
        pos := pos + 1;
      }
    }
  }
}
