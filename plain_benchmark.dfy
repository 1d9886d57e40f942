/** The benchmark harness: the factory that fills a sample object with randomized
    values, and the loop that round-trips one object per iteration through a
    serializer and stops at the first one that does not come back. */
module PlainBenchmark {
  import opened JavaTypes
  import opened Streams
  import opened SampleObjects
  import opened Serializers

  const ByteArrLength: nat := 4096
  const LongArrLength: nat := 3000
  const DblArrLength: nat := 3000

  /** The bytes `rand.nextBytes` puts into the 4096-byte array. */
  type RandomBlock = s: seq<int8> | |s| == ByteArrLength witness seq(ByteArrLength, _ => 0)

  /** What one call of createAndSetValues draws from java.util.Random:
      nextLong, nextDouble and nextBytes. */
  datatype Draw = Draw(offset: int64, multiplier: DoubleBits, bytes: RandomBlock)

  /** The floating-point operations the factory uses, which this model does not
      compute: `multiplier * x` for a long x, the cast `(float) d`, and the text
      string concatenation gives a float. */
  datatype FloatOps = FloatOps(
    mulLong: (DoubleBits, int64) -> DoubleBits,
    toFloat: DoubleBits -> FloatBits,
    floatText: FloatBits -> string)

  /** The `str` field: offset, float value and id in a fixed template. */
  function SampleText(offset: int64, floatVal: FloatBits, intVal: int32, ops: FloatOps): string
  {
    DecimalText(offset as int) + " sample " + ops.floatText(floatVal) + " string " + DecimalText(intVal as int) + " object"
  }

  /** The longArr the factory fills: element i is `i + offset` in long arithmetic. */
  function LongSeries(offset: int64): seq<int64>
  {
    seq(LongArrLength, i => WrapLong(i + offset as int))
  }

  /** The dblArr the factory fills: element i is the multiplier times element i of
      longArr. */
  function DoubleSeries(multiplier: DoubleBits, offset: int64, ops: FloatOps): seq<DoubleBits>
  {
    seq(DblArrLength, i => ops.mulLong(multiplier, WrapLong(i + offset as int)))
  }

  /** The object createAndSetValues(id) builds from the draw d. */
  function SampleFields(id: int32, d: Draw, ops: FloatOps): Fields
  {
    var floatVal := ops.toFloat(ops.mulLong(d.multiplier, d.offset));
    Fields(id, WrapShort(d.offset as int), floatVal, d.bytes,
      DoubleSeries(d.multiplier, d.offset, ops), LongSeries(d.offset), SampleText(d.offset, floatVal, id, ops))
  }

  /** Every object the factory builds has the id it was asked for, a 4096-byte
      array and two 3000-element arrays; longArr[i] is i + offset with 64-bit
      wrap-around, dblArr[i] is the multiplier times longArr[i], and shortVal is the
      low 16 bits of offset. */
  lemma SampleFieldsShape(id: int32, d: Draw, ops: FloatOps)
    ensures var r := SampleFields(id, d, ops);
      && r.intVal == id
      && (r.shortVal as int - d.offset as int) % ShortModulus == 0
      && r.floatVal == ops.toFloat(ops.mulLong(d.multiplier, d.offset))
      && r.byteArr == d.bytes && |r.byteArr| == ByteArrLength
      && |r.longArr| == LongArrLength && |r.dblArr| == DblArrLength
      && (forall i :: 0 <= i < LongArrLength ==> (r.longArr[i] as int - (i + d.offset as int)) % LongModulus == 0)
      && (forall i :: 0 <= i < DblArrLength ==> r.dblArr[i] == ops.mulLong(d.multiplier, r.longArr[i]))
      && r.str == SampleText(d.offset, r.floatVal, id, ops)
  {
    var longs := LongSeries(d.offset);
    var dbls := DoubleSeries(d.multiplier, d.offset, ops);
    forall i | 0 <= i < LongArrLength
      ensures (longs[i] as int - (i + d.offset as int)) % LongModulus == 0
      ensures dbls[i] == ops.mulLong(d.multiplier, longs[i])
    {
      var w := WrapLong(i + d.offset as int);
      assert longs[i] == w;
    }
  }

  /** A factory over a random source: the k-th call of createAndSetValues gets
      draws(k). `ids` records the ids it was asked for, in order. */
  class Factory {
    const draws: nat -> Draw
    const ops: FloatOps
    var drawn: nat
    ghost var ids: seq<int32>

    constructor (draws: nat -> Draw, ops: FloatOps)
      ensures this.draws == draws && this.ops == ops
      ensures drawn == 0 && ids == []
    {
      this.draws := draws;
      this.ops := ops;
      drawn := 0;
      ids := [];
    }

    method CreateAndSetValues(id: int32) returns (sample: DSSampleObject)
      modifies this
      ensures fresh(sample)
      ensures drawn == old(drawn) + 1 && ids == old(ids) + [id]
      ensures sample.Value() == SampleFields(id, draws(old(drawn)), ops)
    {
      var d := draws(drawn);
      drawn := drawn + 1;
      ids := ids + [id];

      sample := new DSSampleObject.WithIntVal(id);
      sample.shortVal := WrapShort(d.offset as int);
      sample.floatVal := ops.toFloat(ops.mulLong(d.multiplier, d.offset));

      sample.byteArr := d.bytes;

      sample.longArr := FillLongs(d.offset);
      sample.dblArr := FillDoubles(d.multiplier, d.offset, ops);

      sample.str := SampleText(d.offset, sample.floatVal, sample.intVal, ops);
    }
  }

  /** The first loop of createAndSetValues: a new long[3000] with element i set
      to `i + offset`. */
  method FillLongs(offset: int64) returns (longs: seq<int64>)
    ensures longs == LongSeries(offset)
  {
    var longArr := new int64[LongArrLength];
    for i := 0 to longArr.Length
      invariant forall j :: 0 <= j < i ==> longArr[j] == WrapLong(j + offset as int)
    {
      longArr[i] := WrapLong(i + offset as int);
    }
    longs := longArr[..];
  }

  /** The second loop of createAndSetValues: a new double[3000] with element i set
      to `multiplier * (i + offset)`. */
  method FillDoubles(multiplier: DoubleBits, offset: int64, ops: FloatOps) returns (dbls: seq<DoubleBits>)
    ensures dbls == DoubleSeries(multiplier, offset, ops)
  {
    var dblArr := new DoubleBits[DblArrLength];
    for i := 0 to dblArr.Length
      invariant forall j :: 0 <= j < i ==> dblArr[j] == ops.mulLong(multiplier, WrapLong(j + offset as int))
    {
      dblArr[i] := ops.mulLong(multiplier, WrapLong(i + offset as int));
    }
    dbls := dblArr[..];
  }

  /** Why an iteration stopped the run. */
  datatype Failure =
    | Threw(error: Error)   // write or read raised an exception
    | NullResult            // read returned null: NullPointerException
    | Mismatch              // read returned an unequal object: IllegalArgumentException

  datatype RunOutcome = Completed | Failed(iteration: int32, kind: Failure)

  /** The check one iteration makes on the object it round-trips: None when
      the read gives back an equal object. Null is checked before equality. */
  function Verdict(s: Serializer, original: Fields): (v: Option<Failure>)
    ensures v == None <==> ReadBack(s, original) == Ok(Some(original))
  {
    match ReadBack(s, original)
    case Err(e) => Some(Threw(e))
    case Ok(None) => Some(NullResult)
    case Ok(Some(decoded)) => if decoded == original then None else Some(Mismatch)
  }

  /** The verdict of iteration k of a run whose factory had made `first` objects
      before: the object has id k and is built from draw first + k. */
  function Check(s: Serializer, draws: nat -> Draw, ops: FloatOps, first: nat, k: int32): Option<Failure>
    requires 0 <= k
  {
    Verdict(s, SampleFields(k, draws(first + k as int), ops))
  }

  /** The ids 0, 1, ..., n - 1. */
  function Indices(n: nat): (r: seq<int32>)
    requires n <= 0x8000_0000
    ensures |r| == n
    ensures forall k :: 0 <= k < n ==> r[k] as int == k
  {
    if n == 0 then [] else Indices(n - 1) + [(n - 1) as int32]
  }

  /** How many iterations a run with this outcome went through. */
  function Attempted(outcome: RunOutcome, count: int32): nat
  {
    match outcome
    case Failed(i, _) => if i < 0 then 0 else i as int + 1
    case Completed => if count < 0 then 0 else count as int
  }

  /** Writing an object and reading it back, with the two checks of `test`: a
      null result first, then an unequal one. */
  method RoundTrip(serializer: Serializer, so: DSSampleObject) returns (verdict: Option<Failure>)
    ensures verdict == Verdict(serializer, so.Value())
  {
    var data := serializer.write(so.Value());
    if data.Err? {
      return Some(Threw(data.error));
    }
    var newObject := serializer.read(data.value);
    if newObject.Err? {
      return Some(Threw(newObject.error));
    }
    if newObject.value.None? {
      return Some(NullResult);
    }
    if so.Value() != newObject.value.value {
      return Some(Mismatch);
    }
    verdict := None;
  }

  /** One iteration of `test`: ask the factory for the object with id i and
      round-trip it. */
  method Iteration(serializer: Serializer, factory: Factory, i: int32, ghost first: nat) returns (verdict: Option<Failure>)
    requires 0 <= i && factory.drawn == first + i as int
    modifies factory
    ensures factory.drawn == old(factory.drawn) + 1 && factory.ids == old(factory.ids) + [i]
    ensures verdict == Check(serializer, factory.draws, factory.ops, first, i)
    ensures RoundTrips(serializer) ==> verdict == None
  {
    var so := factory.CreateAndSetValues(i);
    verdict := RoundTrip(serializer, so);
  }

  /** The timed loop of `test`, without the timing: iterations 0 .. count - 1,
      each asking the factory for the object with that id, writing it, reading it
      back, and stopping the run at the first null or unequal result. */
  method Test(serializer: Serializer, count: int32, factory: Factory) returns (outcome: RunOutcome)
    modifies factory
    ensures factory.drawn == old(factory.drawn) + Attempted(outcome, count)
    ensures factory.ids == old(factory.ids) + Indices(Attempted(outcome, count))
    ensures outcome.Completed? <==>
      forall k: int32 :: 0 <= k < count ==> Check(serializer, factory.draws, factory.ops, old(factory.drawn), k) == None
    ensures outcome.Failed? ==>
      && 0 <= outcome.iteration < count
      && Check(serializer, factory.draws, factory.ops, old(factory.drawn), outcome.iteration) == Some(outcome.kind)
      && forall k: int32 :: 0 <= k < outcome.iteration ==> Check(serializer, factory.draws, factory.ops, old(factory.drawn), k) == None
    ensures RoundTrips(serializer) ==> outcome == Completed
  {
    ghost var first := factory.drawn;
    ghost var ids0 := factory.ids;
    outcome := Completed;
    var i: int32 := 0;
    while i < count
      invariant 0 <= i && (i <= count || i == 0)
      invariant factory.drawn == first + i as int
      invariant factory.ids == ids0 + Indices(i as int)
      invariant forall k: int32 :: 0 <= k < i ==> Check(serializer, factory.draws, factory.ops, first, k) == None
    {
      var verdict := Iteration(serializer, factory, i, first);
      assert Indices(i as int + 1) == Indices(i as int) + [i];
      if verdict.Some? {
        return Failed(i, verdict.value);
      }
      i := i + 1;
    }
  }
}
