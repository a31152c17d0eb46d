/**
 * AddFlagsToEntitySetProcessorStreamSerializer: a set of entity-set flags on
 * the wire as its size followed by the ordinal of each flag.
 */
module AddFlagsSerializer {
  import opened Wrappers
  import opened Ints
  import opened Edm
  import opened Seqs
  import opened Streams

  /** The entry processor that adds `flags` to an entity set. */
  datatype AddFlagsToEntitySetProcessor = AddFlagsToEntitySetProcessor(flags: set<EntitySetFlag>)

  /** `values` can be EntitySetFlag.values(): the constants, none twice, in a Java array. */
  predicate IsEnumValues(values: seq<EntitySetFlag>)
  {
    Distinct(values) && |values| <= INT32_MAX
  }

  /** The ordinal of constant f: its index in values(). */
  function Ordinal(values: seq<EntitySetFlag>, f: EntitySetFlag): (r: nat)
    requires f in values
    ensures r < |values| && values[r] == f
  {
    if values[0] == f then 0 else 1 + Ordinal(values[1..], f)
  }

  /** Constants have distinct ordinals: the ordinal of the constant at index i is i. */
  lemma {:induction false} OrdinalOfIndex(values: seq<EntitySetFlag>, i: nat)
    requires Distinct(values) && i < |values|
    ensures Ordinal(values, values[i]) == i
  {
    var k := Ordinal(values, values[i]);
    assert values[k] == values[i];
  }

  /** The ordinals of the flags, one int each, in iteration order. */
  function OrdinalTokens(values: seq<EntitySetFlag>, order: seq<EntitySetFlag>): seq<Token>
    requires IsEnumValues(values)
    requires forall f :: f in order ==> f in values
  {
    if order == [] then []
    else [IntToken(Ordinal(values, order[0]) as int32)] + OrdinalTokens(values, order[1..])
  }

  /** What write puts on the stream for the flags iterated in `order`. */
  function Encode(values: seq<EntitySetFlag>, order: seq<EntitySetFlag>): seq<Token>
    requires IsEnumValues(values)
    requires forall f :: f in order ==> f in values
    requires |order| <= INT32_MAX
  {
    [IntToken(|order| as int32)] + OrdinalTokens(values, order)
  }

  /** read's loop: n ordinals, each looked up in values(); a lookup outside the array fails. */
  function DecodeOrdinals(values: seq<EntitySetFlag>, data: seq<Token>, pos: nat, n: nat): Result<Read<set<EntitySetFlag>>>
    decreases n
  {
    if n == 0 then Success(Read({}, pos))
    else
      match ReadIntAt(data, pos)
      case Failure(e) => Failure(e)
      case Success(o) =>
        if 0 <= o.value as int < |values| then
          match DecodeOrdinals(values, data, o.next, n - 1)
          case Failure(e) => Failure(e)
          case Success(rest) => Success(Read({values[o.value as int]} + rest.value, rest.next))
        else Failure(IndexOutOfBounds)
  }

  /** The flags read so far joined with the result of reading the rest. */
  function AndCollect(acc: set<EntitySetFlag>, rest: Result<Read<set<EntitySetFlag>>>): Result<Read<set<EntitySetFlag>>>
  {
    if rest.Failure? then Failure(rest.error) else Success(Read(acc + rest.value.value, rest.value.next))
  }

  /** One step of read's loop: the first ordinal either fails the read or joins the flags read after it. */
  lemma DecodeOrdinalsUnfold(values: seq<EntitySetFlag>, data: seq<Token>, pos: nat, n: nat)
    requires n > 0
    ensures ReadIntAt(data, pos).Failure? ==> DecodeOrdinals(values, data, pos, n) == Failure(ReadIntAt(data, pos).error)
    ensures ReadIntAt(data, pos).Success? && !(0 <= data[pos].i as int < |values|) ==>
      DecodeOrdinals(values, data, pos, n) == Failure(IndexOutOfBounds)
    ensures ReadIntAt(data, pos).Success? && 0 <= data[pos].i as int < |values| ==>
      DecodeOrdinals(values, data, pos, n) == AndCollect({values[data[pos].i as int]}, DecodeOrdinals(values, data, pos + 1, n - 1))
  {
  }

  /** The number of ordinals read for a size of `size`: `0 until size` is empty when size <= 0. */
  function Count(size: int32): nat
  {
    if size < 0 then 0 else size as int
  }

  /** What read makes of the stream from `pos`. */
  function Decode(values: seq<EntitySetFlag>, data: seq<Token>, pos: nat): Result<Read<AddFlagsToEntitySetProcessor>>
  {
    match ReadIntAt(data, pos)
    case Failure(e) => Failure(e)
    case Success(size) =>
      match DecodeOrdinals(values, data, size.next, Count(size.value))
      case Failure(e) => Failure(e)
      case Success(flags) => Success(Read(AddFlagsToEntitySetProcessor(flags.value), flags.next))
  }

  /** write emits one int for the size and one per flag. */
  lemma {:induction false} EncodeLength(values: seq<EntitySetFlag>, order: seq<EntitySetFlag>)
    requires IsEnumValues(values)
    requires forall f :: f in order ==> f in values
    requires |order| <= INT32_MAX
    ensures |Encode(values, order)| == 1 + |order|
    ensures Encode(values, order)[0] == IntToken(|order| as int32)
  {
    OrdinalTokensShape(values, order);
  }

  /** Every ordinal written is an int in [0, |values()|), the ordinal of the flag at the same place. */
  lemma {:induction false} OrdinalTokensShape(values: seq<EntitySetFlag>, order: seq<EntitySetFlag>)
    requires IsEnumValues(values)
    requires forall f :: f in order ==> f in values
    ensures |OrdinalTokens(values, order)| == |order|
    ensures forall k :: 0 <= k < |order| ==>
      OrdinalTokens(values, order)[k].IntToken? && 0 <= OrdinalTokens(values, order)[k].i as int < |values|
      && values[OrdinalTokens(values, order)[k].i as int] == order[k]
  {
    if order != [] {
      OrdinalTokensShape(values, order[1..]);
      var rest := OrdinalTokens(values, order[1..]);
      forall k | 1 <= k < |order|
        ensures OrdinalTokens(values, order)[k] == rest[k - 1] && order[k] == order[1..][k - 1]
      {
      }
    }
  }

  /** The written ordinals all lie in [0, |values()|). */
  lemma EncodeOrdinalsInRange(values: seq<EntitySetFlag>, order: seq<EntitySetFlag>)
    requires IsEnumValues(values)
    requires forall f :: f in order ==> f in values
    requires |order| <= INT32_MAX
    ensures forall k :: 1 <= k < |Encode(values, order)| ==>
      Encode(values, order)[k].IntToken? && 0 <= Encode(values, order)[k].i as int < |values|
  {
    OrdinalTokensShape(values, order);
    var e := Encode(values, order);
    forall k | 1 <= k < |e|
      ensures e[k] == OrdinalTokens(values, order)[k - 1]
    {
    }
  }

  /** The token at index j is the ordinal of flag f. */
  predicate NamesAt(values: seq<EntitySetFlag>, data: seq<Token>, j: nat, f: EntitySetFlag)
  {
    j < |data| && data[j].IntToken? && 0 <= data[j].i as int < |values| && values[data[j].i as int] == f
  }

  /** Reading back ints that name the flags of `order` one by one gives the set of those flags and stops right after them. */
  lemma {:induction false} DecodeOrdinalsRoundTrip(values: seq<EntitySetFlag>, order: seq<EntitySetFlag>, data: seq<Token>, pos: nat)
    requires forall k :: 0 <= k < |order| ==> NamesAt(values, data, pos + k, order[k])
    ensures DecodeOrdinals(values, data, pos, |order|) == Success(Read(SetOf(order), pos + |order|))
    decreases |order|
  {
    if order != [] {
      NamesShift(values, order, data, pos);
      DecodeOrdinalsRoundTrip(values, order[1..], data, pos + 1);
      DecodeOrdinalsUnfold(values, data, pos, |order|);
      assert SetOf(order) == {order[0]} + SetOf(order[1..]);
    } else {
      assert SetOf(order) == {};
    }
  }

  /** The tokens naming `order` from `pos` name its first flag at `pos` and its tail from `pos + 1`. */
  lemma NamesShift(values: seq<EntitySetFlag>, order: seq<EntitySetFlag>, data: seq<Token>, pos: nat)
    requires order != []
    requires forall k :: 0 <= k < |order| ==> NamesAt(values, data, pos + k, order[k])
    ensures NamesAt(values, data, pos, order[0])
    ensures forall k :: 0 <= k < |order[1..]| ==> NamesAt(values, data, pos + 1 + k, order[1..][k])
  {
    assert NamesAt(values, data, pos + 0, order[0]);
    forall k | 0 <= k < |order[1..]|
      ensures NamesAt(values, data, pos + 1 + k, order[1..][k])
    {
      assert NamesAt(values, data, pos + (k + 1), order[k + 1]);
    }
  }

  /** Round trip: read after write gives back the same flags and consumes exactly what was written, whatever follows. */
  lemma RoundTrip(values: seq<EntitySetFlag>, p: AddFlagsToEntitySetProcessor, order: seq<EntitySetFlag>, prefix: seq<Token>, suffix: seq<Token>)
    requires IsEnumValues(values)
    requires IsOrderOf(order, p.flags)
    requires forall f :: f in p.flags ==> f in values
    ensures |order| <= INT32_MAX
    ensures Decode(values, prefix + Encode(values, order) + suffix, |prefix|)
      == Success(Read(p, |prefix| + 1 + |p.flags|))
  {
    OrderFacts(values, p, order);
    EncodeThenDecode(values, order, prefix, suffix);
    assert AddFlagsToEntitySetProcessor(SetOf(order)) == p;
  }

  /** write's output for the flags in `order`, read back where it sits, gives the set of those flags. */
  lemma EncodeThenDecode(values: seq<EntitySetFlag>, order: seq<EntitySetFlag>, prefix: seq<Token>, suffix: seq<Token>)
    requires IsEnumValues(values)
    requires forall f :: f in order ==> f in values
    requires |order| <= INT32_MAX
    ensures Decode(values, prefix + Encode(values, order) + suffix, |prefix|)
      == Success(Read(AddFlagsToEntitySetProcessor(SetOf(order)), |prefix| + 1 + |order|))
  {
    EncodedAt(values, order, prefix, suffix);
    DecodeAt(values, order, prefix + Encode(values, order) + suffix, |prefix|);
  }

  /** An iteration order of the flags lists each of them once, and they are constants of values(). */
  lemma OrderFacts(values: seq<EntitySetFlag>, p: AddFlagsToEntitySetProcessor, order: seq<EntitySetFlag>)
    requires IsEnumValues(values)
    requires IsOrderOf(order, p.flags)
    requires forall f :: f in p.flags ==> f in values
    ensures SetOf(order) == p.flags && |order| == |p.flags| && |order| <= INT32_MAX
    ensures forall f :: f in order ==> f in values
  {
    DistinctSubLength(order, values);
    assert SetOf(order) == p.flags;
    SetOfCardinality(order);
  }

  /** A size token followed by tokens naming each flag of `order` decodes to the flags of `order`. */
  lemma DecodeAt(values: seq<EntitySetFlag>, order: seq<EntitySetFlag>, data: seq<Token>, pos: nat)
    requires |order| <= INT32_MAX
    requires pos < |data| && data[pos] == IntToken(|order| as int32)
    requires forall k :: 0 <= k < |order| ==> NamesAt(values, data, pos + 1 + k, order[k])
    ensures Decode(values, data, pos) == Success(Read(AddFlagsToEntitySetProcessor(SetOf(order)), pos + 1 + |order|))
  {
    assert ReadIntAt(data, pos) == Success(Read(|order| as int32, pos + 1));
    assert Count(|order| as int32) == |order|;
    DecodeOrdinalsRoundTrip(values, order, data, pos + 1);
  }

  /** Where write's output sits in a stream: the size first, then a token naming each flag in order. */
  lemma EncodedAt(values: seq<EntitySetFlag>, order: seq<EntitySetFlag>, prefix: seq<Token>, suffix: seq<Token>)
    requires IsEnumValues(values)
    requires forall f :: f in order ==> f in values
    requires |order| <= INT32_MAX
    ensures var data := prefix + Encode(values, order) + suffix;
      && |prefix| < |data| && data[|prefix|] == IntToken(|order| as int32)
      && forall k :: 0 <= k < |order| ==> NamesAt(values, data, |prefix| + 1 + k, order[k])
  {
    var e := Encode(values, order);
    var data := prefix + e + suffix;
    OrdinalTokensShape(values, order);
    assert data[|prefix|] == e[0];
    forall k | 0 <= k < |order|
      ensures NamesAt(values, data, |prefix| + 1 + k, order[k])
    {
      assert data[|prefix| + 1 + k] == e[1 + k];
      assert e[1 + k] == OrdinalTokens(values, order)[k];
    }
  }

  /** A list of distinct constants is no longer than values(). */
  lemma DistinctSubLength(order: seq<EntitySetFlag>, values: seq<EntitySetFlag>)
    requires Distinct(order) && Distinct(values)
    requires forall f :: f in order ==> f in values
    ensures |order| <= |values|
  {
    SetOfCardinality(order);
    SetOfCardinality(values);
    assert SetOf(order) <= SetOf(values);
    assert SetOf(values) == SetOf(order) + (SetOf(values) - SetOf(order));
  }

  /** A successful read of ordinals consumes exactly n ints and collects at most n flags. */
  lemma {:induction false} DecodeOrdinalsConsumes(values: seq<EntitySetFlag>, data: seq<Token>, pos: nat, n: nat)
    requires DecodeOrdinals(values, data, pos, n).Success?
    ensures DecodeOrdinals(values, data, pos, n).value.next == pos + n
    ensures |DecodeOrdinals(values, data, pos, n).value.value| <= n
    ensures n > 0 ==> pos + n <= |data|
    ensures forall k :: pos <= k < pos + n ==> data[k].IntToken?
    decreases n
  {
    if n > 0 {
      assert ReadIntAt(data, pos).Success?;
      DecodeOrdinalsConsumes(values, data, pos + 1, n - 1);
      var rest := DecodeOrdinals(values, data, pos + 1, n - 1).value.value;
      var f := values[data[pos].i as int];
      assert |{f} + rest| <= 1 + |rest|;
    }
  }

  /** read consumes exactly 1 + size ints, and duplicate ordinals collapse: the set has at most size flags. */
  lemma DecodeConsumes(values: seq<EntitySetFlag>, data: seq<Token>, pos: nat)
    requires Decode(values, data, pos).Success?
    ensures pos < |data| && data[pos].IntToken?
    ensures Decode(values, data, pos).value.next == pos + 1 + Count(data[pos].i)
    ensures |Decode(values, data, pos).value.value.flags| <= Count(data[pos].i)
  {
    DecodeOrdinalsConsumes(values, data, pos + 1, Count(data[pos].i));
  }

  /** An ordinal outside values() after in-range ones makes read fail with an index error. */
  lemma {:induction false} DecodeOrdinalsOutOfRange(values: seq<EntitySetFlag>, data: seq<Token>, pos: nat, n: nat, bad: nat)
    requires bad < n && pos + bad < |data|
    requires forall k :: pos <= k < pos + bad ==> k < |data| && data[k].IntToken? && 0 <= data[k].i as int < |values|
    requires data[pos + bad].IntToken? && !(0 <= data[pos + bad].i as int < |values|)
    ensures DecodeOrdinals(values, data, pos, n) == Failure(IndexOutOfBounds)
    decreases n
  {
    if bad > 0 {
      DecodeOrdinalsOutOfRange(values, data, pos + 1, n - 1, bad - 1);
    }
  }

  /** read fails with an index error on the first ordinal outside values(). */
  lemma DecodeOutOfRange(values: seq<EntitySetFlag>, data: seq<Token>, pos: nat, bad: nat)
    requires pos < |data| && data[pos].IntToken? && bad < Count(data[pos].i)
    requires pos + 1 + bad < |data|
    requires forall k :: pos + 1 <= k < pos + 1 + bad ==> data[k].IntToken? && 0 <= data[k].i as int < |values|
    requires data[pos + 1 + bad].IntToken? && !(0 <= data[pos + 1 + bad].i as int < |values|)
    ensures Decode(values, data, pos) == Failure(IndexOutOfBounds)
  {
    DecodeOrdinalsOutOfRange(values, data, pos + 1, Count(data[pos].i), bad);
  }

  class AddFlagsToEntitySetProcessorStreamSerializer {
    /** EntitySetFlag.values(). */
    const entitySetFlags: seq<EntitySetFlag>

    constructor (values: seq<EntitySetFlag>)
      requires IsEnumValues(values)
      ensures entitySetFlags == values
    {
      entitySetFlags := values;
    }

    /** write: the size, then the ordinal of each flag in iteration order. */
    method Write(output: ObjectDataOutput, obj: AddFlagsToEntitySetProcessor, order: seq<EntitySetFlag>)
      requires IsEnumValues(entitySetFlags)
      requires IsOrderOf(order, obj.flags)
      requires forall f :: f in obj.flags ==> f in entitySetFlags
      requires |obj.flags| <= INT32_MAX
      modifies output
      ensures |order| == |obj.flags|
      ensures output.written == old(output.written) + Encode(entitySetFlags, order)
    {
      assert SetOf(order) == obj.flags;
      SetOfCardinality(order);
      output.WriteInt(|obj.flags| as int32);
      ghost var start := output.written;
      var i := 0;
      while i < |order|
        invariant 0 <= i <= |order|
        invariant output.written == start + OrdinalTokens(entitySetFlags, order[..i])
      {
        OrdinalTokensAppend(entitySetFlags, order[..i], order[i]);
        assert order[..i + 1] == order[..i] + [order[i]];
        output.WriteInt(Ordinal(entitySetFlags, order[i]) as int32);
        i := i + 1;
      }
      assert order[..i] == order;
    }

    /** read: the size, then that many ordinals looked up in values(). */
    method Read(input: ObjectDataInput) returns (r: Result<AddFlagsToEntitySetProcessor>)
      modifies input
      ensures Decode(entitySetFlags, input.data, old(input.pos)).Success? ==>
        r == Success(Decode(entitySetFlags, input.data, old(input.pos)).value.value)
        && input.pos == Decode(entitySetFlags, input.data, old(input.pos)).value.next
      ensures Decode(entitySetFlags, input.data, old(input.pos)).Failure? ==>
        r == Failure(Decode(entitySetFlags, input.data, old(input.pos)).error)
    {
      var size := input.ReadInt();
      if size.Failure? {
        return Failure(size.error);
      }
      ghost var whole := DecodeOrdinals(entitySetFlags, input.data, input.pos, Count(size.value));
      var flags: set<EntitySetFlag> := {};
      assert whole == AndCollect(flags, whole) by {
        if whole.Success? {
          assert flags + whole.value.value == whole.value.value;
        }
      }
      var i: int := 0;
      while i < size.value as int
        invariant 0 <= i <= Count(size.value)
        invariant whole == AndCollect(flags, DecodeOrdinals(entitySetFlags, input.data, input.pos, Count(size.value) - i))
        decreases size.value as int - i
      {
        DecodeOrdinalsUnfold(entitySetFlags, input.data, input.pos, Count(size.value) - i);
        var ordinal := input.ReadInt();
        if ordinal.Failure? {
          return Failure(ordinal.error);
        }
        if !(0 <= ordinal.value as int < |entitySetFlags|) {
          return Failure(IndexOutOfBounds);
        }
        var rest := DecodeOrdinals(entitySetFlags, input.data, input.pos, Count(size.value) - i - 1);
        assert AndCollect(flags, AndCollect({entitySetFlags[ordinal.value as int]}, rest))
          == AndCollect(flags + {entitySetFlags[ordinal.value as int]}, rest) by {
          if rest.Success? {
            assert flags + ({entitySetFlags[ordinal.value as int]} + rest.value.value)
              == (flags + {entitySetFlags[ordinal.value as int]}) + rest.value.value;
          }
        }
        flags := flags + {entitySetFlags[ordinal.value as int]};
        i := i + 1;
      }
      assert whole == Success(Streams.Read(flags, input.pos));
      r := Success(AddFlagsToEntitySetProcessor(flags));
    }
  }

  /** Writing one more ordinal extends the written ordinals by its token. */
  lemma {:induction false} OrdinalTokensAppend(values: seq<EntitySetFlag>, order: seq<EntitySetFlag>, f: EntitySetFlag)
    requires IsEnumValues(values)
    requires forall g :: g in order ==> g in values
    requires f in values
    ensures OrdinalTokens(values, order + [f]) == OrdinalTokens(values, order) + [IntToken(Ordinal(values, f) as int32)]
  {
    if order != [] {
      assert (order + [f])[1..] == order[1..] + [f];
      OrdinalTokensAppend(values, order[1..], f);
    } else {
      assert order + [f] == [f];
    }
  }
}
