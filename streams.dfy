/**
 * Hazelcast's ObjectDataOutput and ObjectDataInput, seen as a sequence of
 * typed values: every write appends one token, every read consumes one at
 * the cursor.
 */
module Streams {
  import opened Wrappers
  import opened Ints
  import opened Edm

  /** One value written by writeInt, writeLong or writeUTF. */
  datatype Token = IntToken(i: int32) | LongToken(l: int) | UtfToken(s: string)

  /** A value read from a stream together with the cursor after it. */
  datatype Read<+T> = Read(value: T, next: nat)

  /** A UUID goes on the wire as its two halves, most significant first. */
  function UuidTokens(u: Uuid): seq<Token>
  {
    [LongToken(u.mostSigBits), LongToken(u.leastSigBits)]
  }

  /** readInt at `pos`: fails at the end of the stream or on a value of another kind. */
  function ReadIntAt(data: seq<Token>, pos: nat): (r: Result<Read<int32>>)
    ensures r.Success? <==> pos < |data| && data[pos].IntToken?
    ensures r.Success? ==> r.value == Read(data[pos].i, pos + 1)
    ensures pos >= |data| ==> r == Failure(EndOfStream)
  {
    if pos >= |data| then Failure(EndOfStream)
    else if data[pos].IntToken? then Success(Read(data[pos].i, pos + 1))
    else Failure(Malformed)
  }

  /** readLong at `pos`. */
  function ReadLongAt(data: seq<Token>, pos: nat): (r: Result<Read<int>>)
    ensures r.Success? <==> pos < |data| && data[pos].LongToken?
    ensures r.Success? ==> r.value == Read(data[pos].l, pos + 1)
    ensures pos >= |data| ==> r == Failure(EndOfStream)
  {
    if pos >= |data| then Failure(EndOfStream)
    else if data[pos].LongToken? then Success(Read(data[pos].l, pos + 1))
    else Failure(Malformed)
  }

  /** readUTF at `pos`. */
  function ReadUtfAt(data: seq<Token>, pos: nat): (r: Result<Read<string>>)
    ensures r.Success? <==> pos < |data| && data[pos].UtfToken?
    ensures r.Success? ==> r.value == Read(data[pos].s, pos + 1)
    ensures pos >= |data| ==> r == Failure(EndOfStream)
  {
    if pos >= |data| then Failure(EndOfStream)
    else if data[pos].UtfToken? then Success(Read(data[pos].s, pos + 1))
    else Failure(Malformed)
  }

  /** A UUID read as two longs. */
  function ReadUuidAt(data: seq<Token>, pos: nat): (r: Result<Read<Uuid>>)
    ensures r.Success? <==> pos + 1 < |data| && data[pos].LongToken? && data[pos + 1].LongToken?
    ensures r.Success? ==> r.value == Read(Uuid(data[pos].l, data[pos + 1].l), pos + 2)
  {
    match ReadLongAt(data, pos)
    case Failure(e) => Failure(e)
    case Success(hi) =>
      match ReadLongAt(data, hi.next)
      case Failure(e) => Failure(e)
      case Success(lo) => Success(Read(Uuid(hi.value, lo.value), lo.next))
  }

  /** Reading a UUID back where its tokens were written restores it and moves past both halves. */
  lemma ReadUuidAfterWrite(prefix: seq<Token>, u: Uuid, suffix: seq<Token>)
    ensures ReadUuidAt(prefix + UuidTokens(u) + suffix, |prefix|) == Success(Read(u, |prefix| + 2))
  {
    var data := prefix + UuidTokens(u) + suffix;
    assert data[|prefix|] == LongToken(u.mostSigBits);
    assert data[|prefix| + 1] == LongToken(u.leastSigBits);
  }

  /** An output stream: `written` is everything written so far. */
  class ObjectDataOutput {
    var written: seq<Token>

    constructor ()
      ensures written == []
    {
      written := [];
    }

    method WriteInt(v: int32)
      modifies this
      ensures written == old(written) + [IntToken(v)]
    {
      written := written + [IntToken(v)];
    }

    method WriteLong(v: int)
      modifies this
      ensures written == old(written) + [LongToken(v)]
    {
      written := written + [LongToken(v)];
    }

    method WriteUtf(v: string)
      modifies this
      ensures written == old(written) + [UtfToken(v)]
    {
      written := written + [UtfToken(v)];
    }
  }

  /** An input stream over `data` with its cursor; a failed read leaves the cursor where it was. */
  class ObjectDataInput {
    const data: seq<Token>
    var pos: nat

    constructor (data: seq<Token>)
      ensures this.data == data && pos == 0
    {
      this.data := data;
      pos := 0;
    }

    method ReadInt() returns (r: Result<int32>)
      modifies this
      ensures ReadIntAt(data, old(pos)).Success? ==> r == Success(ReadIntAt(data, old(pos)).value.value) && pos == ReadIntAt(data, old(pos)).value.next
      ensures ReadIntAt(data, old(pos)).Failure? ==> r == Failure(ReadIntAt(data, old(pos)).error) && pos == old(pos)
    {
      var read := ReadIntAt(data, pos);
      if read.Failure? {
        return Failure(read.error);
      }
      pos := read.value.next;
      r := Success(read.value.value);
    }

    method ReadLong() returns (r: Result<int>)
      modifies this
      ensures ReadLongAt(data, old(pos)).Success? ==> r == Success(ReadLongAt(data, old(pos)).value.value) && pos == ReadLongAt(data, old(pos)).value.next
      ensures ReadLongAt(data, old(pos)).Failure? ==> r == Failure(ReadLongAt(data, old(pos)).error) && pos == old(pos)
    {
      var read := ReadLongAt(data, pos);
      if read.Failure? {
        return Failure(read.error);
      }
      pos := read.value.next;
      r := Success(read.value.value);
    }

    method ReadUtf() returns (r: Result<string>)
      modifies this
      ensures ReadUtfAt(data, old(pos)).Success? ==> r == Success(ReadUtfAt(data, old(pos)).value.value) && pos == ReadUtfAt(data, old(pos)).value.next
      ensures ReadUtfAt(data, old(pos)).Failure? ==> r == Failure(ReadUtfAt(data, old(pos)).error) && pos == old(pos)
    {
      var read := ReadUtfAt(data, pos);
      if read.Failure? {
        return Failure(read.error);
      }
      pos := read.value.next;
      r := Success(read.value.value);
    }
  }

  /** UUIDStreamSerializerUtils.serialize: the two halves as longs. */
  method SerializeUuid(output: ObjectDataOutput, u: Uuid)
    modifies output
    ensures output.written == old(output.written) + UuidTokens(u)
  {
    output.WriteLong(u.mostSigBits);
    output.WriteLong(u.leastSigBits);
  }

  /** UUIDStreamSerializerUtils.deserialize; on failure the cursor stays where the failing read left it. */
  method DeserializeUuid(input: ObjectDataInput) returns (r: Result<Uuid>)
    modifies input
    ensures ReadUuidAt(input.data, old(input.pos)).Success? ==>
      r == Success(ReadUuidAt(input.data, old(input.pos)).value.value) && input.pos == ReadUuidAt(input.data, old(input.pos)).value.next
    ensures ReadUuidAt(input.data, old(input.pos)).Failure? ==> r == Failure(ReadUuidAt(input.data, old(input.pos)).error)
  {
    var hi := input.ReadLong();
    if hi.Failure? {
      return Failure(hi.error);
    }
    var lo := input.ReadLong();
    if lo.Failure? {
      return Failure(lo.error);
    }
    r := Success(Uuid(hi.value, lo.value));
  }
}
