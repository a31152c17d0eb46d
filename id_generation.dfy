/**
 * The HazelcastIdGenerationService: the key space is split into 65,536
 * ranges, each owning the ids whose top 16 bits are its number, and ids are
 * handed out from a FIFO queue that the refill job fills.
 */
module IdGeneration {
  import opened Wrappers
  import opened Ints
  import opened Edm
  import opened Seqs

  const MASK_LENGTH: nat := 16

  /** `1L shl MASK_LENGTH`: the number of ranges. */
  const NUM_PARTITIONS: nat := 0x1_0000

  /** The weight of the lowest bit that holds the range number: `1L shl 48`. */
  const RANGE_UNIT: nat := 0x1_0000_0000_0000

  /** 2 to the power n. */
  function Pow2(n: nat): (r: nat)
    ensures r > 0
  {
    if n == 0 then 1 else 2 * Pow2(n - 1)
  }

  /** The range number occupies the top MASK_LENGTH bits of a 64-bit id: 16 + 48 == 64. */
  lemma {:induction false} PartitionLayout()
    ensures NUM_PARTITIONS == Pow2(MASK_LENGTH)
    ensures NUM_PARTITIONS * RANGE_UNIT == Pow2(64)
  {
    assert Pow2(8) == 256 by {
      assert Pow2(4) == 16 by { assert Pow2(2) == 4; }
    }
    assert Pow2(16) == 256 * 256 by { Pow2Add(8, 8); }
    assert Pow2(32) == Pow2(16) * Pow2(16) by { Pow2Add(16, 16); }
    assert Pow2(48) == Pow2(32) * Pow2(16) by { Pow2Add(32, 16); }
    assert Pow2(64) == Pow2(16) * Pow2(48) by { Pow2Add(16, 48); }
  }

  lemma {:induction false} Pow2Add(a: nat, b: nat)
    ensures Pow2(a + b) == Pow2(a) * Pow2(b)
  {
    if a > 0 {
      Pow2Add(a - 1, b);
    }
  }

  /**
   * A range, known here by its base as an unsigned 64-bit pattern; its other
   * state belongs to the id generator, which is not part of this model.
   */
  datatype Range = Range(base: nat)

  /** `i shl 48` on a 64-bit Long: the base of range i. */
  function Base(i: nat): nat
    requires i < NUM_PARTITIONS
  {
    i * RANGE_UNIT
  }

  /** The base of range i fits in 64 bits, its top 16 bits are i and its other 48 bits are zero. */
  lemma BaseBits(i: nat)
    requires i < NUM_PARTITIONS
    ensures Base(i) < NUM_PARTITIONS * RANGE_UNIT
    ensures Base(i) / RANGE_UNIT == i
    ensures Base(i) % RANGE_UNIT == 0
  {
  }

  /** Distinct ranges have distinct bases. */
  lemma BasesDistinct(i: nat, j: nat)
    requires i < NUM_PARTITIONS && j < NUM_PARTITIONS && i != j
    ensures Base(i) != Base(j)
  {
    BaseBits(i);
    BaseBits(j);
  }

  /** init's ranges: when the map is empty, ranges 0 until NUM_PARTITIONS with their bases; otherwise the map as it is. */
  function InitialScrolls(scrolls: map<int, Range>): (r: map<int, Range>)
    ensures scrolls != map[] ==> r == scrolls
    ensures scrolls == map[] ==> forall i :: i in r <==> 0 <= i < NUM_PARTITIONS
    ensures scrolls == map[] ==> forall i :: 0 <= i < NUM_PARTITIONS ==> r[i] == Range(Base(i))
  {
    if scrolls == map[] then map i | 0 <= i < NUM_PARTITIONS :: Range(Base(i)) else scrolls
  }

  /** After init the ranges own disjoint parts of the key space: no two keys share a base. */
  lemma InitialBasesDistinct(i: int, j: int)
    requires i in InitialScrolls(map[]) && j in InitialScrolls(map[]) && i != j
    ensures InitialScrolls(map[])[i].base != InitialScrolls(map[])[j].base
  {
    BasesDistinct(i, j);
  }

  class HazelcastIdGenerationService {
    /** The ranges by number. */
    var scrolls: map<int, Range>
    /** The shared id queue, head first. */
    var idsQueue: seq<Uuid>

    /** Connects to the shared ranges and queue, initializing the ranges when there are none yet. */
    constructor (scrolls: map<int, Range>, idsQueue: seq<Uuid>)
      ensures this.scrolls == InitialScrolls(scrolls) && this.idsQueue == idsQueue
    {
      this.scrolls := InitialScrolls(scrolls);
      this.idsQueue := idsQueue;
    }

    /** returnId: the id goes to the tail of the queue. */
    method ReturnId(id: Uuid)
      modifies this
      ensures idsQueue == old(idsQueue) + [id]
      ensures scrolls == old(scrolls)
    {
      idsQueue := idsQueue + [id];
    }

    /** getNextId: the head of the queue. */
    method GetNextId() returns (id: Uuid)
      requires idsQueue != []
      modifies this
      ensures id == old(idsQueue)[0] && idsQueue == old(idsQueue)[1..]
      ensures scrolls == old(scrolls)
    {
      id := idsQueue[0];
      idsQueue := idsQueue[1..];
    }

    /**
     * getNextIds: `count` ids taken from the head, as a set; a negative count
     * is refused by `take` before any id is taken.
     */
    method GetNextIds(count: int32) returns (r: Result<set<Uuid>>)
      requires count as int <= |idsQueue|
      modifies this
      ensures count < 0 ==> r == Failure(IllegalArgument) && idsQueue == old(idsQueue)
      ensures count >= 0 ==> r == Success(SetOf(old(idsQueue)[..count])) && idsQueue == old(idsQueue)[count..]
      ensures scrolls == old(scrolls)
    {
      if count < 0 {
        return Failure(IllegalArgument);
      }
      var ids: set<Uuid> := {};
      var i := 0;
      while i < count as int
        invariant 0 <= i <= count as int
        invariant idsQueue == old(idsQueue)[i..]
        invariant scrolls == old(scrolls)
        invariant ids == SetOf(old(idsQueue)[..i])
      {
        assert old(idsQueue)[..i + 1] == old(idsQueue)[..i] + [idsQueue[0]];
        var id := GetNextId();
        ids := ids + {id};
        i := i + 1;
      }
      r := Success(ids);
    }

    /**
     * Not an operation of the service: a property of ReturnId and GetNextId
     * together, written as a method because both change the service. The
     * queue is FIFO: after returnId, as many getNextId calls as there were
     * queued ids give those ids in their order, and the next call gives the
     * returned id.
     */
    method ReturnedIdComesLast(id: Uuid) returns (taken: seq<Uuid>, last: Uuid)
      modifies this
      ensures taken == old(idsQueue) && last == id && idsQueue == []
      ensures scrolls == old(scrolls)
    {
      ghost var queued := idsQueue;
      var n := |idsQueue|;
      ReturnId(id);
      taken := [];
      while |taken| < n
        invariant |taken| <= |queued|
        invariant taken == queued[..|taken|]
        invariant idsQueue == queued[|taken|..] + [id]
        invariant scrolls == old(scrolls)
      {
        assert queued[..|taken| + 1] == queued[..|taken|] + [idsQueue[0]];
        var next := GetNextId();
        taken := taken + [next];
      }
      last := GetNextId();
    }
  }

  /** The ids getNextIds returns are at most `count`, and exactly `count` when the taken ids are distinct. */
  lemma NextIdsSize(queue: seq<Uuid>, count: nat)
    requires count <= |queue|
    ensures |SetOf(queue[..count])| <= count
    ensures |SetOf(queue[..count])| == count <==> Distinct(queue[..count])
  {
    SetOfCardinality(queue[..count]);
  }
}
