/**
 * The cluster locks of the indexer's RealtimeLinkingService as the thread
 * that links one block sees them, and that block's trip through
 * runIterativeLinking as the code is written: the map stage locks the
 * required clusters and unlocks the ones it re-matches, and the forEach
 * unlocks the update's cluster once more before it inserts anything.
 */
module RealtimeLocks {
  import opened Wrappers
  import opened Edm
  import opened Seqs
  import opened Matching
  import opened RealtimeLinking

  /**
   * clusterLocks through one thread's eyes: the clusters that have a lock,
   * each with the number of times this thread holds it.
   */
  type Holds = map<Uuid, nat>

  /** How often the thread holds a cluster's lock; none when the cluster has no lock. */
  function HoldCount(h: Holds, id: Uuid): nat
  {
    if id in h then h[id] else 0
  }

  /** `clusterLocks.getOrPut(id) { ReentrantLock() }.lock()`. */
  function LockCluster(h: Holds, id: Uuid): (r: Holds)
    ensures r.Keys == h.Keys + {id}
    ensures HoldCount(r, id) == HoldCount(h, id) + 1
    ensures forall c :: c != id ==> HoldCount(r, c) == HoldCount(h, c)
  {
    h[id := HoldCount(h, id) + 1]
  }

  /**
   * `clusterLocks[id]!!.unlock()`: a cluster without a lock is a null
   * dereference, and a lock the thread does not hold throws
   * IllegalMonitorStateException.
   */
  function UnlockCluster(h: Holds, id: Uuid): (r: Result<Holds>)
    ensures id !in h ==> r == Failure(NullPointer)
    ensures id in h && h[id] == 0 ==> r == Failure(IllegalMonitorState)
    ensures r.Success? <==> HoldCount(h, id) > 0
    ensures r.Success? ==> r.value.Keys == h.Keys && HoldCount(r.value, id) == HoldCount(h, id) - 1
    ensures r.Success? ==> forall c :: c != id ==> HoldCount(r.value, c) == HoldCount(h, c)
  {
    if id !in h then Failure(NullPointer)
    else if h[id] == 0 then Failure(IllegalMonitorState)
    else Success(h[id := h[id] - 1])
  }

  /** Unlocking a lock just taken gives back the locks as they were. */
  lemma LockUnlockRestores(h: Holds, id: Uuid)
    requires id in h
    ensures UnlockCluster(LockCluster(h, id), id) == Success(h)
  {
    assert LockCluster(h, id)[id := h[id]] == h;
  }

  /** The locks the map stage takes, one per required cluster, in order. */
  function LockAll(h: Holds, ids: seq<Uuid>): Holds
    decreases ids
  {
    if ids == [] then h else LockAll(LockCluster(h, ids[0]), ids[1..])
  }

  /** The unlocks of the selection loop, one per re-matched cluster, until one throws. */
  function UnlockAll(h: Holds, ids: seq<Uuid>): Result<Holds>
    decreases ids
  {
    if ids == [] then Success(h)
    else
      var next :- UnlockCluster(h, ids[0]);
      UnlockAll(next, ids[1..])
  }

  /** Locking distinct clusters adds one hold to each of them and to nothing else. */
  lemma {:induction false} LockAllCounts(h: Holds, ids: seq<Uuid>)
    requires Distinct(ids)
    ensures forall c :: HoldCount(LockAll(h, ids), c) == HoldCount(h, c) + (if c in ids then 1 else 0)
    ensures forall c :: c in ids ==> c in LockAll(h, ids)
    decreases ids
  {
    if ids != [] {
      assert Distinct(ids[1..]) && ids[0] !in ids[1..];
      LockAllCounts(LockCluster(h, ids[0]), ids[1..]);
      forall c | c in ids ensures c in LockAll(h, ids) {
        if c != ids[0] {
          assert c in ids[1..];
        }
      }
    }
  }

  /** Unlocking distinct held clusters succeeds and takes one hold from each of them and from nothing else. */
  lemma {:induction false} UnlockAllCounts(h: Holds, ids: seq<Uuid>)
    requires Distinct(ids)
    requires forall c :: c in ids ==> HoldCount(h, c) >= 1
    ensures UnlockAll(h, ids).Success?
    ensures forall c :: HoldCount(UnlockAll(h, ids).value, c) == HoldCount(h, c) - (if c in ids then 1 else 0)
    ensures UnlockAll(h, ids).value.Keys == h.Keys
    decreases ids
  {
    if ids != [] {
      assert Distinct(ids[1..]) && ids[0] !in ids[1..];
      var next := UnlockCluster(h, ids[0]).value;
      forall c | c in ids[1..] ensures HoldCount(next, c) >= 1 {
        assert c != ids[0];
      }
      UnlockAllCounts(next, ids[1..]);
    }
  }

  /**
   * One block through runIterativeLinking as written, on the thread that
   * links it: the map stage locks the `required` clusters (line 114) and
   * unlocks each re-matched cluster in the selection loop (line 140); the
   * forEach then unlocks the update's cluster (line 158) and only after that
   * inserts the match scores and updates the linking table.
   */
  function BlockAsWritten(h: Holds, required: seq<Uuid>, matched: seq<Uuid>, update: ClusterUpdate): Outcome
  {
    var afterMap := UnlockAll(LockAll(h, required), matched);
    if afterMap.Failure? then Outcome([], Some(afterMap.error))
    else
      match UnlockCluster(afterMap.value, update.clusterId)
      case Failure(e) => Outcome([], Some(e))
      case Success(_) => Outcome([Inserted(update)], None)
  }

  /**
   * As written, a new cluster is never inserted: its id was just reserved,
   * so no lock was ever put for it and `clusterLocks[id]!!` throws.
   */
  lemma NewClusterAsWrittenThrows(h: Holds, required: seq<Uuid>, update: ClusterUpdate)
    requires update.clusterId !in h && update.clusterId !in required
    ensures BlockAsWritten(h, required, [], update) == Outcome([], Some(NullPointer))
  {
    LockAllNoNewKeys(h, required, update.clusterId);
  }

  /** Locking other clusters puts no lock for this one. */
  lemma {:induction false} LockAllNoNewKeys(h: Holds, ids: seq<Uuid>, id: Uuid)
    requires id !in h && id !in ids
    ensures id !in LockAll(h, ids)
    decreases ids
  {
    if ids != [] {
      assert id !in ids[1..];
      LockAllNoNewKeys(LockCluster(h, ids[0]), ids[1..], id);
    }
  }

  /**
   * As written, an update to an existing cluster is never inserted either:
   * the selection loop has already released the one hold this thread took,
   * so the second unlock throws IllegalMonitorStateException.
   */
  lemma ExistingClusterAsWrittenThrows(h: Holds, required: seq<Uuid>, matched: seq<Uuid>, update: ClusterUpdate)
    requires Distinct(required) && Distinct(matched)
    requires forall c :: c in matched ==> c in required
    requires forall c :: c in required ==> HoldCount(h, c) == 0
    requires update.clusterId in matched
    ensures BlockAsWritten(h, required, matched, update) == Outcome([], Some(IllegalMonitorState))
  {
    var locked := LockAll(h, required);
    LockAllCounts(h, required);
    UnlockAllCounts(locked, matched);
    var afterMap := UnlockAll(locked, matched).value;
    assert HoldCount(afterMap, update.clusterId) == 0;
    assert update.clusterId in afterMap;
  }

  /** The ids of the found clusters, in their order. */
  function ClusterIds(clusters: seq<(Uuid, Scores)>): (r: seq<Uuid>)
    ensures |r| == |clusters| && forall i :: 0 <= i < |r| ==> r[i] == clusters[i].0
  {
    seq(|clusters|, i requires 0 <= i < |clusters| => clusters[i].0)
  }

  /**
   * Whatever update a block's map stage produces, the code as written
   * inserts nothing for it: with no clusters the reserved id has no lock,
   * and otherwise the chosen cluster's lock is no longer held. `required`
   * are the ids the lock loop walks, each once, and the thread held none of
   * them before.
   */
  lemma LinkedBlockAsWrittenThrows<V>(s: Services<V>, b: Block<V>, h: Holds, required: seq<Uuid>)
    requires b.entityDataKey in b.entities && LinkOutcome(s, b).Success?
    requires s.initialize(b).Success?
    requires var clusters := s.clustersFor(CollectKeys(s.initialize(b).value));
      && Distinct(required) && Distinct(ClusterIds(clusters))
      && (forall c :: c in ClusterIds(clusters) ==> c in required)
      && (forall c :: c in required ==> HoldCount(h, c) == 0)
      && (clusters == [] ==> forall id :: id in s.reserve(LINKING_ENTITY_SET_ID, 1) ==> id !in h && id !in required)
    ensures var clusters := s.clustersFor(CollectKeys(s.initialize(b).value));
      var r := BlockAsWritten(h, required, ClusterIds(clusters), LinkOutcome(s, b).value);
      r.events == [] && r.failure.Some?
  {
    var clusters := s.clustersFor(CollectKeys(s.initialize(b).value));
    var u := LinkOutcome(s, b).value;
    if clusters == [] {
      assert LinkOutcome(s, b) == NewCluster(s, b.entityDataKey, b.entities[b.entityDataKey]);
      assert u.clusterId in s.reserve(LINKING_ENTITY_SET_ID, 1);
      NewClusterAsWrittenThrows(h, required, u);
    } else {
      assert MatchClusters(s, b.entityDataKey, clusters).Success?;
      LinkOutcomeExisting(s, b, clusters);
      var i :| 0 <= i < |clusters| && u.clusterId == clusters[i].0;
      assert ClusterIds(clusters)[i] == u.clusterId;
      ExistingClusterAsWrittenThrows(h, required, ClusterIds(clusters), u);
    }
  }

  /**
   * A concrete run: a thread holding no lock links a block whose update
   * starts cluster `fresh`, or joins the single existing cluster `c`; either
   * way the unlock before the insert throws and nothing is inserted.
   */
  lemma AsWrittenInsertsNothing(freshId: Uuid, c: Uuid, member: EntityDataKey, scores: Scores)
    ensures BlockAsWritten(map[], [], [], ClusterUpdate(freshId, member, scores)) == Outcome([], Some(NullPointer))
    ensures BlockAsWritten(map[], [c], [c], ClusterUpdate(c, member, scores)) == Outcome([], Some(IllegalMonitorState))
  {
    NewClusterAsWrittenThrows(map[], [], ClusterUpdate(freshId, member, scores));
    ExistingClusterAsWrittenThrows(map[], [c], [c], ClusterUpdate(c, member, scores));
  }

  // ------------------------------------------------------------------ the corrected insert stage

  /** The re-matched clusters other than `id`, in their order. */
  function Without(ids: seq<Uuid>, id: Uuid): seq<Uuid> {
    Filter(ids, c => c != id)
  }

  /** What one block leaves behind: its events and the thread's holds afterwards. */
  datatype Linked = Linked(events: seq<Event>, holds: Holds)

  /**
   * One block as evidently intended: the map stage locks the required
   * clusters and releases every re-matched cluster except the chosen one;
   * the forEach inserts the update while the chosen cluster is still
   * locked, and only then releases it, once. A new cluster was never locked
   * and needs no release.
   */
  function BlockCorrected(h: Holds, required: seq<Uuid>, matched: seq<Uuid>, update: ClusterUpdate): Result<Linked>
  {
    var afterMap :- UnlockAll(LockAll(h, required), Without(matched, update.clusterId));
    var inserted := [Inserted(update)];
    if update.clusterId in matched then
      var afterInsert :- UnlockCluster(afterMap, update.clusterId);
      Success(Linked(inserted, afterInsert))
    else Success(Linked(inserted, afterMap))
  }

  /**
   * The corrected block never throws on its locks, inserts exactly its
   * update, and gives back every hold it took on a re-matched cluster.
   */
  lemma BlockCorrectedInserts(h: Holds, required: seq<Uuid>, matched: seq<Uuid>, update: ClusterUpdate)
    requires Distinct(required) && Distinct(matched)
    requires forall c :: c in matched ==> c in required
    ensures BlockCorrected(h, required, matched, update).Success?
    ensures BlockCorrected(h, required, matched, update).value.events == [Inserted(update)]
    ensures forall c :: HoldCount(BlockCorrected(h, required, matched, update).value.holds, c)
                        == HoldCount(h, c) + (if c in required && c !in matched then 1 else 0)
  {
    var locked := LockAll(h, required);
    LockAllCounts(h, required);
    var others := Without(matched, update.clusterId);
    FilterMembers(matched, c => c != update.clusterId);
    FilterDistinct(matched, c => c != update.clusterId);
    UnlockAllCounts(locked, others);
    var afterMap := UnlockAll(locked, others).value;
    if update.clusterId in matched {
      assert HoldCount(afterMap, update.clusterId) == HoldCount(h, update.clusterId) + 1;
    }
  }

  /**
   * When the found clusters are all the required ones, as the lock loop
   * intends, the corrected block leaves the thread's holds exactly as it
   * found them, while the code as written inserts nothing.
   */
  lemma CorrectedRestoresHolds(h: Holds, required: seq<Uuid>, update: ClusterUpdate)
    requires Distinct(required)
    requires forall c :: c in required ==> HoldCount(h, c) == 0
    requires update.clusterId in required
    ensures BlockCorrected(h, required, required, update).Success?
    ensures BlockCorrected(h, required, required, update).value.events == [Inserted(update)]
    ensures forall c :: HoldCount(BlockCorrected(h, required, required, update).value.holds, c) == HoldCount(h, c)
    ensures BlockAsWritten(h, required, required, update).events == []
  {
    BlockCorrectedInserts(h, required, required, update);
    ExistingClusterAsWrittenThrows(h, required, required, update);
  }
}
