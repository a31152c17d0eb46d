/**
 * The linker's BackgroundLinkingService: the candidate queue that enqueue
 * fills, the lease map that keeps two workers off the same candidate, the
 * worker's permits, and the decision of link between merging a candidate
 * into an existing cluster and starting a new one.
 */
module BackgroundLinking {
  import opened Wrappers
  import opened Ints
  import opened Edm
  import opened Seqs
  import opened Matching
  import LinkerMatching

  /** How long a candidate's lease lasts, in milliseconds. */
  const LINKING_BATCH_TIMEOUT_MILLIS: int := 120000

  /** A cluster is merged into only when its score is above this. */
  const MINIMUM_SCORE: real := 0.75

  // ------------------------------------------------------------------ enqueue

  /** The entity-set query of enqueue: sets of a linkable entity type that are not flagged LINKING. */
  function LinkableIds(entitySets: map<Uuid, EntitySet>, linkableTypes: set<Uuid>): set<Uuid>
  {
    set id | id in entitySets && entitySets[id].entityTypeId in linkableTypes && LINKING !in entitySets[id].flags
  }

  /** The filter of enqueue: the set must exist and must be one the query returned. */
  function Keep(entitySets: map<Uuid, EntitySet>, linkable: seq<Uuid>): Uuid -> bool
  {
    id => id in entitySets && id in linkable
  }

  /**
   * The sets enqueue takes candidates from: the whitelist, then the query's
   * sets, as a linked hash set, filtered. `linkable` is the query's result in
   * its iteration order.
   */
  function ScanIds(priority: seq<Uuid>, linkable: seq<Uuid>, entitySets: map<Uuid, EntitySet>): seq<Uuid>
  {
    Filter(OrderedUnion(priority, linkable), Keep(entitySets, linkable))
  }

  /**
   * Exactly the linkable sets are scanned, whitelisted or not; a whitelisted
   * set that the query did not return is skipped. Whitelisted sets come
   * first, in whitelist order, then the others in query order.
   */
  lemma ScanIdsSpec(priority: seq<Uuid>, linkable: seq<Uuid>, entitySets: map<Uuid, EntitySet>, linkableTypes: set<Uuid>)
    requires IsOrderOf(linkable, LinkableIds(entitySets, linkableTypes))
    ensures forall id :: id in ScanIds(priority, linkable, entitySets) <==>
              id in entitySets && entitySets[id].entityTypeId in linkableTypes && LINKING !in entitySets[id].flags
    ensures ScanIds(priority, linkable, entitySets) ==
              Filter(priority, Keep(entitySets, linkable)) + Filter(linkable, NotIn(priority))
  {
    var keep := Keep(entitySets, linkable);
    var rest := Filter(linkable, NotIn(priority));
    FilterSpec(linkable, NotIn(priority));
    FilterSpec(OrderedUnion(priority, linkable), keep);
    FilterAppend(priority, rest, keep);
    FilterAllPass(rest, keep);
    assert forall x :: x in rest ==> keep(x);
    assert forall id :: id in LinkableIds(entitySets, linkableTypes) <==>
             id in entitySets && entitySets[id].entityTypeId in linkableTypes && LINKING !in entitySets[id].flags;
  }

  /** `lqs.getEntitiesNeedingLinking(entitySetId, limit)`; None where it throws. */
  type Fetch = (Uuid, int32) -> Option<seq<EntityDataKey>>

  /**
   * The candidates enqueue adds: each scanned set's entities in turn; the
   * first set whose fetch throws ends the scan, because the whole loop sits
   * in one try block.
   */
  function Queued(ids: seq<Uuid>, fetch: Fetch, limit: int32): seq<EntityDataKey>
  {
    if ids == [] then []
    else
      match fetch(ids[0], limit)
      case None => []
      case Some(batch) => batch + Queued(ids[1..], fetch, limit)
  }

  /** A fetch that throws drops its own set and every later one, and keeps what the earlier sets queued. */
  lemma {:induction false} QueuedStopsAtFailure(ids: seq<Uuid>, fetch: Fetch, limit: int32, k: nat)
    requires k < |ids| && fetch(ids[k], limit).None?
    ensures Queued(ids, fetch, limit) == Queued(ids[..k], fetch, limit)
  {
    if k > 0 {
      assert ids[..k][0] == ids[0];
      assert ids[..k][1..] == ids[1..][..k - 1];
      match fetch(ids[0], limit)
      case None =>
      case Some(batch) =>
        QueuedStopsAtFailure(ids[1..], fetch, limit, k - 1);
    }
  }

  /** The scan from position i: that set's batch, then the scan from i + 1; nothing once a fetch throws. */
  lemma QueuedAt(ids: seq<Uuid>, fetch: Fetch, limit: int32, i: nat)
    requires i < |ids|
    ensures fetch(ids[i], limit).None? ==> Queued(ids[i..], fetch, limit) == []
    ensures fetch(ids[i], limit).Some? ==>
              Queued(ids[i..], fetch, limit) == fetch(ids[i], limit).value + Queued(ids[i + 1..], fetch, limit)
  {
    assert ids[i..][0] == ids[i];
    assert ids[i..][1..] == ids[i + 1..];
  }

  /** The candidates enqueue adds to an empty queue: each set's batch in turn, until a fetch throws. */
  method FetchCandidates(ids: seq<Uuid>, fetch: Fetch, limit: int32) returns (found: seq<EntityDataKey>)
    ensures found == Queued(ids, fetch, limit)
  {
    found := [];
    var i := 0;
    while i < |ids|
      invariant 0 <= i <= |ids|
      invariant found + Queued(ids[i..], fetch, limit) == Queued(ids, fetch, limit)
    {
      QueuedAt(ids, fetch, limit, i);
      var batch := fetch(ids[i], limit);
      if batch.None? {
        assert found + [] == found;
        return;
      }
      found := found + batch.value;
      i := i + 1;
    }
    assert found + [] == found;
  }

  /** When no fetch throws, the queued candidates are every set's batch, one after another. */
  lemma {:induction false} QueuedAllFetched(ids: seq<Uuid>, fetch: Fetch, limit: int32)
    requires forall i :: 0 <= i < |ids| ==> fetch(ids[i], limit).Some?
    ensures Queued(ids, fetch, limit) == Flatten(seq(|ids|, i requires 0 <= i < |ids| => fetch(ids[i], limit).value))
  {
    var rows := seq(|ids|, i requires 0 <= i < |ids| => fetch(ids[i], limit).value);
    if ids != [] {
      var tail := ids[1..];
      QueuedAllFetched(tail, fetch, limit);
      assert rows[1..] == seq(|tail|, i requires 0 <= i < |tail| => fetch(tail[i], limit).value);
    }
  }

  /** The number of candidates requested per set: `3 * loadSize` in Int arithmetic, exact for loadSize up to INT32_MAX / 3. */
  function RequestSize(loadSize: int32): (r: int32)
    ensures 0 <= loadSize as int <= INT32_MAX / 3 ==> r as int == 3 * loadSize as int
  {
    Wrap32(3 * loadSize as int)
  }

  // --------------------------------------------------------------------- lease

  /** The lease map: candidate to the instant (epoch milliseconds) its lease ends. */
  type Leases = map<EntityDataKey, int>

  /**
   * tryLockCandidate: `putIfAbsent` with a lease to now + the timeout; true
   * exactly when there was no entry.
   */
  function TryLock(locks: Leases, c: EntityDataKey, now: int): (bool, Leases)
  {
    if c in locks then (false, locks) else (true, locks[c := now + LINKING_BATCH_TIMEOUT_MILLIS])
  }

  /** unlock: `delete` of the candidate's entry. */
  function Unlock(locks: Leases, c: EntityDataKey): Leases
  {
    locks - {c}
  }

  /** The map's time-to-live: entries whose lease has ended are gone. */
  function Expire(locks: Leases, now: int): Leases
  {
    map c | c in locks && locks[c] > now :: locks[c]
  }

  /**
   * Locking succeeds exactly on an unleased candidate and then records the
   * lease's end; a failed attempt leaves the map as it was.
   */
  lemma TryLockSpec(locks: Leases, c: EntityDataKey, now: int)
    ensures var (ok, after) := TryLock(locks, c, now);
            (ok <==> c !in locks) &&
            (ok ==> after.Keys == locks.Keys + {c} && after[c] == now + LINKING_BATCH_TIMEOUT_MILLIS &&
                    forall d :: d in locks ==> after[d] == locks[d]) &&
            (!ok ==> after == locks)
  {
  }

  /** While a lease is held, a second attempt on the same candidate fails. */
  lemma LockIsExclusive(locks: Leases, c: EntityDataKey, now: int, later: int)
    ensures var (ok, after) := TryLock(locks, c, now);
            ok ==> !TryLock(after, c, later).0
  {
  }

  /** Unlocking removes the candidate's entry and no other. */
  lemma UnlockSpec(locks: Leases, c: EntityDataKey)
    ensures var after := Unlock(locks, c);
            c !in after && after.Keys == locks.Keys - {c} && forall d :: d in after ==> after[d] == locks[d]
  {
  }

  /** Locking an unleased candidate and unlocking it again restores the lease map. */
  lemma LockUnlockRestores(locks: Leases, c: EntityDataKey, now: int)
    requires c !in locks
    ensures Unlock(TryLock(locks, c, now).1, c) == locks
  {
  }

  /** A lease taken at `now` has expired once the timeout has passed, and the candidate can be locked again. */
  lemma LeaseExpires(locks: Leases, c: EntityDataKey, now: int, later: int)
    requires c !in locks
    requires later >= now + LINKING_BATCH_TIMEOUT_MILLIS
    ensures c !in Expire(TryLock(locks, c, now).1, later)
    ensures TryLock(Expire(TryLock(locks, c, now).1, later), c, later).0
  {
  }

  // -------------------------------------------------------------------- worker

  /** What the worker loop and its tasks share: the queue, the leases and the semaphore's permits. */
  datatype WorkerState = WorkerState(candidates: seq<EntityDataKey>, locks: Leases, permits: int)

  /** How one turn of the worker loop ends. */
  datatype StepOutcome =
    | NoWorker                            // background linking is disabled, so no worker runs
    | QueueEmpty                          // `take` waits for a candidate
    | Stalled(candidate: EntityDataKey)   // `acquire` waits for a permit, holding the taken candidate
    | AlreadyLocked(candidate: EntityDataKey)
    | Linked(candidate: EntityDataKey)
    | LinkFailed(candidate: EntityDataKey)

  /**
   * One turn of the worker loop as written: take a candidate, acquire a
   * permit, then run the Runnable; the Runnable returns on a failed lock before its
   * try block, so neither unlock nor release runs on that path. The Runnable is
   * taken to run to completion before the next turn.
   */
  function StepAsWritten(s: WorkerState, enabled: bool, now: int, linkOk: bool): (r: (WorkerState, StepOutcome))
  {
    if !enabled then (s, NoWorker)
    else if s.candidates == [] then (s, QueueEmpty)
    else
      var c := s.candidates[0];
      var taken := s.(candidates := s.candidates[1..]);
      if taken.permits <= 0 then (taken, Stalled(c))
      else
        var acquired := taken.(permits := taken.permits - 1);
        var (ok, locked) := TryLock(acquired.locks, c, now);
        if !ok then (acquired, AlreadyLocked(c))
        else (acquired.(locks := Unlock(locked, c), permits := acquired.permits + 1),
              if linkOk then Linked(c) else LinkFailed(c))
  }

  /** One turn of the worker loop with the permit released on the failed-lock path as well. */
  function Step(s: WorkerState, enabled: bool, now: int, linkOk: bool): (r: (WorkerState, StepOutcome))
  {
    if !enabled then (s, NoWorker)
    else if s.candidates == [] then (s, QueueEmpty)
    else
      var c := s.candidates[0];
      var taken := s.(candidates := s.candidates[1..]);
      if taken.permits <= 0 then (taken, Stalled(c))
      else
        var acquired := taken.(permits := taken.permits - 1);
        var (ok, locked) := TryLock(acquired.locks, c, now);
        if !ok then (acquired.(permits := acquired.permits + 1), AlreadyLocked(c))
        else (acquired.(locks := Unlock(locked, c), permits := acquired.permits + 1),
              if linkOk then Linked(c) else LinkFailed(c))
  }

  /** As written, a turn on a candidate that is already leased loses a permit for good. */
  lemma StepAsWrittenLeaks(s: WorkerState, now: int, linkOk: bool)
    requires s.candidates != [] && s.permits > 0 && s.candidates[0] in s.locks
    ensures StepAsWritten(s, true, now, linkOk).1 == AlreadyLocked(s.candidates[0])
    ensures StepAsWritten(s, true, now, linkOk).0.permits == s.permits - 1
  {
  }

  /**
   * With one permit and a leased candidate queued twice, the worker as
   * written stalls on the second turn, whereas with the release it goes on.
   */
  lemma AsWrittenStalls()
    ensures var c := EntityDataKey(Uuid(0, 0), Uuid(0, 0));
            var s := WorkerState([c, c], map[c := 0], 1);
            StepAsWritten(StepAsWritten(s, true, 0, true).0, true, 0, true).1 == Stalled(c) &&
            Step(Step(s, true, 0, true).0, true, 0, true).1 == AlreadyLocked(c)
  {
  }

  /**
   * A turn with the release on both paths gives back every permit it takes,
   * leaves the lease map as it found it, and consumes the queue's head.
   */
  lemma StepKeepsPermitsAndLeases(s: WorkerState, enabled: bool, now: int, linkOk: bool)
    ensures Step(s, enabled, now, linkOk).0.permits == s.permits
    ensures Step(s, enabled, now, linkOk).0.locks == s.locks
    ensures enabled && s.candidates != [] ==> Step(s, enabled, now, linkOk).0.candidates == s.candidates[1..]
  {
    if enabled && s.candidates != [] && s.permits > 0 && s.candidates[0] !in s.locks {
      LockUnlockRestores(s.locks, s.candidates[0], now);
    }
  }

  /** Turns of the worker, the i-th at instant now[i] with link outcome linkOk[i]. */
  function Run(s: WorkerState, enabled: bool, now: seq<int>, linkOk: seq<bool>): (r: WorkerState)
    requires |now| == |linkOk|
    decreases |now|
  {
    if now == [] then s else Run(Step(s, enabled, now[0], linkOk[0]).0, enabled, now[1..], linkOk[1..])
  }

  /** With the release on both paths the permits never run out: any number of turns keeps them. */
  lemma {:induction false} RunKeepsPermits(s: WorkerState, enabled: bool, now: seq<int>, linkOk: seq<bool>)
    requires |now| == |linkOk|
    ensures Run(s, enabled, now, linkOk).permits == s.permits
    decreases |now|
  {
    if now != [] {
      StepKeepsPermitsAndLeases(s, enabled, now[0], linkOk[0]);
      RunKeepsPermits(Step(s, enabled, now[0], linkOk[0]).0, enabled, now[1..], linkOk[1..]);
    }
  }

  // ------------------------------------------------------------------ decision

  /** A cluster as the clusterer scored it against the candidate. */
  datatype ScoredCluster = ScoredCluster(clusterId: Uuid, cluster: Scores, score: real)

  /**
   * `filter { score > MINIMUM_SCORE }.maxBy { score }` in one pass from
   * position i: `best` is the choice so far, replaced only by a strictly
   * higher qualifying score.
   */
  function BestFrom(scored: seq<ScoredCluster>, i: nat, best: Option<nat>): (r: Option<nat>)
    requires i <= |scored|
    requires best.Some? ==> best.value < i
    ensures r.Some? ==> r.value < |scored|
    decreases |scored| - i
  {
    if i == |scored| then best
    else
      var next := if scored[i].score > MINIMUM_SCORE && (best.None? || scored[i].score > scored[best.value].score)
                  then Some(i) else best;
      BestFrom(scored, i + 1, next)
  }

  /** The position of the cluster maxBy picks among those above MINIMUM_SCORE; None when there is none. */
  function BestCluster(scored: seq<ScoredCluster>): (r: Option<nat>)
    ensures r.Some? ==> r.value < |scored|
  {
    BestFrom(scored, 0, None)
  }

  /**
   * Position b qualifies, no qualifying score among the first n is higher,
   * and every qualifying score before b is strictly lower.
   */
  ghost predicate FirstBestUpTo(scored: seq<ScoredCluster>, b: nat, n: nat)
    requires b < n <= |scored|
  {
    && scored[b].score > MINIMUM_SCORE
    && (forall j :: 0 <= j < n && scored[j].score > MINIMUM_SCORE ==> scored[j].score <= scored[b].score)
    && (forall j :: 0 <= j < b && scored[j].score > MINIMUM_SCORE ==> scored[j].score < scored[b].score)
  }

  lemma {:induction false} BestFromSpec(scored: seq<ScoredCluster>, i: nat, best: Option<nat>)
    requires i <= |scored|
    requires best.None? ==> forall j :: 0 <= j < i ==> scored[j].score <= MINIMUM_SCORE
    requires best.Some? ==> best.value < i && FirstBestUpTo(scored, best.value, i)
    ensures var r := BestFrom(scored, i, best);
            (r.None? ==> forall j :: 0 <= j < |scored| ==> scored[j].score <= MINIMUM_SCORE) &&
            (r.Some? ==> FirstBestUpTo(scored, r.value, |scored|))
    decreases |scored| - i
  {
    if i < |scored| {
      var next := if scored[i].score > MINIMUM_SCORE && (best.None? || scored[i].score > scored[best.value].score)
                  then Some(i) else best;
      BestFromSpec(scored, i + 1, next);
    }
  }

  /**
   * The decision merges only into a cluster scored above MINIMUM_SCORE whose
   * score no other qualifying cluster beats, the first such one; it finds
   * none exactly when no cluster scores above MINIMUM_SCORE.
   */
  lemma BestClusterSpec(scored: seq<ScoredCluster>)
    ensures BestCluster(scored).None? <==> forall j :: 0 <= j < |scored| ==> scored[j].score <= MINIMUM_SCORE
    ensures BestCluster(scored).Some? ==> FirstBestUpTo(scored, BestCluster(scored).value, |scored|)
  {
    BestFromSpec(scored, 0, None);
  }

  /** The outcome of the decision: the linking id, the scores to insert, and whether the cluster is new. */
  datatype Decision = Decision(linkingId: Uuid, scores: Scores, isNew: bool)

  /**
   * The decision lambda of link: the best cluster if there is one; otherwise
   * the first of the reserved linking ids (`first()` throws on none) with
   * the match of the candidate's singleton block.
   */
  function Decide(scored: seq<ScoredCluster>, reserved: seq<Uuid>, singleton: Scores): (r: Result<Decision>)
    ensures BestCluster(scored).Some? ==>
              r == Success(Decision(scored[BestCluster(scored).value].clusterId, scored[BestCluster(scored).value].cluster, false))
    ensures BestCluster(scored).None? ==>
              (r.Failure? <==> reserved == []) && (r.Success? ==> r.value == Decision(reserved[0], singleton, true))
  {
    match BestCluster(scored)
    case Some(b) => Success(Decision(scored[b].clusterId, scored[b].cluster, false))
    case None => if reserved == [] then Failure(NoSuchElement) else Success(Decision(reserved[0], singleton, true))
  }

  // ------------------------------------------------------------ insertMatches

  /**
   * The argument insertMatches hands to updateLinkingInformation: every key
   * of the scores and the new member, grouped as entity set id to entity
   * key ids.
   */
  function InsertMatchesGroups(scores: Scores, newMember: EntityDataKey): (r: map<Uuid, set<Uuid>>)
    ensures forall esid, ekid :: (esid in r && ekid in r[esid]) <==>
              EntityDataKey(esid, ekid) in CollectKeys(scores) + {newMember}
    ensures forall esid :: esid in r ==> r[esid] != {}
  {
    var keys := CollectKeys(scores) + {newMember};
    var esids := set k | k in keys :: k.entitySetId;
    var r := map esid | esid in esids :: set k | k in keys && k.entitySetId == esid :: k.entityKeyId;
    assert forall esid :: esid in r ==> r[esid] != {} by {
      forall esid | esid in r ensures r[esid] != {} {
        var k :| k in keys && k.entitySetId == esid;
        assert k.entityKeyId in r[esid];
      }
    }
    assert forall esid, ekid :: EntityDataKey(esid, ekid) in keys ==> esid in r && ekid in r[esid] by {
      forall esid, ekid | EntityDataKey(esid, ekid) in keys ensures esid in r && ekid in r[esid] {
        var k := EntityDataKey(esid, ekid);
        assert k.entitySetId == esid;
      }
    }
    r
  }

  /** The new member is always recorded under its own entity set. */
  lemma InsertMatchesIncludesNewMember(scores: Scores, newMember: EntityDataKey)
    ensures var r := InsertMatchesGroups(scores, newMember);
            newMember.entitySetId in r && newMember.entityKeyId in r[newMember.entitySetId]
  {
    var r := InsertMatchesGroups(scores, newMember);
    assert EntityDataKey(newMember.entitySetId, newMember.entityKeyId) == newMember;
  }

  // ---------------------------------------------------------------------- link

  /** The match of the candidate's singleton block, the scores of a new cluster: about the candidate alone. */
  function NewClusterScores<V(==)>(candidate: EntityDataKey, elem: Entity<V>, scorer: Scorer<V>, net: Net): (r: Scores)
    ensures CollectKeys(r) <= {candidate}
  {
    var single := Block(candidate, map[candidate := elem]);
    assert single.entities.Keys == {candidate};
    LinkerMatching.MatchScores(single, [candidate], scorer, net)
  }

  /** Scores about the new member alone are inserted as a group holding just the new member. */
  lemma InsertMatchesAlone(scores: Scores, newMember: EntityDataKey)
    requires CollectKeys(scores) <= {newMember}
    ensures InsertMatchesGroups(scores, newMember) == map[newMember.entitySetId := {newMember.entityKeyId}]
  {
    var g := InsertMatchesGroups(scores, newMember);
    assert CollectKeys(scores) + {newMember} == {newMember};
    assert EntityDataKey(newMember.entitySetId, newMember.entityKeyId) == newMember;
    assert g.Keys == {newMember.entitySetId};
    forall ekid ensures ekid in g[newMember.entitySetId] <==> ekid == newMember.entityKeyId {
      assert EntityDataKey(newMember.entitySetId, ekid) in {newMember} <==> ekid == newMember.entityKeyId;
    }
    assert g[newMember.entitySetId] == {newMember.entityKeyId};
  }

  /** The linking update link hands to the linking query service. */
  datatype LinkingUpdate = LinkingUpdate(linkingId: Uuid, newMember: EntityDataKey, groups: map<Uuid, set<Uuid>>, isNew: bool)

  /**
   * link for a candidate, from its block; `clustersFor` stands for
   * `lockClustersDoWorkAndCommit` with the clusterer (the clusters of the
   * given keys, scored against the candidate) and `reserved` for
   * `reserveLinkingIds(1)`.
   */
  function Link<V(==)>(candidate: EntityDataKey, block: Block<V>, order: seq<EntityDataKey>,
                       scorer: Scorer<V>, net: Net,
                       clustersFor: set<EntityDataKey> -> seq<ScoredCluster>, reserved: seq<Uuid>): (r: Result<LinkingUpdate>)
    requires IsOrderOf(order, block.entities.Keys)
  {
    if candidate !in block.entities then Failure(NoSuchElement)
    else
      var elem := block.entities[candidate];
      var init := LinkerMatching.Initialized(block, order, scorer, net);
      if init.Failure? then Failure(init.error)
      else
        var dataKeys := CollectKeys(init.value);
        var decision := Decide(clustersFor(dataKeys), reserved, NewClusterScores(candidate, elem, scorer, net));
        if decision.Failure? then Failure(decision.error)
        else
          Success(LinkingUpdate(decision.value.linkingId, candidate, InsertMatchesGroups(decision.value.scores, candidate),
                                decision.value.isNew))
  }

  /**
   * With no cluster above MINIMUM_SCORE, link starts a new cluster: the first
   * reserved linking id, with the candidate as its only member.
   */
  lemma LinkNewCluster<V>(candidate: EntityDataKey, block: Block<V>, order: seq<EntityDataKey>,
                          scorer: Scorer<V>, net: Net,
                          clustersFor: set<EntityDataKey> -> seq<ScoredCluster>, reserved: seq<Uuid>)
    requires IsOrderOf(order, block.entities.Keys)
    requires Link(candidate, block, order, scorer, net, clustersFor, reserved).Success?
    requires BestCluster(clustersFor(CollectKeys(LinkerMatching.Initialized(block, order, scorer, net).value))).None?
    ensures var u := Link(candidate, block, order, scorer, net, clustersFor, reserved).value;
            u.isNew && u.linkingId == reserved[0] && u.newMember == candidate &&
            u.groups == map[candidate.entitySetId := {candidate.entityKeyId}]
  {
    InsertMatchesAlone(NewClusterScores(candidate, block.entities[candidate], scorer, net), candidate);
  }

  /** With a cluster above MINIMUM_SCORE, link merges into the best one. */
  lemma LinkMerges<V>(candidate: EntityDataKey, block: Block<V>, order: seq<EntityDataKey>,
                      scorer: Scorer<V>, net: Net,
                      clustersFor: set<EntityDataKey> -> seq<ScoredCluster>, reserved: seq<Uuid>)
    requires IsOrderOf(order, block.entities.Keys)
    requires candidate in block.entities && block.entityDataKey in block.entities
    requires BestCluster(clustersFor(CollectKeys(LinkerMatching.Initialized(block, order, scorer, net).value))).Some?
    ensures var scored := clustersFor(CollectKeys(LinkerMatching.Initialized(block, order, scorer, net).value));
            var best := scored[BestCluster(scored).value];
            var r := Link(candidate, block, order, scorer, net, clustersFor, reserved);
            r.Success? && !r.value.isNew && r.value.linkingId == best.clusterId &&
            r.value.groups == InsertMatchesGroups(best.cluster, candidate)
  {
  }

  // ------------------------------------------------------- completeLinkCluster

  /** Every score of a score matrix. */
  function AllScores(m: Scores): set<real>
  {
    set l, k | l in m && k in m[l] :: m[l][k]
  }

  /** A set of reals that is not empty has an element. */
  lemma NonEmptyHasElement(s: set<real>)
    requires s != {}
    ensures exists x :: x in s
  {
    if forall x :: x !in s {
      assert false;
    }
  }

  /** The least element of a non-empty set of reals. */
  ghost function SetMin(s: set<real>): (r: real)
    requires s != {}
    ensures r in s && forall y :: y in s ==> r <= y
    decreases |s|
  {
    NonEmptyHasElement(s);
    var x :| x in s;
    if s == {x} then x
    else
      var m := SetMin(s - {x});
      assert forall y :: y in s ==> y == x || y in s - {x};
      if x < m then x else m
  }

  /** completeLinkCluster: the least score of the cluster, or 0.0 for a cluster without scores. */
  ghost function CompleteLinkCluster(m: Scores): (r: real)
    ensures AllScores(m) == {} ==> r == 0.0
    ensures AllScores(m) != {} ==> r in AllScores(m) && forall l, k :: l in m && k in m[l] ==> r <= m[l][k]
  {
    assert forall l, k :: l in m && k in m[l] ==> m[l][k] in AllScores(m);
    if AllScores(m) == {} then 0.0 else SetMin(AllScores(m))
  }

  // ------------------------------------------------------------------- service

  class BackgroundLinkingService {
    /** The queue of linking candidates. */
    var candidates: seq<EntityDataKey>
    /** The lease map `linkingLocks`. */
    var linkingLocks: Leases
    /** The permits of the `limiter` semaphore. */
    var permits: int
    const linkableTypes: set<Uuid>
    /** The whitelist of the configuration, in its iteration order. */
    const priorityEntitySets: seq<Uuid>
    const loadSize: int32
    /** isLinkingEnabled: the worker is started only when background linking is enabled. */
    const backgroundLinkingEnabled: bool

    function State(): WorkerState
      reads this
    {
      WorkerState(candidates, linkingLocks, permits)
    }

    constructor (candidates: seq<EntityDataKey>, linkingLocks: Leases, linkableTypes: set<Uuid>,
                 whitelist: Option<seq<Uuid>>, loadSize: int32, parallelism: int32, backgroundLinkingEnabled: bool)
      ensures this.candidates == candidates && this.linkingLocks == linkingLocks
      ensures this.permits == Wrap32(parallelism as int * 2) as int
      ensures this.linkableTypes == linkableTypes && this.priorityEntitySets == whitelist.GetOr([])
      ensures this.loadSize == loadSize && this.backgroundLinkingEnabled == backgroundLinkingEnabled
    {
      this.candidates := candidates;
      this.linkingLocks := linkingLocks;
      this.permits := Wrap32(parallelism as int * 2) as int;
      this.linkableTypes := linkableTypes;
      this.priorityEntitySets := whitelist.GetOr([]);
      this.loadSize := loadSize;
      this.backgroundLinkingEnabled := backgroundLinkingEnabled;
    }

    /**
     * enqueue: nothing while the queue still holds candidates; otherwise the
     * candidates of every scanned set, until a fetch throws. `linkable` is
     * the entity-set query's result in its iteration order.
     */
    method Enqueue(entitySets: map<Uuid, EntitySet>, linkable: seq<Uuid>, fetch: Fetch)
      requires IsOrderOf(linkable, LinkableIds(entitySets, linkableTypes))
      modifies this
      ensures old(candidates) != [] ==> candidates == old(candidates)
      ensures old(candidates) == [] ==>
                candidates == Queued(ScanIds(priorityEntitySets, linkable, entitySets), fetch, RequestSize(loadSize))
      ensures linkingLocks == old(linkingLocks) && permits == old(permits)
    {
      if candidates != [] {
        return;
      }
      var ids := ScanIds(priorityEntitySets, linkable, entitySets);
      candidates := FetchCandidates(ids, fetch, RequestSize(loadSize));
    }

    /** tryLockCandidate at instant `now`. */
    method TryLockCandidate(candidate: EntityDataKey, now: int) returns (locked: bool)
      modifies this
      ensures (locked, linkingLocks) == TryLock(old(linkingLocks), candidate, now)
      ensures candidates == old(candidates) && permits == old(permits)
    {
      locked := candidate !in linkingLocks;
      if locked {
        linkingLocks := linkingLocks[candidate := now + LINKING_BATCH_TIMEOUT_MILLIS];
      }
    }

    method UnlockCandidate(candidate: EntityDataKey)
      modifies this
      ensures linkingLocks == Unlock(old(linkingLocks), candidate)
      ensures candidates == old(candidates) && permits == old(permits)
    {
      linkingLocks := linkingLocks - {candidate};
    }

    /** The lease map's time-to-live at instant `now`. */
    method ExpireLeases(now: int)
      modifies this
      ensures linkingLocks == Expire(old(linkingLocks), now)
      ensures candidates == old(candidates) && permits == old(permits)
    {
      linkingLocks := map c | c in linkingLocks && linkingLocks[c] > now :: linkingLocks[c];
    }

    /**
     * One turn of the worker at instant `now`; `linkOk` says whether link
     * completes or throws. The permit is released on both paths of the Runnable.
     */
    method WorkerStep(now: int, linkOk: bool) returns (outcome: StepOutcome)
      modifies this
      ensures (State(), outcome) == Step(old(State()), backgroundLinkingEnabled, now, linkOk)
    {
      if !backgroundLinkingEnabled {
        return NoWorker;
      }
      if candidates == [] {
        return QueueEmpty;
      }
      var candidate := candidates[0];
      candidates := candidates[1..];
      if permits <= 0 {
        return Stalled(candidate);
      }
      permits := permits - 1;
      var locked := TryLockCandidate(candidate, now);
      if !locked {
        permits := permits + 1;
        return AlreadyLocked(candidate);
      }
      UnlockCandidate(candidate);
      permits := permits + 1;
      outcome := if linkOk then Linked(candidate) else LinkFailed(candidate);
    }
  }
}
