/**
 * The indexer's RealtimeLinkingService: blocks whose entity map lacks their
 * own center are skipped, a candidate without clusters starts a new one, and
 * otherwise the cluster whose re-matched scores have the lowest average is
 * chosen. runLinking drains each entity set's backlog batch by batch.
 */
module RealtimeLinking {
  import opened Wrappers
  import opened Edm
  import opened Seqs
  import opened Matching
  import IndexerMatching

  /** The entity set id new clusters' ids are reserved from; no real entity set has it. */
  const LINKING_ENTITY_SET_ID: Uuid := Uuid(0, 0)

  /** The starting value of the running minimum; any negative value would do. */
  const INITIAL_LOWEST: real := -10.0

  // -------------------------------------------------------------- block filter

  function HasCenter<V(==,!new)>(): Block<V> -> bool
  {
    (b: Block<V>) => b.entityDataKey in b.entities
  }

  /** The filter of runIterativeLinking: blocks that lack their own center are skipped, the others kept in order. */
  function FilterBlocks<V(==,!new)>(blocks: seq<Block<V>>): (r: seq<Block<V>>)
    ensures forall b :: b in r <==> b in blocks && b.entityDataKey in b.entities
    ensures forall i :: 0 <= i < |r| ==> r[i].entityDataKey in r[i].entities
    ensures (forall b :: b in blocks ==> b.entityDataKey in b.entities) ==> r == blocks
  {
    FilterSpec(blocks, HasCenter());
    Filter(blocks, HasCenter())
  }

  // ------------------------------------------------------------------ averages

  /** A Double as the average can produce it: a number, or NaN for 0.0 / 0. */
  datatype Average = NaN | Num(value: real)

  /** The sum of a map's values. */
  ghost function MapSum<K>(m: map<K, real>): real
    decreases |m|
  {
    if m == map[] then 0.0
    else
      var k :| k in m;
      MapSumRemoveSize(m, k);
      m[k] + MapSum(m - {k})
  }

  lemma MapSumRemoveSize<K>(m: map<K, real>, k: K)
    requires k in m
    ensures |m - {k}| == |m| - 1
  {
    assert (m - {k}).Keys == m.Keys - {k};
  }

  /** The sum does not depend on which key is taken first. */
  lemma {:induction false} MapSumRemove<K>(m: map<K, real>, k: K)
    requires k in m
    ensures MapSum(m) == m[k] + MapSum(m - {k})
    ensures |m - {k}| == |m| - 1
    decreases |m|
  {
    MapSumRemoveSize(m, k);
    var j :| j in m && MapSum(m) == m[j] + MapSum(m - {j});
    if j != k {
      MapSumRemoveSize(m - {j}, k);
      MapSumRemove(m - {j}, k);
      MapSumRemove(m - {k}, j);
      assert m - {j} - {k} == m - {k} - {j};
    }
  }

  /** A sum of non-negative values is non-negative, and zero exactly when every value is. */
  lemma {:induction false} MapSumNonNegative<K>(m: map<K, real>)
    requires forall k :: k in m ==> m[k] >= 0.0
    ensures MapSum(m) >= 0.0
    ensures MapSum(m) == 0.0 <==> forall k :: k in m ==> m[k] == 0.0
    decreases |m|
  {
    if m != map[] {
      var k :| k in m;
      MapSumRemove(m, k);
      MapSumNonNegative(m - {k});
      assert forall j :: j in m ==> j == k || j in m - {k};
    }
  }

  /** `sumByDouble { it.values.sum() }` by row. */
  ghost function RowSums(m: Scores): map<EntityDataKey, real>
  {
    map l | l in m :: MapSum(m[l])
  }

  /** `sumBy { it.size }` by row. */
  ghost function RowSizes(m: Scores): map<EntityDataKey, real>
  {
    map l | l in m :: |m[l]| as real
  }

  /** A cluster's average: the sum of all its scores over the number of its scores; NaN when it has none. */
  ghost function AverageOf(m: Scores): Average
  {
    var size := MapSum(RowSizes(m));
    if size == 0.0 then NaN else Num(MapSum(RowSums(m)) / size)
  }

  /** The average is NaN exactly for a cluster without scores. */
  lemma AverageNaN(m: Scores)
    ensures AverageOf(m).NaN? <==> forall l :: l in m ==> m[l] == map[]
  {
    var sizes := RowSizes(m);
    MapSumNonNegative(sizes);
    assert forall l :: l in m ==> (sizes[l] == 0.0 <==> m[l] == map[]);
  }

  /** Non-negative scores average to a non-negative number, unless there are none. */
  lemma AverageNonNegative(m: Scores)
    requires forall l, k :: l in m && k in m[l] ==> m[l][k] >= 0.0
    ensures AverageOf(m).Num? ==> AverageOf(m).value >= 0.0
  {
    forall l | l in m ensures MapSum(m[l]) >= 0.0 {
      MapSumNonNegative(m[l]);
    }
    MapSumNonNegative(RowSums(m));
    MapSumNonNegative(RowSizes(m));
  }

  /** `it.values.sum()` for one row. */
  method SumRow(row: Row) returns (s: real)
    ensures s == MapSum(row)
  {
    s := 0.0;
    var rest := row;
    while rest != map[]
      invariant s + MapSum(rest) == MapSum(row)
      decreases |rest|
    {
      var k :| k in rest;
      MapSumRemove(rest, k);
      s := s + rest[k];
      rest := rest - {k};
    }
  }

  lemma RowsRemove(m: Scores, l: EntityDataKey)
    requires l in m
    ensures RowSums(m - {l}) == RowSums(m) - {l}
    ensures RowSizes(m - {l}) == RowSizes(m) - {l}
  {
  }

  /** Taking one row out of the sums. */
  lemma ClusterStep(m: Scores, l: EntityDataKey)
    requires l in m
    ensures MapSum(RowSums(m)) == MapSum(m[l]) + MapSum(RowSums(m - {l}))
    ensures MapSum(RowSizes(m)) == |m[l]| as real + MapSum(RowSizes(m - {l}))
    ensures |m - {l}| < |m|
  {
    RowsRemove(m, l);
    MapSumRemove(RowSums(m), l);
    MapSumRemove(RowSizes(m), l);
    MapSumRemoveSize(RowSums(m), l);
    assert (m - {l}).Keys == m.Keys - {l};
  }

  /** The average of a matched cluster, summed row by row. */
  method ClusterAverage(m: Scores) returns (avg: Average)
    ensures avg == AverageOf(m)
  {
    var total := 0.0;
    var size := 0;
    var rest := m;
    while rest != map[]
      invariant total + MapSum(RowSums(rest)) == MapSum(RowSums(m))
      invariant size as real + MapSum(RowSizes(rest)) == MapSum(RowSizes(m))
      decreases |rest|
    {
      var l :| l in rest;
      var rowSum := SumRow(rest[l]);
      ClusterStep(rest, l);
      total := total + rowSum;
      size := size + |rest[l]|;
      rest := rest - {l};
    }
    assert RowSums(rest) == map[] && RowSizes(rest) == map[];
    assert total == MapSum(RowSums(m)) && size as real == MapSum(RowSizes(m));
    avg := if size == 0 then NaN else Num(total / size as real);
  }

  // ----------------------------------------------------------------- selection

  /**
   * `lowestAvgScore > avgScore || lowestAvgScore < 0` on Doubles: every
   * comparison with NaN is false.
   */
  predicate Replaces(lowest: Average, avg: Average)
  {
    (lowest.Num? && avg.Num? && lowest.value > avg.value) || (lowest.Num? && lowest.value < 0.0)
  }

  /** The selection loop over the clusters' averages: the running minimum and the position it came from. */
  function Select(avgs: seq<Average>): (r: (Average, Option<nat>))
    ensures r.1.Some? ==> r.1.value < |avgs| && r.0 == avgs[r.1.value]
  {
    if avgs == [] then (Num(INITIAL_LOWEST), None)
    else
      var (lowest, best) := Select(avgs[..|avgs| - 1]);
      var avg := avgs[|avgs| - 1];
      if Replaces(lowest, avg) then (avg, Some(|avgs| - 1)) else (lowest, best)
  }

  /** The first cluster is always taken, because the running minimum starts negative; so a choice always exists. */
  lemma {:induction false} SelectChooses(avgs: seq<Average>)
    ensures Select(avgs).1.Some? <==> avgs != []
  {
    if avgs != [] {
      SelectChooses(avgs[..|avgs| - 1]);
    }
  }

  /** Position b holds the least average, and every earlier one is strictly greater. */
  predicate IsFirstMinimum(avgs: seq<Average>, b: nat)
    requires forall i :: 0 <= i < |avgs| ==> avgs[i].Num?
  {
    && b < |avgs|
    && (forall j :: 0 <= j < |avgs| ==> avgs[b].value <= avgs[j].value)
    && (forall j :: 0 <= j < b ==> avgs[b].value < avgs[j].value)
  }

  /**
   * With non-negative averages the loop picks the cluster of least average,
   * the earliest one on a tie.
   */
  lemma {:induction false} SelectFirstMinimum(avgs: seq<Average>)
    requires forall i :: 0 <= i < |avgs| ==> avgs[i].Num? && avgs[i].value >= 0.0
    requires avgs != []
    ensures Select(avgs).1.Some? && IsFirstMinimum(avgs, Select(avgs).1.value)
  {
    var prefix := avgs[..|avgs| - 1];
    if prefix == [] {
      assert Select(prefix) == (Num(INITIAL_LOWEST), None);
    } else {
      SelectFirstMinimum(prefix);
      var (lowest, best) := Select(prefix);
      assert lowest == prefix[best.value] && lowest.value >= 0.0;
      assert forall j :: 0 <= j < |prefix| ==> prefix[j] == avgs[j];
    }
  }

  /**
   * A first cluster whose average is NaN (one without scores) is never
   * replaced: no comparison with NaN holds.
   */
  lemma {:induction false} SelectNaNFirstSticks(avgs: seq<Average>)
    requires avgs != [] && avgs[0] == NaN
    ensures Select(avgs) == (NaN, Some(0))
  {
    var prefix := avgs[..|avgs| - 1];
    if prefix != [] {
      assert prefix[0] == avgs[0];
      SelectNaNFirstSticks(prefix);
    } else {
      assert Select(prefix) == (Num(INITIAL_LOWEST), None);
    }
  }

  // ------------------------------------------------------------------ clusters

  /**
   * The service's collaborators, whose code is not part of this model: the
   * blocker, the matcher (`initialize(...).second` and `match(...).second`;
   * None stands for a throw), the linking query service's cluster lookup
   * (`getClustersContaining(getIdsOfClustersContaining(keys))`, in its
   * iteration order), the data loader and the id service.
   */
  datatype Services<!V(==)> = Services(
    blockOf: (Uuid, Uuid) -> Block<V>,
    initialize: Block<V> -> Result<Scores>,
    matchBlock: Block<V> -> Result<Scores>,
    clustersFor: set<EntityDataKey> -> seq<(Uuid, Scores)>,
    load: set<EntityDataKey> -> map<EntityDataKey, Entity<V>>,
    reserve: (Uuid, nat) -> seq<Uuid>)

  /** A cluster re-matched against the candidate. */
  datatype Candidate = Candidate(clusterId: Uuid, matched: Scores)

  /** The update runIterativeLinking hands to insertMatchScores and updateLinkingTable. */
  datatype ClusterUpdate = ClusterUpdate(clusterId: Uuid, newMember: EntityDataKey, scores: Scores)

  /** `matcher.match` of the block that joins the candidate with the entities of one cluster. */
  function MatchCluster<V(==)>(s: Services<V>, blockKey: EntityDataKey, cluster: Scores): Result<Scores>
  {
    s.matchBlock(Block(blockKey, s.load(CollectKeys(cluster) + {blockKey})))
  }

  /** Every cluster matched in turn; the first match that throws ends the loop. */
  function MatchClusters<V(==)>(s: Services<V>, blockKey: EntityDataKey, clusters: seq<(Uuid, Scores)>): (r: Result<seq<Candidate>>)
    ensures r.Success? <==> forall i :: 0 <= i < |clusters| ==> MatchCluster(s, blockKey, clusters[i].1).Success?
    ensures r.Success? ==>
              && |r.value| == |clusters|
              && forall i :: 0 <= i < |clusters| ==>
                   r.value[i] == Candidate(clusters[i].0, MatchCluster(s, blockKey, clusters[i].1).value)
  {
    if clusters == [] then Success([])
    else
      var n := |clusters| - 1;
      var prefix := MatchClusters(s, blockKey, clusters[..n]);
      assert forall i :: 0 <= i < n ==> clusters[..n][i] == clusters[i];
      var m := MatchCluster(s, blockKey, clusters[n].1);
      if prefix.Failure? then prefix
      else if m.Failure? then Failure(m.error)
      else Success(prefix.value + [Candidate(clusters[n].0, m.value)])
  }

  /** Matching one more cluster extends the matched prefix, or ends it with that cluster's error. */
  lemma MatchClustersStep<V>(s: Services<V>, blockKey: EntityDataKey, clusters: seq<(Uuid, Scores)>, i: nat, ms: seq<Candidate>)
    requires i < |clusters| && MatchClusters(s, blockKey, clusters[..i]) == Success(ms)
    ensures var m := MatchCluster(s, blockKey, clusters[i].1);
            MatchClusters(s, blockKey, clusters[..i + 1]) ==
              if m.Failure? then Failure(m.error) else Success(ms + [Candidate(clusters[i].0, m.value)])
  {
    assert clusters[..i + 1][..i] == clusters[..i];
  }

  /** The first cluster whose match throws decides the error of the whole loop. */
  lemma {:induction false} MatchClustersFirstFailure<V>(s: Services<V>, blockKey: EntityDataKey, clusters: seq<(Uuid, Scores)>, n: nat, e: Error)
    requires n <= |clusters| && MatchClusters(s, blockKey, clusters[..n]) == Failure(e)
    ensures MatchClusters(s, blockKey, clusters) == Failure(e)
    decreases |clusters| - n
  {
    if n < |clusters| {
      assert clusters[..n + 1][..n] == clusters[..n];
      MatchClustersFirstFailure(s, blockKey, clusters, n + 1, e);
    } else {
      assert clusters[..n] == clusters;
    }
  }

  ghost function Averages(ms: seq<Candidate>): (r: seq<Average>)
    ensures |r| == |ms|
  {
    seq(|ms|, i requires 0 <= i < |ms| => AverageOf(ms[i].matched))
  }

  /**
   * The new-cluster path: one id reserved from LINKING_ENTITY_SET_ID
   * (`first()` throws on none) and the match of the candidate's singleton
   * block.
   */
  function NewCluster<V(==)>(s: Services<V>, blockKey: EntityDataKey, elem: Entity<V>): (r: Result<ClusterUpdate>)
    ensures r.Success? <==> s.reserve(LINKING_ENTITY_SET_ID, 1) != [] && s.matchBlock(Block(blockKey, map[blockKey := elem])).Success?
    ensures r.Success? ==> r.value == ClusterUpdate(s.reserve(LINKING_ENTITY_SET_ID, 1)[0], blockKey,
                                                    s.matchBlock(Block(blockKey, map[blockKey := elem])).value)
  {
    var ids := s.reserve(LINKING_ENTITY_SET_ID, 1);
    if ids == [] then Failure(NoSuchElement)
    else
      var scores := s.matchBlock(Block(blockKey, map[blockKey := elem]));
      if scores.Failure? then Failure(scores.error)
      else Success(ClusterUpdate(ids[0], blockKey, scores.value))
  }

  /**
   * With the indexer's matcher, a new cluster scores the candidate against
   * itself alone: one row, keyed by the candidate, holding only the candidate.
   */
  lemma NewClusterWithIndexerMatcher<V>(s: Services<V>, blockKey: EntityDataKey, elem: Entity<V>, scorer: Scorer<V>, net: Net)
    requires IsOrderOf([blockKey], {blockKey})
    requires s.matchBlock(Block(blockKey, map[blockKey := elem])) ==
             IndexerMatching.MatchScores(Block(blockKey, map[blockKey := elem]), [blockKey], scorer, net)
    requires NewCluster(s, blockKey, elem).Success?
    ensures var u := NewCluster(s, blockKey, elem).value;
            u.scores.Keys == {blockKey} && u.scores[blockKey].Keys == {blockKey}
  {
    var b := Block(blockKey, map[blockKey := elem]);
    SingletonKeys(blockKey, elem);
    IndexerMatching.MatchSquare(b, [blockKey], scorer, net);
    assert NewCluster(s, blockKey, elem).value.scores == s.matchBlock(b).value;
  }

  lemma SingletonKeys<V>(blockKey: EntityDataKey, elem: Entity<V>)
    ensures map[blockKey := elem].Keys == {blockKey}
  {
  }

  /** One more turn of the selection loop. */
  lemma SelectStep(ms: seq<Candidate>, next: Candidate)
    ensures var (lowest, best) := Select(Averages(ms));
            var avg := AverageOf(next.matched);
            Select(Averages(ms + [next])) == if Replaces(lowest, avg) then (avg, Some(|ms|)) else (lowest, best)
  {
    assert Averages(ms + [next])[..|ms|] == Averages(ms);
  }

  /**
   * The map stage of runIterativeLinking for one block that has its center:
   * initialize, find the clusters of its keys, then start a new cluster or
   * pick the one of lowest average (`!!` throws where none was picked).
   */
  ghost function LinkOutcome<V>(s: Services<V>, b: Block<V>): Result<ClusterUpdate>
    requires b.entityDataKey in b.entities
  {
    var bk := b.entityDataKey;
    var init := s.initialize(b);
    if init.Failure? then Failure(init.error)
    else
      var clusters := s.clustersFor(CollectKeys(init.value));
      if clusters == [] then NewCluster(s, bk, b.entities[bk])
      else
        var ms := MatchClusters(s, bk, clusters);
        if ms.Failure? then Failure(ms.error)
        else
          var best := Select(Averages(ms.value)).1;
          if best.None? then Failure(NullPointer)
          else Success(ClusterUpdate(ms.value[best.value].clusterId, bk, ms.value[best.value].matched))
  }

  /**
   * When the candidate's keys have clusters and they all match, the update
   * goes to one of them (`!!` never throws); with non-negative averages it is
   * the first cluster of least average.
   */
  lemma LinkOutcomeExisting<V>(s: Services<V>, b: Block<V>, clusters: seq<(Uuid, Scores)>)
    requires b.entityDataKey in b.entities && s.initialize(b).Success?
    requires clusters == s.clustersFor(CollectKeys(s.initialize(b).value)) && clusters != []
    requires MatchClusters(s, b.entityDataKey, clusters).Success?
    ensures var r := LinkOutcome(s, b);
            var ms := MatchClusters(s, b.entityDataKey, clusters).value;
            r.Success? && r.value.newMember == b.entityDataKey &&
            exists i :: 0 <= i < |clusters| && r.value.clusterId == clusters[i].0 && r.value.scores == ms[i].matched &&
              ((forall j :: 0 <= j < |ms| ==> Averages(ms)[j].Num? && Averages(ms)[j].value >= 0.0) ==>
                 IsFirstMinimum(Averages(ms), i))
  {
    var ms := MatchClusters(s, b.entityDataKey, clusters).value;
    SelectChooses(Averages(ms));
    var i := Select(Averages(ms)).1.value;
    if forall j :: 0 <= j < |ms| ==> Averages(ms)[j].Num? && Averages(ms)[j].value >= 0.0 {
      SelectFirstMinimum(Averages(ms));
    }
    assert ms[i].clusterId == clusters[i].0;
  }

  /** Without clusters for the candidate's keys, the update is a new cluster. */
  lemma LinkOutcomeNew<V>(s: Services<V>, b: Block<V>)
    requires b.entityDataKey in b.entities && s.initialize(b).Success?
    requires s.clustersFor(CollectKeys(s.initialize(b).value)) == []
    ensures LinkOutcome(s, b) == NewCluster(s, b.entityDataKey, b.entities[b.entityDataKey])
  {
  }

  /** The candidate the selection loop keeps: the first of least average, if any. */
  ghost function BestOf(ms: seq<Candidate>): Option<Candidate>
  {
    var best := Select(Averages(ms)).1;
    if best.None? then None else Some(ms[best.value])
  }

  /**
   * The selection loop of linkBlock: match each cluster in turn, stopping at
   * the first failure, and keep the first candidate of least average.
   */
  method SelectBest<V(==)>(s: Services<V>, blockKey: EntityDataKey, clusters: seq<(Uuid, Scores)>)
    returns (r: Result<Option<Candidate>>)
    ensures MatchClusters(s, blockKey, clusters).Failure? ==> r == Failure(MatchClusters(s, blockKey, clusters).error)
    ensures MatchClusters(s, blockKey, clusters).Success? ==> r == Success(BestOf(MatchClusters(s, blockKey, clusters).value))
  {
    var maybeBest: Option<Candidate> := None;
    var lowest := Num(INITIAL_LOWEST);
    var i := 0;
    ghost var ms: seq<Candidate> := [];
    ghost var best: Option<nat> := None;
    while i < |clusters|
      invariant 0 <= i <= |clusters|
      invariant MatchClusters(s, blockKey, clusters[..i]) == Success(ms)
      invariant (lowest, best) == Select(Averages(ms))
      invariant maybeBest == if best.Some? then Some(ms[best.value]) else None
    {
      MatchClustersStep(s, blockKey, clusters, i, ms);
      var matched := MatchCluster(s, blockKey, clusters[i].1);
      if matched.Failure? {
        MatchClustersFirstFailure(s, blockKey, clusters, i + 1, matched.error);
        return Failure(matched.error);
      }
      var avg := ClusterAverage(matched.value);
      var next := Candidate(clusters[i].0, matched.value);
      SelectStep(ms, next);
      if Replaces(lowest, avg) {
        lowest := avg;
        maybeBest := Some(next);
        best := Some(|ms|);
      }
      ms := ms + [next];
      i := i + 1;
    }
    assert clusters[..i] == clusters;
    r := Success(maybeBest);
  }

  /** The map stage for one block, with the selection loop over the clusters written out as in the source. */
  method LinkBlock<V(==)>(s: Services<V>, b: Block<V>) returns (r: Result<ClusterUpdate>)
    requires b.entityDataKey in b.entities
    ensures r == LinkOutcome(s, b)
  {
    var blockKey := b.entityDataKey;
    var elem := b.entities[blockKey];
    var init := s.initialize(b);
    if init.Failure? {
      return Failure(init.error);
    }
    var clusters := s.clustersFor(CollectKeys(init.value));
    if clusters == [] {
      return NewCluster(s, blockKey, elem);
    }
    var selected := SelectBest(s, blockKey, clusters);
    if selected.Failure? {
      return Failure(selected.error);
    }
    var maybeBest := selected.value;
    if maybeBest.None? {
      return Failure(NullPointer);
    }
    r := Success(ClusterUpdate(maybeBest.value.clusterId, blockKey, maybeBest.value.matched));
  }

  // ------------------------------------------------------------------ effects

  /** What runLinking does to the linking query service, in order. */
  datatype Event =
    | ClearedNeighborhoods(entitySetId: Uuid, entityKeyIds: seq<Uuid>)
    | Inserted(update: ClusterUpdate)   // insertMatchScores then updateLinkingTable

  /** The events of a run and the error that ended it early, if any. */
  datatype Outcome = Outcome(events: seq<Event>, failure: Option<Error>)

  /** The events of `first` and then, unless it failed, those of `next`. */
  function AndThen(first: Outcome, next: Outcome): Outcome
  {
    if first.failure.Some? then first else Outcome(first.events + next.events, next.failure)
  }

  /** The blocks of a batch, one per entity key id, in order. */
  function Blocks<V(==)>(s: Services<V>, entitySetId: Uuid, entityKeyIds: seq<Uuid>): (r: seq<Block<V>>)
    ensures |r| == |entityKeyIds|
  {
    seq(|entityKeyIds|, i requires 0 <= i < |entityKeyIds| => s.blockOf(entitySetId, entityKeyIds[i]))
  }

  /** The forEach of runIterativeLinking over the blocks' outcomes: each update in turn, until one throws. */
  function Collect(rs: seq<Result<ClusterUpdate>>): Outcome
  {
    if rs == [] then Outcome([], None)
    else
      match rs[0]
      case Failure(e) => Outcome([], Some(e))
      case Success(u) => AndThen(Outcome([Inserted(u)], None), Collect(rs[1..]))
  }

  /** The updates are inserted in order, one per outcome up to the first failure. */
  lemma {:induction false} CollectInserts(rs: seq<Result<ClusterUpdate>>)
    ensures var r := Collect(rs);
            |r.events| <= |rs| &&
            (r.failure.None? <==> forall i :: 0 <= i < |rs| ==> rs[i].Success?) &&
            (r.failure.None? ==> |r.events| == |rs|) &&
            (r.failure.Some? ==> exists i :: 0 <= i < |rs| && rs[i] == Failure(r.failure.value) && |r.events| == i) &&
            forall i :: 0 <= i < |r.events| ==> rs[i].Success? && r.events[i] == Inserted(rs[i].value)
  {
    if rs != [] {
      CollectInserts(rs[1..]);
      var tail := Collect(rs[1..]);
      if rs[0].Success? && tail.failure.Some? {
        var i :| 0 <= i < |rs[1..]| && rs[1..][i] == Failure(tail.failure.value) && |tail.events| == i;
        assert rs[i + 1] == Failure(tail.failure.value);
      }
      if rs[0].Success? {
        assert forall i :: 1 <= i < |rs| ==> rs[i] == rs[1..][i - 1];
      }
    }
  }

  /** The outcomes from position i on: the head outcome, then the rest. */
  lemma CollectAt(rs: seq<Result<ClusterUpdate>>, i: nat)
    requires i < |rs|
    ensures Collect(rs[i..]) ==
              match rs[i]
              case Failure(e) => Outcome([], Some(e))
              case Success(u) => AndThen(Outcome([Inserted(u)], None), Collect(rs[i + 1..]))
  {
    assert rs[i..][0] == rs[i] && rs[i..][1..] == rs[i + 1..];
  }

  /** runIterativeLinking over the kept blocks of a batch. */
  ghost function LinkAll<V>(s: Services<V>, blocks: seq<Block<V>>): Outcome
    requires forall i :: 0 <= i < |blocks| ==> blocks[i].entityDataKey in blocks[i].entities
  {
    Collect(Outcomes(s, blocks))
  }

  /** Each block's linking outcome, in block order. */
  ghost function Outcomes<V>(s: Services<V>, blocks: seq<Block<V>>): (r: seq<Result<ClusterUpdate>>)
    requires forall i :: 0 <= i < |blocks| ==> blocks[i].entityDataKey in blocks[i].entities
    ensures |r| == |blocks| && forall i :: 0 <= i < |r| ==> r[i] == LinkOutcome(s, blocks[i])
  {
    seq(|blocks|, i requires 0 <= i < |blocks| => LinkOutcome(s, blocks[i]))
  }

  /** A block's update always has the block's own key as its new member. */
  lemma LinkOutcomeMember<V>(s: Services<V>, b: Block<V>)
    requires b.entityDataKey in b.entities && LinkOutcome(s, b).Success?
    ensures LinkOutcome(s, b).value.newMember == b.entityDataKey
  {
  }

  /**
   * Linking a batch inserts one update per kept block, in block order, each
   * with that block's key as its new member; a throw ends the batch early.
   */
  lemma {:induction false} LinkAllUpdatesKeptBlocks<V>(s: Services<V>, blocks: seq<Block<V>>)
    requires forall i :: 0 <= i < |blocks| ==> blocks[i].entityDataKey in blocks[i].entities
    ensures var r := LinkAll(s, blocks);
            |r.events| <= |blocks| &&
            (r.failure.None? ==> |r.events| == |blocks|) &&
            forall i :: 0 <= i < |r.events| ==> r.events[i].Inserted? && r.events[i].update.newMember == blocks[i].entityDataKey
  {
    var rs := Outcomes(s, blocks);
    CollectInserts(rs);
    forall i | 0 <= i < |blocks| && rs[i].Success? ensures rs[i].value.newMember == blocks[i].entityDataKey {
      LinkOutcomeMember(s, blocks[i]);
    }
  }

  method RunIterativeLinking<V(==,!new)>(s: Services<V>, entitySetId: Uuid, entityKeyIds: seq<Uuid>) returns (r: Outcome)
    ensures r == LinkAll(s, FilterBlocks(Blocks(s, entitySetId, entityKeyIds)))
  {
    var blocks := Blocks(s, entitySetId, entityKeyIds);
    r := LinkKept(s, FilterBlocks(blocks));
  }

  /** Links the kept blocks one at a time, in order, stopping at the first that throws. */
  method LinkKept<V(==,!new)>(s: Services<V>, kept: seq<Block<V>>) returns (r: Outcome)
    requires forall i :: 0 <= i < |kept| ==> kept[i].entityDataKey in kept[i].entities
    ensures r == LinkAll(s, kept)
  {
    ghost var rs := Outcomes(s, kept);
    var events := [];
    var i := 0;
    assert rs[i..] == rs;
    while i < |kept|
      invariant 0 <= i <= |kept|
      invariant AndThen(Outcome(events, None), Collect(rs[i..])) == Collect(rs)
    {
      var update := LinkBlock(s, kept[i]);
      assert update == rs[i];
      if update.Failure? {
        CollectStep(events, rs, i, Collect(rs));
        return Outcome(events, Some(update.error));
      }
      CollectStep(events, rs, i, Collect(rs));
      events := events + [Inserted(update.value)];
      i := i + 1;
    }
    assert rs[i..] == [];
    r := Outcome(events, None);
  }

  /** One step of the linking loop: a failure ends the run with the events so far, a success appends its insert. */
  lemma CollectStep(events: seq<Event>, rs: seq<Result<ClusterUpdate>>, i: nat, total: Outcome)
    requires i < |rs|
    requires AndThen(Outcome(events, None), Collect(rs[i..])) == total
    ensures rs[i].Failure? ==> Outcome(events, Some(rs[i].error)) == total
    ensures rs[i].Success? ==> AndThen(Outcome(events + [Inserted(rs[i].value)], None), Collect(rs[i + 1..])) == total
  {
    CollectAt(rs, i);
    if rs[i].Success? {
      AppendInsert(events, rs[i].value, Collect(rs[i + 1..]));
    }
  }

  /** Appending one insert before the rest of a run is the same as adding it to the events so far. */
  lemma AppendInsert(events: seq<Event>, u: ClusterUpdate, rest: Outcome)
    ensures AndThen(Outcome(events, None), AndThen(Outcome([Inserted(u)], None), rest))
         == AndThen(Outcome(events + [Inserted(u)], None), rest)
  {
    assert events + ([Inserted(u)] + rest.events) == (events + [Inserted(u)]) + rest.events;
  }

  /** refreshLinks for one batch: its neighborhoods are cleared, then it is linked. */
  ghost function Refresh<V(!new)>(s: Services<V>, entitySetId: Uuid, ids: seq<Uuid>): Outcome
  {
    AndThen(Outcome([ClearedNeighborhoods(entitySetId, ids)], None), LinkAll(s, FilterBlocks(Blocks(s, entitySetId, ids))))
  }

  ghost function RefreshOf<V(!new)>(s: Services<V>, entitySetId: Uuid): seq<Uuid> -> Outcome
  {
    ids => Refresh(s, entitySetId, ids)
  }

  /** The events of one drain: each backlog batch, from position k, refreshed in turn until an empty answer. */
  ghost function Drain(refresh: seq<Uuid> -> Outcome, answers: seq<seq<Uuid>>, k: nat): Outcome
    decreases |answers| - k
  {
    if k >= |answers| || answers[k] == [] then Outcome([], None)
    else AndThen(refresh(answers[k]), Drain(refresh, answers, k + 1))
  }

  /**
   * Each batch is cleared before it is linked: a drain has events exactly
   * when its first answer is not empty, and they start with that batch's
   * clearing.
   */
  lemma DrainClearsFirst<V(!new)>(s: Services<V>, entitySetId: Uuid, answers: seq<seq<Uuid>>, k: nat)
    ensures var r := Drain(RefreshOf(s, entitySetId), answers, k);
            (k < |answers| && answers[k] != [] <==> r.events != []) &&
            (r.events != [] ==> r.events[0] == ClearedNeighborhoods(entitySetId, answers[k]))
  {
  }

  /** The drain stops at the first empty answer: later answers are never used. */
  lemma {:induction false} DrainStopsAtEmpty(refresh: seq<Uuid> -> Outcome, answers: seq<seq<Uuid>>, k: nat, e: nat)
    requires k <= e < |answers| && answers[e] == []
    ensures Drain(refresh, answers, k) == Drain(refresh, answers[..e], k)
    decreases e - k
  {
    if k < e && answers[k] != [] {
      assert answers[..e][k] == answers[k];
      DrainStopsAtEmpty(refresh, answers, k + 1, e);
    }
  }

  /**
   * A batch whose blocks all lack their own entity is only cleared: the
   * filter drops every block, so refreshLinks links nothing.
   */
  lemma RefreshWithoutKeptBlocks<V(!new)>(s: Services<V>, entitySetId: Uuid, ids: seq<Uuid>)
    requires forall i :: 0 <= i < |ids| ==> s.blockOf(entitySetId, ids[i]).entityDataKey !in s.blockOf(entitySetId, ids[i]).entities
    ensures Refresh(s, entitySetId, ids) == Outcome([ClearedNeighborhoods(entitySetId, ids)], None)
  {
    var blocks := Blocks(s, entitySetId, ids);
    var kept := FilterBlocks(blocks);
    assert forall i :: 0 <= i < |blocks| ==> blocks[i].entityDataKey !in blocks[i].entities;
    assert forall b :: b !in kept;
    assert multiset(kept) == multiset{};
    assert |kept| == |multiset(kept)| == 0;
    assert LinkAll(s, kept) == Outcome([], None);
    assert [ClearedNeighborhoods(entitySetId, ids)] + [] == [ClearedNeighborhoods(entitySetId, ids)];
  }

  /**
   * While the needing-linking query keeps answering with such a batch, each
   * turn of the drain clears that batch again and inserts nothing: the loop
   * makes no progress, and it ends only when the query answers empty.
   */
  lemma {:induction false} DrainRepeatsUnlinkable<V(!new)>(s: Services<V>, entitySetId: Uuid, ids: seq<Uuid>,
                                                           answers: seq<seq<Uuid>>, k: nat)
    requires ids != []
    requires forall i :: 0 <= i < |ids| ==> s.blockOf(entitySetId, ids[i]).entityDataKey !in s.blockOf(entitySetId, ids[i]).entities
    requires forall j :: k <= j < |answers| ==> answers[j] == ids
    ensures var r := Drain(RefreshOf(s, entitySetId), answers, k);
      && r.failure.None?
      && |r.events| == (if k < |answers| then |answers| - k else 0)
      && forall e :: 0 <= e < |r.events| ==> r.events[e] == ClearedNeighborhoods(entitySetId, ids)
    decreases |answers| - k
  {
    if k < |answers| {
      RefreshWithoutKeptBlocks(s, entitySetId, ids);
      DrainRepeatsUnlinkable(s, entitySetId, ids, answers, k + 1);
      assert RefreshOf(s, entitySetId)(answers[k]) == Outcome([ClearedNeighborhoods(entitySetId, ids)], None);
    }
  }

  /** AndThen is associative: runs can be split. */
  lemma AndThenAssoc(a: Outcome, b: Outcome, c: Outcome)
    ensures AndThen(AndThen(a, b), c) == AndThen(a, AndThen(b, c))
  {
    if a.failure.None? && b.failure.None? {
      assert (a.events + b.events) + c.events == a.events + (b.events + c.events);
    }
  }

  /**
   * runLinking's loop for one entity set: `answers` are the successive
   * answers of the needing-linking query (an answer past the end counts as
   * empty); refreshLinks runs for each until the first empty one, and a
   * throw ends the run.
   */
  method DrainEntitySet<V(==,!new)>(s: Services<V>, entitySetId: Uuid, answers: seq<seq<Uuid>>) returns (r: Outcome)
    ensures r == Drain(RefreshOf(s, entitySetId), answers, 0)
  {
    ghost var refresh := RefreshOf(s, entitySetId);
    var done := Outcome([], None);
    var k := 0;
    var entitiesNeedingLinking := if k < |answers| then answers[k] else [];
    while entitiesNeedingLinking != []
      invariant k <= |answers| && done.failure.None?
      invariant entitiesNeedingLinking == if k < |answers| then answers[k] else []
      invariant AndThen(done, Drain(refresh, answers, k)) == Drain(refresh, answers, 0)
      decreases |answers| - k
    {
      var linked := RunIterativeLinking(s, entitySetId, entitiesNeedingLinking);
      var batch := AndThen(Outcome([ClearedNeighborhoods(entitySetId, entitiesNeedingLinking)], None), linked);
      assert batch == refresh(entitiesNeedingLinking);
      AndThenAssoc(done, batch, Drain(refresh, answers, k + 1));
      if batch.failure.Some? {
        return AndThen(done, batch);
      }
      done := AndThen(done, batch);
      k := k + 1;
      entitiesNeedingLinking := if k < |answers| then answers[k] else [];
    }
    assert done.events + [] == done.events;
    r := done;
  }

  /** runLinking over every entity set needing linking, in order; a throw ends the whole run. */
  ghost function RunAll<V(!new)>(s: Services<V>, entitySetIds: seq<Uuid>, answers: Uuid -> seq<seq<Uuid>>): Outcome
  {
    if entitySetIds == [] then Outcome([], None)
    else AndThen(Drain(RefreshOf(s, entitySetIds[0]), answers(entitySetIds[0]), 0), RunAll(s, entitySetIds[1..], answers))
  }

  /** runLinking, once its lock is taken; `answers(es)` are the successive needing-linking answers for es. */
  method RunLinking<V(==,!new)>(s: Services<V>, entitySetIds: seq<Uuid>, answers: Uuid -> seq<seq<Uuid>>) returns (r: Outcome)
    ensures r == RunAll(s, entitySetIds, answers)
  {
    var done := Outcome([], None);
    var i := 0;
    assert entitySetIds[i..] == entitySetIds;
    while i < |entitySetIds|
      invariant 0 <= i <= |entitySetIds| && done.failure.None?
      invariant AndThen(done, RunAll(s, entitySetIds[i..], answers)) == RunAll(s, entitySetIds, answers)
    {
      assert entitySetIds[i..][0] == entitySetIds[i] && entitySetIds[i..][1..] == entitySetIds[i + 1..];
      var drained := DrainEntitySet(s, entitySetIds[i], answers(entitySetIds[i]));
      AndThenAssoc(done, drained, RunAll(s, entitySetIds[i + 1..], answers));
      if drained.failure.Some? {
        return AndThen(done, drained);
      }
      done := AndThen(done, drained);
      i := i + 1;
    }
    assert done.events + [] == done.events;
    r := done;
  }
}
