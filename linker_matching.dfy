/**
 * The linker's SocratesMatcher: scores blocks of entities with the matching
 * network, row by row for a block's center and pairwise for a whole block.
 */
module LinkerMatching {
  import opened Wrappers
  import opened Edm
  import opened Seqs
  import opened Matching

  /** One scored pair, as produced by computeResults. */
  datatype ResultSet = ResultSet(lhs: EntityDataKey, rhs: EntityDataKey, score: real)

  /**
   * getModelScore: the network's output; if it throws, one more attempt; if
   * that throws too, a score of 1.0 for every feature row.
   */
  function GetModelScore(net: Net, features: seq<Features>): (r: seq<real>)
    ensures net(features, 0).Some? ==> r == net(features, 0).value
    ensures net(features, 0).None? && net(features, 1).Some? ==> r == net(features, 1).value
    ensures net(features, 0).None? && net(features, 1).None? ==>
              |r| == |features| && forall i :: 0 <= i < |r| ==> r[i] == 1.0
  {
    match net(features, 0)
    case Some(out) => out
    case None =>
      match net(features, 1)
      case Some(out) => out
      case None => seq(|features|, _ => 1.0)
  }

  // ---------------------------------------------------------------- initialize

  /** The features of the center against every entity of the block, in the block's order. */
  function InitialFeatures<V(==)>(b: Block<V>, order: seq<EntityDataKey>, scorer: Scorer<V>): (r: seq<Features>)
    requires b.entityDataKey in b.entities
    requires forall k :: k in order ==> k in b.entities
    ensures |r| == |order|
  {
    var first := ExtractProperties(b.entities[b.entityDataKey], scorer.show);
    seq(|order|, i requires 0 <= i < |order| =>
      ExtractFeatures(scorer, first, ExtractProperties(b.entities[order[i]], scorer.show)))
  }

  /** The center's row before trimming: the block's keys zipped with the network's scores. */
  function InitialRow<V(==)>(b: Block<V>, order: seq<EntityDataKey>, scorer: Scorer<V>, net: Net): (r: Row)
    requires b.entityDataKey in b.entities
    requires IsOrderOf(order, b.entities.Keys)
    ensures r.Keys <= b.entities.Keys
    ensures var scores := GetModelScore(net, InitialFeatures(b, order, scorer));
            (forall k :: k in r <==> exists i :: 0 <= i < |order| && i < |scores| && order[i] == k) &&
            (forall i :: 0 <= i < |order| && i < |scores| ==> r[order[i]] == scores[i])
  {
    ZipToMap(order, GetModelScore(net, InitialFeatures(b, order, scorer)))
  }

  /**
   * initialize: the center's trimmed row, as the only row of the match; a
   * block that does not contain its center fails (`getValue` throws).
   */
  function Initialized<V(==)>(b: Block<V>, order: seq<EntityDataKey>, scorer: Scorer<V>, net: Net): (r: Result<Scores>)
    requires IsOrderOf(order, b.entities.Keys)
    ensures r.Failure? <==> b.entityDataKey !in b.entities
    ensures r.Success? ==>
              r.value.Keys == {b.entityDataKey} &&
              var row := InitialRow(b, order, scorer, net);
              forall k :: (k in r.value[b.entityDataKey] <==> k in row && row[k] > THRESHOLD) &&
                          (k in r.value[b.entityDataKey] ==> r.value[b.entityDataKey][k] == row[k])
  {
    if b.entityDataKey !in b.entities then Failure(NoSuchElement)
    else
      var c := b.entityDataKey;
      Success(TrimCenter(map[c := InitialRow(b, order, scorer, net)], c))
  }

  /** When the network fails twice, every entity of the block matches the center with score 1.0. */
  lemma {:induction false} InitializedFallback<V>(b: Block<V>, order: seq<EntityDataKey>, scorer: Scorer<V>, net: Net)
    requires IsOrderOf(order, b.entities.Keys)
    requires b.entityDataKey in b.entities
    requires net(InitialFeatures(b, order, scorer), 0).None? && net(InitialFeatures(b, order, scorer), 1).None?
    ensures var r := Initialized(b, order, scorer, net);
            r.Success? && r.value[b.entityDataKey].Keys == b.entities.Keys &&
            forall k :: k in b.entities ==> r.value[b.entityDataKey][k] == 1.0
  {
    var scores := GetModelScore(net, InitialFeatures(b, order, scorer));
    var row := InitialRow(b, order, scorer, net);
    var r := Initialized(b, order, scorer, net);
    forall k | k in b.entities
      ensures k in row && row[k] == 1.0
    {
      var i :| 0 <= i < |order| && order[i] == k;
      assert i < |scores|;
    }
  }

  // --------------------------------------------------------------------- match

  /** The features handed to the network, one row per key pair. */
  function PairFeatures<V(==)>(values: map<EntityDataKey, Entity<V>>, keys: seq<(EntityDataKey, EntityDataKey)>, scorer: Scorer<V>): (r: seq<Features>)
    requires forall i :: 0 <= i < |keys| ==> keys[i].0 in values && keys[i].1 in values
    ensures |r| == |keys|
  {
    seq(|keys|, i requires 0 <= i < |keys| =>
      ExtractFeatures(scorer, ExtractProperties(values[keys[i].0], scorer.show), ExtractProperties(values[keys[i].1], scorer.show)))
  }

  /** The pairs (k, d) for each distinct d of a neighbourhood, in its order. */
  function PairsWith(k: EntityDataKey, ds: seq<EntityDataKey>): (r: seq<(EntityDataKey, EntityDataKey)>)
    ensures |r| == |ds|
    ensures forall j :: 0 <= j < |ds| ==> r[j] == (k, ds[j])
  {
    seq(|ds|, j requires 0 <= j < |ds| => (k, ds[j]))
  }

  /** The pairs of entity order[i] with the distinct members of its neighbourhood. */
  function FeatureRows(order: seq<EntityDataKey>, nbrs: map<EntityDataKey, seq<EntityDataKey>>): (r: seq<seq<(EntityDataKey, EntityDataKey)>>)
    requires forall k :: k in order ==> k in nbrs
    ensures |r| == |order|
    ensures forall i :: 0 <= i < |order| ==> r[i] == PairsWith(order[i], Dedup(nbrs[order[i]]))
  {
    seq(|order|, i requires 0 <= i < |order| => PairsWith(order[i], Dedup(nbrs[order[i]])))
  }

  /**
   * The feature keys of computeResults: for each entity in order, the pairs
   * with each distinct member of its neighbourhood (a neighbourhood becomes a
   * map keyed by its members, so a repeated member counts once, in the place
   * it first took).
   */
  function FeatureKeys(order: seq<EntityDataKey>, nbrs: map<EntityDataKey, seq<EntityDataKey>>): seq<(EntityDataKey, EntityDataKey)>
    requires forall k :: k in order ==> k in nbrs
  {
    Flatten(FeatureRows(order, nbrs))
  }

  /** The feature keys are exactly the pairs of an entity with a member of its neighbourhood. */
  lemma FeatureKeysMembers(order: seq<EntityDataKey>, nbrs: map<EntityDataKey, seq<EntityDataKey>>)
    requires forall k :: k in order ==> k in nbrs
    ensures forall p :: p in FeatureKeys(order, nbrs) <==> p.0 in order && p.1 in nbrs[p.0]
  {
    var rows := FeatureRows(order, nbrs);
    FlattenMembers(rows);
    forall p | p in FeatureKeys(order, nbrs)
      ensures p.0 in order && p.1 in nbrs[p.0]
    {
      var i :| 0 <= i < |rows| && p in rows[i];
      var j :| 0 <= j < |rows[i]| && rows[i][j] == p;
    }
    forall p: (EntityDataKey, EntityDataKey) | p.0 in order && p.1 in nbrs[p.0]
      ensures p in FeatureKeys(order, nbrs)
    {
      var i :| 0 <= i < |order| && order[i] == p.0;
      var ds := Dedup(nbrs[order[i]]);
      var j :| 0 <= j < |ds| && ds[j] == p.1;
      assert rows[i][j] == p;
    }
  }

  /** Distinct entities give distinct feature keys. */
  lemma FeatureKeysDistinct(order: seq<EntityDataKey>, nbrs: map<EntityDataKey, seq<EntityDataKey>>)
    requires forall k :: k in order ==> k in nbrs
    requires Distinct(order)
    ensures Distinct(FeatureKeys(order, nbrs))
  {
    var rows := FeatureRows(order, nbrs);
    forall i | 0 <= i < |rows|
      ensures Distinct(rows[i])
    {
      var ds := Dedup(nbrs[order[i]]);
      var row: seq<(EntityDataKey, EntityDataKey)> := rows[i];
      assert forall a, b :: 0 <= a < b < |ds| ==> row[a].1 != row[b].1;
    }
    forall i, j, x: (EntityDataKey, EntityDataKey) | 0 <= i < j < |rows| && x in rows[i]
      ensures x !in rows[j]
    {
      assert x.0 == order[i];
    }
    FlattenDistinct(rows);
  }

  /** When every neighbourhood is the same distinct sequence, pair (i, j) sits at row-major index Offset(i, n) + j. */
  lemma FeatureKeysSquareAt(rows: seq<EntityDataKey>, cols: seq<EntityDataKey>, nbrs: map<EntityDataKey, seq<EntityDataKey>>, i: nat, j: nat)
    requires forall k :: k in rows ==> k in nbrs && nbrs[k] == cols
    requires Distinct(cols)
    requires i < |rows| && j < |cols|
    ensures |FeatureKeys(rows, nbrs)| == Offset(|rows|, |cols|)
    ensures Offset(i, |cols|) + j < |FeatureKeys(rows, nbrs)|
    ensures FeatureKeys(rows, nbrs)[Offset(i, |cols|) + j] == (rows[i], cols[j])
  {
    var m := FeatureRows(rows, nbrs);
    SharedNeighborhoodRows(rows, cols, nbrs);
    FlattenUniform(m, |cols|, i, j);
  }

  /** With one distinct neighbourhood shared by every entity, each feature row pairs its entity with that neighbourhood. */
  lemma SharedNeighborhoodRows(rows: seq<EntityDataKey>, cols: seq<EntityDataKey>, nbrs: map<EntityDataKey, seq<EntityDataKey>>)
    requires forall k :: k in rows ==> k in nbrs && nbrs[k] == cols
    requires Distinct(cols)
    ensures forall k :: 0 <= k < |rows| ==> FeatureRows(rows, nbrs)[k] == PairsWith(rows[k], cols)
  {
    assert Dedup(cols) == cols;
  }

  /** Each score zipped with its key pair; the shorter of the two decides the length. */
  function ScoredPairs(scores: seq<real>, keys: seq<(EntityDataKey, EntityDataKey)>): (r: seq<ResultSet>)
    ensures |r| == if |scores| < |keys| then |scores| else |keys|
    ensures forall i :: 0 <= i < |r| ==> r[i] == ResultSet(keys[i].0, keys[i].1, scores[i])
  {
    var n := if |scores| < |keys| then |scores| else |keys|;
    seq(n, i requires 0 <= i < n => ResultSet(keys[i].0, keys[i].1, scores[i]))
  }

  /** Positive feedback, as score 1.0 in both directions. */
  function PositiveMatches(feedback: seq<(EntityDataKey, EntityDataKey)>): (r: seq<ResultSet>)
    ensures |r| == 2 * |feedback|
    ensures forall i :: 0 <= i < |feedback| ==>
              r[i] == ResultSet(feedback[i].0, feedback[i].1, 1.0) &&
              r[|feedback| + i] == ResultSet(feedback[i].1, feedback[i].0, 1.0)
  {
    seq(|feedback|, i requires 0 <= i < |feedback| => ResultSet(feedback[i].0, feedback[i].1, 1.0)) +
    seq(|feedback|, i requires 0 <= i < |feedback| => ResultSet(feedback[i].1, feedback[i].0, 1.0))
  }

  /**
   * computeResults: with no neighbourhoods only the positive feedback;
   * otherwise the network's score for every feature key, then the positive
   * feedback.
   */
  function ComputeResults<V(==)>(values: map<EntityDataKey, Entity<V>>, order: seq<EntityDataKey>,
                                 nbrs: map<EntityDataKey, seq<EntityDataKey>>,
                                 positives: seq<(EntityDataKey, EntityDataKey)>,
                                 scorer: Scorer<V>, net: Net): (r: seq<ResultSet>)
    requires IsOrderOf(order, nbrs.Keys)
    requires forall k :: k in nbrs ==> k in values && forall d :: d in nbrs[k] ==> d in values
    ensures |nbrs| == 0 ==> r == PositiveMatches(positives)
    ensures forall x :: x in r ==> x in PositiveMatches(positives) || (x.lhs in nbrs && x.rhs in nbrs[x.lhs])
  {
    var positiveMatches := PositiveMatches(positives);
    if |nbrs| == 0 then positiveMatches
    else
      var keys := FeatureKeys(order, nbrs);
      FeatureKeysMembers(order, nbrs);
      var scored := ScoredPairs(GetModelScore(net, PairFeatures(values, keys, scorer)), keys);
      assert forall x :: x in scored ==> (x.lhs, x.rhs) in keys;
      scored + positiveMatches
  }

  /** The score of the first result for the pair (l, k), if there is one. */
  function FirstScore(results: seq<ResultSet>, l: EntityDataKey, k: EntityDataKey): (r: Option<real>)
    ensures r.Some? ==> ResultSet(l, k, r.value) in results
    ensures r.None? ==> forall x :: x in results ==> x.lhs != l || x.rhs != k
  {
    if results == [] then None
    else if results[0].lhs == l && results[0].rhs == k then Some(results[0].score)
    else FirstScore(results[1..], l, k)
  }

  /** A result that no earlier result shares its pair with gives the first score. */
  lemma {:induction false} FirstScoreAt(results: seq<ResultSet>, i: nat)
    requires i < |results|
    requires forall j :: 0 <= j < i ==> results[j].lhs != results[i].lhs || results[j].rhs != results[i].rhs
    ensures FirstScore(results, results[i].lhs, results[i].rhs) == Some(results[i].score)
  {
    if i > 0 {
      assert results[1..][i - 1] == results[i];
      FirstScoreAt(results[1..], i - 1);
    }
  }

  /**
   * The grouping of match: results grouped by lhs, then by rhs, keeping the
   * score of the first result for each pair.
   */
  function GroupFirst(results: seq<ResultSet>): (r: Scores)
    ensures forall l, k :: (l in r && k in r[l]) <==> FirstScore(results, l, k).Some?
    ensures forall l, k :: l in r && k in r[l] ==> r[l][k] == FirstScore(results, l, k).value
    ensures forall l :: l in r ==> r[l] != map[]
  {
    if results == [] then map[]
    else
      var x := results[0];
      var rest := GroupFirst(results[1..]);
      var row := if x.lhs in rest then rest[x.lhs] else map[];
      var r := rest[x.lhs := row[x.rhs := x.score]];
      assert x.rhs in r[x.lhs];
      r
  }

  /** The neighbourhoods of match: every key of the block, for each key (no feedback is consulted). */
  function MatchNeighborhoods<V(==)>(b: Block<V>, order: seq<EntityDataKey>): (r: map<EntityDataKey, seq<EntityDataKey>>)
    ensures forall k :: k in r <==> k in b.entities && order != []
    ensures forall k :: k in r ==> r[k] == order
  {
    var all := map k | k in b.entities :: Filter(order, _ => true);
    var nonEmpty := map k | k in all && |all[k]| > 0 :: all[k];
    assert forall k :: k in all ==> all[k] == order by {
      FilterAll(order);
    }
    nonEmpty
  }

  lemma FilterAll<T(!new)>(s: seq<T>)
    ensures Filter(s, _ => true) == s
  {
    FilterAllPass(s, _ => true);
  }

  /** The feature keys match scores: every pair of the block's keys, row by row. */
  function MatchKeys<V(==)>(b: Block<V>, order: seq<EntityDataKey>): seq<(EntityDataKey, EntityDataKey)>
    requires IsOrderOf(order, b.entities.Keys)
  {
    FeatureKeys(order, MatchNeighborhoods(b, order))
  }

  /** There are n * n feature keys (see OffsetIsProduct), no two alike. */
  lemma MatchKeysShape<V>(b: Block<V>, order: seq<EntityDataKey>)
    requires IsOrderOf(order, b.entities.Keys)
    ensures |MatchKeys(b, order)| == Offset(|order|, |order|)
    ensures Distinct(MatchKeys(b, order))
  {
    var nbrs := MatchNeighborhoods(b, order);
    if order != [] {
      FeatureKeysSquareAt(order, order, nbrs, 0, 0);
    }
    FeatureKeysDistinct(order, nbrs);
  }

  /** Every feature key is a pair of the block's keys. */
  lemma MatchKeysMembers<V>(b: Block<V>, order: seq<EntityDataKey>)
    requires IsOrderOf(order, b.entities.Keys)
    ensures forall i :: 0 <= i < |MatchKeys(b, order)| ==>
              MatchKeys(b, order)[i].0 in b.entities && MatchKeys(b, order)[i].1 in b.entities
  {
    var nbrs := MatchNeighborhoods(b, order);
    var keys := MatchKeys(b, order);
    FeatureKeysMembers(order, nbrs);
    forall i | 0 <= i < |keys|
      ensures keys[i].0 in b.entities && keys[i].1 in b.entities
    {
      var p := keys[i];
      assert p in FeatureKeys(order, nbrs);
      assert p.0 in order && p.1 in nbrs[p.0];
    }
  }

  /** Pair (order[i], order[j]) is feature key number i * n + j (see OffsetIsProduct). */
  lemma MatchKeysAt<V>(b: Block<V>, order: seq<EntityDataKey>, i: nat, j: nat)
    requires IsOrderOf(order, b.entities.Keys)
    requires i < |order| && j < |order|
    ensures Offset(i, |order|) + j < |MatchKeys(b, order)|
    ensures MatchKeys(b, order)[Offset(i, |order|) + j] == (order[i], order[j])
  {
    FeatureKeysSquareAt(order, order, MatchNeighborhoods(b, order), i, j);
  }

  /** The features match feeds the network, one row per feature key. */
  function MatchFeatures<V(==)>(b: Block<V>, order: seq<EntityDataKey>, scorer: Scorer<V>): (r: seq<Features>)
    requires IsOrderOf(order, b.entities.Keys)
    ensures |r| == |MatchKeys(b, order)|
  {
    MatchKeysMembers(b, order);
    PairFeatures(b.entities, MatchKeys(b, order), scorer)
  }

  /** match: every pair of the block scored by the network, grouped by lhs then rhs. */
  function MatchScores<V(==)>(b: Block<V>, order: seq<EntityDataKey>, scorer: Scorer<V>, net: Net): (r: Scores)
    requires IsOrderOf(order, b.entities.Keys)
    ensures r.Keys <= b.entities.Keys && forall l :: l in r ==> r[l].Keys <= b.entities.Keys
  {
    var results := ComputeResults(b.entities, order, MatchNeighborhoods(b, order), [], scorer, net);
    MatchResultsInBlock(b, order, scorer, net);
    GroupFirstKeys(results, b.entities.Keys);
    GroupFirst(results)
  }

  /** The results match groups: each feature key with its score. */
  lemma MatchResults<V>(b: Block<V>, order: seq<EntityDataKey>, scorer: Scorer<V>, net: Net)
    requires IsOrderOf(order, b.entities.Keys)
    ensures ComputeResults(b.entities, order, MatchNeighborhoods(b, order), [], scorer, net) ==
            ScoredPairs(GetModelScore(net, MatchFeatures(b, order, scorer)), MatchKeys(b, order))
  {
    if order == [] {
      MatchResultsEmpty(b, order, scorer, net);
    } else {
      MatchResultsNonEmpty(b, order, scorer, net);
    }
  }

  /** An empty block has neither neighbourhoods nor feature keys, so no results. */
  lemma MatchResultsEmpty<V>(b: Block<V>, order: seq<EntityDataKey>, scorer: Scorer<V>, net: Net)
    requires IsOrderOf(order, b.entities.Keys) && order == []
    ensures ComputeResults(b.entities, order, MatchNeighborhoods(b, order), [], scorer, net) == []
    ensures ScoredPairs(GetModelScore(net, MatchFeatures(b, order, scorer)), MatchKeys(b, order)) == []
  {
    var nbrs := MatchNeighborhoods(b, order);
    assert nbrs == map[];
    assert PositiveMatches([]) == [];
    assert MatchKeys(b, order) == [];
  }

  /** For a non-empty block, match scores exactly the feature keys and has no positive feedback to add. */
  lemma MatchResultsNonEmpty<V>(b: Block<V>, order: seq<EntityDataKey>, scorer: Scorer<V>, net: Net)
    requires IsOrderOf(order, b.entities.Keys) && order != []
    ensures ComputeResults(b.entities, order, MatchNeighborhoods(b, order), [], scorer, net) ==
            ScoredPairs(GetModelScore(net, MatchFeatures(b, order, scorer)), MatchKeys(b, order))
  {
    var nbrs := MatchNeighborhoods(b, order);
    assert order[0] in nbrs;
    var scored := ScoredPairs(GetModelScore(net, MatchFeatures(b, order, scorer)), MatchKeys(b, order));
    assert PositiveMatches([]) == [];
    assert ComputeResults(b.entities, order, nbrs, [], scorer, net) == scored + [];
  }

  /** Grouping mentions no key that the results do not mention. */
  lemma GroupFirstKeys(results: seq<ResultSet>, keys: set<EntityDataKey>)
    requires forall x :: x in results ==> x.lhs in keys && x.rhs in keys
    ensures var r := GroupFirst(results);
            r.Keys <= keys && forall l :: l in r ==> r[l].Keys <= keys
  {
    var r := GroupFirst(results);
    forall l, k | l in r && k in r[l]
      ensures l in keys && k in keys
    {
      assert ResultSet(l, k, FirstScore(results, l, k).value) in results;
    }
  }

  /** Every result of match pairs two of the block's entities. */
  lemma MatchResultsInBlock<V>(b: Block<V>, order: seq<EntityDataKey>, scorer: Scorer<V>, net: Net)
    requires IsOrderOf(order, b.entities.Keys)
    ensures forall x :: x in ComputeResults(b.entities, order, MatchNeighborhoods(b, order), [], scorer, net) ==>
              x.lhs in b.entities && x.rhs in b.entities
  {
    var nbrs := MatchNeighborhoods(b, order);
    NeighborhoodsInBlock(b, order);
    ResultsWithin(ComputeResults(b.entities, order, nbrs, [], scorer, net), nbrs, b.entities.Keys);
  }

  lemma NeighborhoodsInBlock<V>(b: Block<V>, order: seq<EntityDataKey>)
    requires IsOrderOf(order, b.entities.Keys)
    ensures var n := MatchNeighborhoods(b, order);
      forall k :: k in n ==> k in b.entities.Keys && forall d :: d in n[k] ==> d in b.entities.Keys
  {
  }

  /** Results drawn from neighbourhoods of a key set, with no feedback, pair keys of that set. */
  lemma ResultsWithin(results: seq<ResultSet>, nbrs: map<EntityDataKey, seq<EntityDataKey>>, keys: set<EntityDataKey>)
    requires forall x :: x in results ==> x in PositiveMatches([]) || (x.lhs in nbrs && x.rhs in nbrs[x.lhs])
    requires forall k :: k in nbrs ==> k in keys && forall d :: d in nbrs[k] ==> d in keys
    ensures forall x :: x in results ==> x.lhs in keys && x.rhs in keys
  {
    assert |PositiveMatches([])| == 0;
  }

  /** Grouping scored pairs whose keys are distinct gives each key pair its own score. */
  lemma GroupScoredPairs(results: seq<ResultSet>, scores: seq<real>, keys: seq<(EntityDataKey, EntityDataKey)>,
                         idx: nat, l: EntityDataKey, k: EntityDataKey)
    requires results == ScoredPairs(scores, keys) && Distinct(keys)
    requires idx < |scores| && idx < |keys| && keys[idx] == (l, k)
    ensures l in GroupFirst(results) && k in GroupFirst(results)[l] && GroupFirst(results)[l][k] == scores[idx]
  {
    forall m | 0 <= m < idx
      ensures results[m].lhs != results[idx].lhs || results[m].rhs != results[idx].rhs
    {
      assert keys[m] != keys[idx];
    }
    FirstScoreAt(results, idx);
  }

  /**
   * Feature key number idx is scored with the network's output number idx;
   * by MatchKeysAt that is the pair (order[i], order[j]) for idx = i * n + j.
   */
  lemma MatchScoresBinding<V>(b: Block<V>, order: seq<EntityDataKey>, scorer: Scorer<V>, net: Net, idx: nat)
    requires IsOrderOf(order, b.entities.Keys)
    requires idx < |MatchKeys(b, order)| && idx < |GetModelScore(net, MatchFeatures(b, order, scorer))|
    ensures var r := MatchScores(b, order, scorer, net);
            var key := MatchKeys(b, order)[idx];
            key.0 in r && key.1 in r[key.0] &&
            r[key.0][key.1] == GetModelScore(net, MatchFeatures(b, order, scorer))[idx]
  {
    var key := MatchKeys(b, order)[idx];
    MatchResults(b, order, scorer, net);
    MatchKeysShape(b, order);
    GroupScoredPairs(ComputeResults(b.entities, order, MatchNeighborhoods(b, order), [], scorer, net),
                     GetModelScore(net, MatchFeatures(b, order, scorer)), MatchKeys(b, order),
                     idx, key.0, key.1);
  }

  /** Every pair of the block's keys is one of the feature keys. */
  lemma MatchKeysCover<V>(b: Block<V>, order: seq<EntityDataKey>, l: EntityDataKey, k: EntityDataKey)
    requires IsOrderOf(order, b.entities.Keys)
    requires l in b.entities && k in b.entities
    ensures exists idx :: 0 <= idx < |MatchKeys(b, order)| && MatchKeys(b, order)[idx] == (l, k)
  {
    var i :| 0 <= i < |order| && order[i] == l;
    var j :| 0 <= j < |order| && order[j] == k;
    MatchKeysAt(b, order, i, j);
  }

  /** When the network fails twice, a pair of the block's keys is scored 1.0. */
  lemma MatchScoresFallbackAt<V>(b: Block<V>, order: seq<EntityDataKey>, scorer: Scorer<V>, net: Net,
                                 l: EntityDataKey, k: EntityDataKey)
    requires IsOrderOf(order, b.entities.Keys)
    requires net(MatchFeatures(b, order, scorer), 0).None? && net(MatchFeatures(b, order, scorer), 1).None?
    requires l in b.entities && k in b.entities
    ensures var r := MatchScores(b, order, scorer, net);
            l in r && k in r[l] && r[l][k] == 1.0
  {
    var keys := MatchKeys(b, order);
    MatchKeysCover(b, order, l, k);
    var idx :| 0 <= idx < |keys| && keys[idx] == (l, k);
    MatchScoresBinding(b, order, scorer, net, idx);
  }

  /** A two-level map over keys that holds 1.0 for every pair of them holds nothing else. */
  lemma EveryPairOne(r: Scores, keys: set<EntityDataKey>)
    requires r.Keys <= keys && forall l :: l in r ==> r[l].Keys <= keys
    requires forall l, k :: l in keys && k in keys ==> l in r && k in r[l] && r[l][k] == 1.0
    ensures r.Keys == keys
    ensures forall l :: l in r ==> r[l].Keys == keys && forall k :: k in r[l] ==> r[l][k] == 1.0
  {
    forall l | l in keys ensures l in r {
      PairPresent(r, keys, l, l);
    }
    SameKeys(r, keys);
    forall l | l in r ensures r[l].Keys == keys && forall k :: k in r[l] ==> r[l][k] == 1.0 {
      RowOfOnes(r, keys, l);
    }
  }

  lemma PairPresent(r: Scores, keys: set<EntityDataKey>, l: EntityDataKey, k: EntityDataKey)
    requires forall l, k :: l in keys && k in keys ==> l in r && k in r[l] && r[l][k] == 1.0
    requires l in keys && k in keys
    ensures l in r && k in r[l] && r[l][k] == 1.0
  {
  }

  /** One row of such a map: every key, each scored 1.0. */
  lemma RowOfOnes(r: Scores, keys: set<EntityDataKey>, l: EntityDataKey)
    requires l in r && r.Keys <= keys && r[l].Keys <= keys
    requires forall l, k :: l in keys && k in keys ==> l in r && k in r[l] && r[l][k] == 1.0
    ensures r[l].Keys == keys && forall k :: k in r[l] ==> r[l][k] == 1.0
  {
    var row := r[l];
    forall k | k in keys ensures k in row {
      PairPresent(r, keys, l, k);
    }
    SameKeys(row, keys);
    forall k | k in row ensures row[k] == 1.0 {
      PairPresent(r, keys, l, k);
    }
  }

  /** When the network fails twice, every pair of the block is scored 1.0. */
  lemma MatchScoresFallback<V>(b: Block<V>, order: seq<EntityDataKey>, scorer: Scorer<V>, net: Net)
    requires IsOrderOf(order, b.entities.Keys)
    requires net(MatchFeatures(b, order, scorer), 0).None? && net(MatchFeatures(b, order, scorer), 1).None?
    ensures var r := MatchScores(b, order, scorer, net);
            r.Keys == b.entities.Keys &&
            forall l :: l in r ==> r[l].Keys == b.entities.Keys && forall k :: k in r[l] ==> r[l][k] == 1.0
  {
    var r := MatchScores(b, order, scorer, net);
    forall l, k | l in b.entities && k in b.entities
      ensures l in r && k in r[l] && r[l][k] == 1.0
    {
      MatchScoresFallbackAt(b, order, scorer, net, l, k);
    }
    EveryPairOne(r, b.entities.Keys);
  }

  class SocratesMatcher<V(==)> {
    var model: Net
    const scorer: Scorer<V>

    constructor (model: Net, scorer: Scorer<V>)
      ensures this.model == model && this.scorer == scorer
    {
      this.model := model;
      this.scorer := scorer;
    }

    method UpdateMatchingModel(model: Net)
      modifies this
      ensures this.model == model
    {
      this.model := model;
    }

    /** initialize; null where the source throws NoSuchElementException. */
    method Initialize(b: Block<V>, order: seq<EntityDataKey>) returns (pm: PairwiseMatch?)
      requires IsOrderOf(order, b.entities.Keys)
      ensures pm == null <==> Initialized(b, order, scorer, model).Failure?
      ensures pm != null ==> fresh(pm) && pm.candidate == b.entityDataKey &&
                             pm.matches == Initialized(b, order, scorer, model).value
    {
      if b.entityDataKey !in b.entities {
        return null;
      }
      var c := b.entityDataKey;
      pm := new PairwiseMatch(c, map[c := InitialRow(b, order, scorer, model)]);
      TrimAndMerge(pm);
    }

    method Match(b: Block<V>, order: seq<EntityDataKey>) returns (pm: PairwiseMatch)
      requires IsOrderOf(order, b.entities.Keys)
      ensures fresh(pm) && pm.candidate == b.entityDataKey && pm.matches == MatchScores(b, order, scorer, model)
    {
      pm := new PairwiseMatch(b.entityDataKey, MatchScores(b, order, scorer, model));
    }
  }
}
