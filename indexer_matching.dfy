/**
 * The indexer's SocratesMatcher: scores a block with one network call per
 * pair of entities, without retrying, taking the first number of the output.
 */
module IndexerMatching {
  import opened Wrappers
  import opened Edm
  import opened Seqs
  import opened Matching

  /**
   * getModelScore: one attempt only; a failing network, or an empty output
   * (where `getDouble(0)` fails), fails the score.
   */
  function ModelScore(net: Net, features: Features): (r: Result<real>)
    ensures r.Success? <==> net([features], 0).Some? && |net([features], 0).value| > 0
    ensures r.Success? ==> r.value == net([features], 0).value[0]
    ensures net([features], 0).None? ==> r == Failure(ExternalFailure)
  {
    match net([features], 0)
    case None => Failure(ExternalFailure)
    case Some(out) => if |out| == 0 then Failure(IndexOutOfBounds) else Success(out[0])
  }

  /** No second attempt: the score depends on the network's first attempt alone. */
  lemma ModelScoreSingleAttempt(net: Net, other: Net, features: Features)
    requires other([features], 0) == net([features], 0)
    ensures ModelScore(other, features) == ModelScore(net, features)
  {
  }

  /**
   * Kotlin's `mapValues` over the keys in iteration order with a transform
   * that may throw: the first failure in that order ends the whole map.
   */
  function MapValues<T>(keys: seq<EntityDataKey>, f: EntityDataKey --> Result<T>): (r: Result<map<EntityDataKey, T>>)
    requires forall i :: 0 <= i < |keys| ==> f.requires(keys[i])
    ensures r.Success? <==> forall i :: 0 <= i < |keys| ==> f(keys[i]).Success?
    ensures r.Success? ==> r.value.Keys == SetOf(keys)
    ensures r.Success? && Distinct(keys) ==> forall i :: 0 <= i < |keys| ==> r.value[keys[i]] == f(keys[i]).value
    ensures r.Failure? ==> exists i :: 0 <= i < |keys| && f(keys[i]).Failure? && r.error == f(keys[i]).error &&
                                       forall j :: 0 <= j < i ==> f(keys[j]).Success?
  {
    if keys == [] then Success(map[])
    else
      var head := f(keys[0]);
      var rest := MapValues(keys[1..], f);
      assert forall i :: 0 <= i < |keys[1..]| ==> keys[1..][i] == keys[i + 1];
      if head.Failure? then Failure(head.error)
      else if rest.Failure? then
        assert exists i :: 1 <= i < |keys| && f(keys[i]).Failure? && rest.error == f(keys[i]).error &&
                           forall j :: 0 <= j < i ==> f(keys[j]).Success? by {
          var i :| 0 <= i < |keys[1..]| && f(keys[1..][i]).Failure? && rest.error == f(keys[1..][i]).error &&
                   forall j :: 0 <= j < i ==> f(keys[1..][j]).Success?;
          FailureShift(keys, f, i);
        }
        Failure(rest.error)
      else
        assert SetOf(keys) == {keys[0]} + SetOf(keys[1..]);
        assert Distinct(keys) ==> Distinct(keys[1..]) && keys[0] !in keys[1..];
        Success(rest.value[keys[0] := head.value])
  }

  /** A first failure at position i of the tail is a first failure at i + 1 of a sequence whose head succeeds. */
  lemma FailureShift<T>(keys: seq<EntityDataKey>, f: EntityDataKey --> Result<T>, i: nat)
    requires forall i :: 0 <= i < |keys| ==> f.requires(keys[i])
    requires 0 < |keys| && f(keys[0]).Success? && i < |keys[1..]|
    requires forall j :: 0 <= j < i ==> f(keys[1..][j]).Success?
    ensures keys[i + 1] == keys[1..][i]
    ensures forall j :: 0 <= j < i + 1 ==> f(keys[j]).Success?
  {
    forall j | 1 <= j < i + 1 ensures f(keys[j]).Success? {
      assert keys[j] == keys[1..][j - 1];
    }
  }

  /** The score of entity k against entity l of the block, from their extracted properties. */
  function PairScore<V(==)>(b: Block<V>, scorer: Scorer<V>, net: Net, l: EntityDataKey, k: EntityDataKey): Result<real>
    requires l in b.entities && k in b.entities
  {
    ModelScore(net, ExtractFeatures(scorer, ExtractProperties(b.entities[l], scorer.show),
                                    ExtractProperties(b.entities[k], scorer.show)))
  }

  /**
   * The score of entity k against the center. The center's properties are
   * looked up with a nullable `[]`; a block without its center hands null
   * to the metric, which fails.
   */
  function CenterScore<V(==)>(b: Block<V>, scorer: Scorer<V>, net: Net, k: EntityDataKey): Result<real>
    requires k in b.entities
  {
    if b.entityDataKey !in b.entities then Failure(NullPointer) else PairScore(b, scorer, net, b.entityDataKey, k)
  }

  /** The center's row before trimming: every entity of the block, the center included, scored against the center. */
  function CenterRow<V(==)>(b: Block<V>, order: seq<EntityDataKey>, scorer: Scorer<V>, net: Net): (r: Result<Row>)
    requires IsOrderOf(order, b.entities.Keys)
    ensures r.Success? <==> forall k :: k in b.entities ==> CenterScore(b, scorer, net, k).Success?
    ensures r.Success? ==> r.value.Keys == b.entities.Keys &&
                           forall k :: k in r.value ==> r.value[k] == CenterScore(b, scorer, net, k).value
  {
    var row := MapValues(order, k requires k in b.entities => CenterScore(b, scorer, net, k));
    assert row.Success? ==> forall k :: k in b.entities ==> CenterScore(b, scorer, net, k).Success? by {
      if row.Success? {
        forall k | k in b.entities ensures CenterScore(b, scorer, net, k).Success? {
          var i :| 0 <= i < |order| && order[i] == k;
        }
      }
    }
    assert row.Success? ==> forall k :: k in row.value ==> row.value[k] == CenterScore(b, scorer, net, k).value by {
      if row.Success? {
        forall k | k in row.value ensures row.value[k] == CenterScore(b, scorer, net, k).value {
          var i :| 0 <= i < |order| && order[i] == k;
        }
      }
    }
    row
  }

  /** initialize: the trimmed center row as the only row, or the failure of the first entity that could not be scored. */
  function Initialized<V(==)>(b: Block<V>, order: seq<EntityDataKey>, scorer: Scorer<V>, net: Net): (r: Result<Scores>)
    requires IsOrderOf(order, b.entities.Keys)
    ensures r.Success? <==> CenterRow(b, order, scorer, net).Success?
    ensures r.Success? ==> r.value == TrimCenter(map[b.entityDataKey := CenterRow(b, order, scorer, net).value], b.entityDataKey)
  {
    var row := CenterRow(b, order, scorer, net);
    if row.Failure? then Failure(row.error)
    else Success(TrimCenter(map[b.entityDataKey := row.value], b.entityDataKey))
  }

  /**
   * initialize yields a single row, keyed by the center, holding exactly
   * the entities whose score against the center is above THRESHOLD.
   */
  lemma InitializedCenterRow<V>(b: Block<V>, order: seq<EntityDataKey>, scorer: Scorer<V>, net: Net)
    requires IsOrderOf(order, b.entities.Keys)
    ensures var r := Initialized(b, order, scorer, net);
            r.Success? ==>
              r.value.Keys == {b.entityDataKey} &&
              forall k :: (k in r.value[b.entityDataKey] <==>
                             k in b.entities && CenterScore(b, scorer, net, k).value > THRESHOLD) &&
                          (k in r.value[b.entityDataKey] ==> r.value[b.entityDataKey][k] == CenterScore(b, scorer, net, k).value)
  {
  }

  /** A block without its center cannot be initialized, unless it is empty. */
  lemma InitializedMissingCenter<V>(b: Block<V>, order: seq<EntityDataKey>, scorer: Scorer<V>, net: Net)
    requires IsOrderOf(order, b.entities.Keys)
    requires b.entityDataKey !in b.entities
    ensures Initialized(b, order, scorer, net).Success? <==> b.entities == map[]
  {
    if b.entities != map[] {
      var k :| k in b.entities;
      assert CenterScore(b, scorer, net, k).Failure?;
    }
  }

  /** The row of the full matrix for entity l: every entity of the block scored against l. */
  function MatchRow<V(==)>(b: Block<V>, order: seq<EntityDataKey>, scorer: Scorer<V>, net: Net, l: EntityDataKey): (r: Result<Row>)
    requires IsOrderOf(order, b.entities.Keys) && l in b.entities
    ensures r.Success? <==> forall k :: k in b.entities ==> PairScore(b, scorer, net, l, k).Success?
    ensures r.Success? ==> r.value.Keys == b.entities.Keys &&
                           forall k :: k in r.value ==> r.value[k] == PairScore(b, scorer, net, l, k).value
  {
    var row := MapValues(order, k requires k in b.entities => PairScore(b, scorer, net, l, k));
    assert row.Success? ==> forall k :: k in b.entities ==> PairScore(b, scorer, net, l, k).Success? by {
      if row.Success? {
        forall k | k in b.entities ensures PairScore(b, scorer, net, l, k).Success? {
          var i :| 0 <= i < |order| && order[i] == k;
        }
      }
    }
    assert row.Success? ==> forall k :: k in row.value ==> row.value[k] == PairScore(b, scorer, net, l, k).value by {
      if row.Success? {
        forall k | k in row.value ensures row.value[k] == PairScore(b, scorer, net, l, k).value {
          var i :| 0 <= i < |order| && order[i] == k;
        }
      }
    }
    row
  }

  /** match: the rows of every entity of the block, in the block's order. */
  function MatchScores<V(==)>(b: Block<V>, order: seq<EntityDataKey>, scorer: Scorer<V>, net: Net): (r: Result<Scores>)
    requires IsOrderOf(order, b.entities.Keys)
    ensures r.Success? <==> forall l :: l in b.entities ==> MatchRow(b, order, scorer, net, l).Success?
    ensures r.Success? ==> r.value.Keys == b.entities.Keys &&
                           forall l :: l in r.value ==> r.value[l] == MatchRow(b, order, scorer, net, l).value
  {
    var rows := MapValues(order, l requires l in b.entities => MatchRow(b, order, scorer, net, l));
    assert rows.Success? ==> forall l :: l in b.entities ==> MatchRow(b, order, scorer, net, l).Success? by {
      if rows.Success? {
        forall l | l in b.entities ensures MatchRow(b, order, scorer, net, l).Success? {
          var i :| 0 <= i < |order| && order[i] == l;
        }
      }
    }
    assert rows.Success? ==> forall l :: l in rows.value ==> rows.value[l] == MatchRow(b, order, scorer, net, l).value by {
      if rows.Success? {
        forall l | l in rows.value ensures rows.value[l] == MatchRow(b, order, scorer, net, l).value {
          var i :| 0 <= i < |order| && order[i] == l;
        }
      }
    }
    rows
  }

  /**
   * match yields a square matrix: every entity of the block has a row, each
   * row holds every entity of the block (itself included), and each entry
   * is that pair's score.
   */
  lemma MatchSquare<V>(b: Block<V>, order: seq<EntityDataKey>, scorer: Scorer<V>, net: Net)
    requires IsOrderOf(order, b.entities.Keys)
    requires MatchScores(b, order, scorer, net).Success?
    ensures var m := MatchScores(b, order, scorer, net).value;
            m.Keys == b.entities.Keys &&
            forall l :: l in m ==>
              m[l].Keys == b.entities.Keys &&
              forall k :: k in m[l] ==> m[l][k] == PairScore(b, scorer, net, l, k).value
  {
  }

  /** match fails exactly when some pair of the block cannot be scored. */
  lemma MatchFails<V>(b: Block<V>, order: seq<EntityDataKey>, scorer: Scorer<V>, net: Net)
    requires IsOrderOf(order, b.entities.Keys)
    ensures MatchScores(b, order, scorer, net).Failure? <==>
            exists l, k :: l in b.entities && k in b.entities && PairScore(b, scorer, net, l, k).Failure?
  {
    if MatchScores(b, order, scorer, net).Failure? {
      FailedPair(b, order, scorer, net);
    } else {
      ScoredPairsSucceed(b, order, scorer, net);
    }
  }

  lemma FailedPair<V>(b: Block<V>, order: seq<EntityDataKey>, scorer: Scorer<V>, net: Net)
    requires IsOrderOf(order, b.entities.Keys)
    requires MatchScores(b, order, scorer, net).Failure?
    ensures exists l, k :: l in b.entities && k in b.entities && PairScore(b, scorer, net, l, k).Failure?
  {
    assert !(forall l :: l in b.entities ==> MatchRow(b, order, scorer, net, l).Success?);
    var l :| l in b.entities && MatchRow(b, order, scorer, net, l).Failure?;
    FailedPairInRow(b, order, scorer, net, l);
  }

  lemma FailedPairInRow<V>(b: Block<V>, order: seq<EntityDataKey>, scorer: Scorer<V>, net: Net, l: EntityDataKey)
    requires IsOrderOf(order, b.entities.Keys) && l in b.entities
    requires MatchRow(b, order, scorer, net, l).Failure?
    ensures exists k :: k in b.entities && PairScore(b, scorer, net, l, k).Failure?
  {
    assert !(forall k :: k in b.entities ==> PairScore(b, scorer, net, l, k).Success?);
  }

  lemma ScoredPairsSucceed<V>(b: Block<V>, order: seq<EntityDataKey>, scorer: Scorer<V>, net: Net)
    requires IsOrderOf(order, b.entities.Keys)
    requires MatchScores(b, order, scorer, net).Success?
    ensures forall l, k :: l in b.entities && k in b.entities ==> PairScore(b, scorer, net, l, k).Success?
  {
    forall l, k | l in b.entities && k in b.entities
      ensures PairScore(b, scorer, net, l, k).Success?
    {
      assert MatchRow(b, order, scorer, net, l).Success?;
    }
  }

  class SocratesMatcher<V(==)> {
    var model: Net
    const scorer: Scorer<V>

    constructor (model: Net, scorer: Scorer<V>)
      ensures this.model == model && this.scorer == scorer
    {
      this.model := model;
      this.scorer := scorer;
    }

    method UpdateMatchingModel(model: Net)
      modifies this
      ensures this.model == model
    {
      this.model := model;
    }

    /** initialize: the block's center with its trimmed row; null where scoring throws. */
    method Initialize(b: Block<V>, order: seq<EntityDataKey>) returns (pm: PairwiseMatch?)
      requires IsOrderOf(order, b.entities.Keys)
      ensures pm == null <==> Initialized(b, order, scorer, model).Failure?
      ensures pm != null ==> fresh(pm) && pm.candidate == b.entityDataKey &&
                             pm.matches == Initialized(b, order, scorer, model).value
    {
      var row := CenterRow(b, order, scorer, model);
      if row.Failure? {
        return null;
      }
      var c := b.entityDataKey;
      pm := new PairwiseMatch(c, map[c := row.value]);
      TrimAndMerge(pm);
    }

    /** match: the block's center with the full matrix; null where scoring throws. */
    method Match(b: Block<V>, order: seq<EntityDataKey>) returns (pm: PairwiseMatch?)
      requires IsOrderOf(order, b.entities.Keys)
      ensures pm == null <==> MatchScores(b, order, scorer, model).Failure?
      ensures pm != null ==> fresh(pm) && pm.candidate == b.entityDataKey &&
                             pm.matches == MatchScores(b, order, scorer, model).value
    {
      var scores := MatchScores(b, order, scorer, model);
      if scores.Failure? {
        return null;
      }
      pm := new PairwiseMatch(b.entityDataKey, scores.value);
    }
  }
}
