/**
 * What the linker's and the indexer's matchers share: blocks of entities,
 * property extraction, score matrices and the trimming of a block's center row.
 */
module Matching {
  import opened Wrappers
  import opened Edm

  /** The values of one entity, property type id to the set of its values. */
  type Entity<V(==)> = map<Uuid, set<V>>

  /** One entity's values as strings (a DelegatedStringSet per property). */
  type StringEntity = map<Uuid, set<string>>

  /** A block: the entity that was blocked and the entities blocking found for it, itself included. */
  datatype Block<V(==)> = Block(entityDataKey: EntityDataKey, entities: map<EntityDataKey, Entity<V>>)

  /** Scores of one entity against others. */
  type Row = map<EntityDataKey, real>

  /** A score matrix: lhs to rhs to score. */
  type Scores = map<EntityDataKey, Row>

  /** One row of the feature matrix handed to the network. */
  type Features = seq<real>

  /**
   * The matching network. `net(features, attempt)` is its output for the
   * feature matrix on the given attempt; None means `output` threw.
   */
  type Net = (seq<Features>, nat) -> Option<seq<real>>

  /**
   * The pieces of scoring that are not part of this model: the `toString`
   * of a property value and PersonMetric.pDistance.
   */
  datatype Scorer<!V> = Scorer(show: V -> string, pDistance: (StringEntity, StringEntity) -> seq<real>)

  /** Scores at or below THRESHOLD are trimmed from a block's center row. */
  const THRESHOLD: real := 0.9

  /** Every key that occurs in a score matrix, as a row or as a column. */
  function CollectKeys<T>(m: map<EntityDataKey, map<EntityDataKey, T>>): (r: set<EntityDataKey>)
    ensures forall k :: k in r <==> k in m || exists l :: l in m && k in m[l]
  {
    m.Keys + (set l, k | l in m && k in m[l] :: k)
  }

  /** The string form of every value of every property; equal strings collapse. */
  function ExtractProperties<V(==)>(entity: Entity<V>, show: V -> string): (r: StringEntity)
    ensures r.Keys == entity.Keys
    ensures forall p, s :: p in r ==> (s in r[p] <==> exists v :: v in entity[p] && show(v) == s)
  {
    map p | p in entity :: set v | v in entity[p] :: show(v)
  }

  /** The image of a set under a function is no larger than the set. */
  lemma {:induction false} ImageNoLarger<A, B>(s: set<A>, f: A -> B)
    ensures |set x | x in s :: f(x)| <= |s|
    decreases |s|
  {
    if s != {} {
      var x :| x in s;
      var rest := s - {x};
      ImageNoLarger(rest, f);
      assert (set y | y in s :: f(y)) == (set y | y in rest :: f(y)) + {f(x)};
    }
  }

  /** Extraction never yields more strings for a property than the property has values. */
  lemma ExtractPropertiesNoLarger<V>(entity: Entity<V>, show: V -> string, p: Uuid)
    requires p in entity
    ensures p in ExtractProperties(entity, show)
    ensures |ExtractProperties(entity, show)[p]| <= |entity[p]|
  {
    ImageNoLarger(entity[p], show);
  }

  /** extractFeatures: the person metric of two entities, each component scaled by 100. */
  function ExtractFeatures<V>(scorer: Scorer<V>, lhs: StringEntity, rhs: StringEntity): (r: Features)
    ensures |r| == |scorer.pDistance(lhs, rhs)|
    ensures forall i :: 0 <= i < |r| ==> r[i] == scorer.pDistance(lhs, rhs)[i] * 100.0
  {
    var d := scorer.pDistance(lhs, rhs);
    seq(|d|, i requires 0 <= i < |d| => d[i] * 100.0)
  }

  /** The entries of a row whose score is above THRESHOLD. */
  function Trim(row: Row): (r: Row)
    ensures forall k :: k in r <==> k in row && row[k] > THRESHOLD
    ensures forall k :: k in r ==> r[k] == row[k]
  {
    map k | k in row && row[k] > THRESHOLD :: row[k]
  }

  /**
   * trimAndMerge: the center's row keeps only its scores above THRESHOLD (an
   * empty row when it had none); every other row is left as it was.
   */
  function TrimCenter(matches: Scores, center: EntityDataKey): (r: Scores)
    ensures r.Keys == matches.Keys + {center}
    ensures forall k :: k in r && k != center ==> r[k] == matches[k]
    ensures forall k :: k in r[center] <==> center in matches && k in matches[center] && matches[center][k] > THRESHOLD
    ensures forall k :: k in r[center] ==> r[center][k] == matches[center][k]
  {
    matches[center := if center in matches then Trim(matches[center]) else map[]]
  }

  /** Trimming twice is trimming once. */
  lemma TrimCenterIdempotent(matches: Scores, center: EntityDataKey)
    ensures TrimCenter(TrimCenter(matches, center), center) == TrimCenter(matches, center)
  {
    var once := TrimCenter(matches, center);
    assert Trim(once[center]) == once[center];
  }

  /** The result of matching: the candidate and its score matrix, which trimAndMerge updates in place. */
  class PairwiseMatch {
    const candidate: EntityDataKey
    var matches: Scores

    constructor (candidate: EntityDataKey, matches: Scores)
      ensures this.candidate == candidate && this.matches == matches
    {
      this.candidate := candidate;
      this.matches := matches;
    }
  }

  /** trimAndMerge, in place on the match's score matrix. */
  method TrimAndMerge(pm: PairwiseMatch)
    modifies pm
    ensures pm.matches == TrimCenter(old(pm.matches), pm.candidate)
  {
    var c := pm.candidate;
    pm.matches := pm.matches[c := if c in pm.matches then Trim(pm.matches[c]) else map[]];
  }
}
