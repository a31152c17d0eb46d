# Record linking in OpenLattice, modelled in Dafny

This project models the record-linking core of OpenLattice and proves properties of the model. OpenLattice is a Kotlin and Java data platform. The model covers these modules:

- **Matching, LinkerMatching, IndexerMatching**: the two `SocratesMatcher`s. They score each pair of entities of a block with a neural network, accessed through `Net`. They keep the center row above `THRESHOLD` (`initialize`), score the whole block (`match`) and trim the center row (`trimAndMerge`).
- **BackgroundLinking**: the linker's `BackgroundLinkingService`. It covers:
  - the candidate queue that `enqueue` fills: whitelisted entity sets first, then the linkable sets;
  - the `linkingLocks` lease map with its time-to-live;
  - the `limiter` semaphore, modelled as a permit count;
  - one turn of the worker loop;
  - the choice made by `link`: merge into the best cluster above `MINIMUM_SCORE`, or start a new cluster with a reserved id.
- **RealtimeLinking**: the indexer's `RealtimeLinkingService`. It covers:
  - blocking and filtering a batch;
  - the per-block selection loop, which keeps the first cluster of least average score, with Kotlin's NaN semantics for an empty cluster;
  - the ordered inserts, which stop at the first throw; the update and insert events are those of the corrected form (see Findings), whose locks RealtimeLocks.BlockCorrected follows;
  - `runLinking`'s drain of every entity set needing linking.
- **RealtimeLocks**: the same service's `clusterLocks` as the linking thread sees them. It shows that, as written, the unlock before the inserts throws for every update, so nothing is inserted. It also models the corrected block, BlockCorrected: the chosen cluster stays locked until its insert is written and is then released once, and the block gives back every hold it took.
- **IdGeneration**: `HazelcastIdGenerationService`. It covers the 65,536 disjoint ranges of the id space and the FIFO id queue.
- **Streams, AddFlagsSerializer, ExternalTableSerializer**: Hazelcast's streams, modelled as a sequence of typed values, together with two stream serializers and their round trips.
- **EdmAuthorization**: `EdmAuthorizationHelper`. It covers which property types of which entity sets principals may use, for normal and for linking entity sets.
- **AuditEntitySets**: `AuditRecordEntitySetsManager`. It covers where an audit event is recorded and when audit entity sets are created.
- **Auth0Sync, Auth0Task**: `Auth0SyncService` and `Auth0SyncTask`. They cover the user sync, the organization enrollments, the authentication cache of every role reachable through the principal trees, and the persisted `lastSync`.

The supporting modules are:

- `Wrappers`: `Option`, `Result`, the error kinds, and `int32` with 32-bit wrap-around.
- `Edm`: UUIDs, entity data keys, entity sets, principals and a mutable map.
- `Seqs`: order-preserving filter, dedup, union and flatten.

Modelling conventions:

- Collaborators become function-typed parameters or datatypes of functions. They include the blocker, the data loader, the linking query service, the authorization manager, the EDM manager and the organization service.
- Effects on other services become an ordered log of events.
- The order in which a Java or Hazelcast map or set is iterated matters for `first()`, zips and tie-breaking. It is an explicit `order` sequence that must list the collection's elements once each (`IsOrderOf`).

## Model

| member | source | states |
|---|---|---|
| Matching.CollectKeys | linker/src/main/kotlin/com/openlattice/linking/BackgroundLinkingService.kt:79-81 | a key is collected exactly when it is a row of the score matrix or a column of some row |
| Matching.ExtractProperties | linker/src/main/kotlin/com/openlattice/linking/matching/SocratesMatcher.kt:231-233 | the same property types; each string is the string form of some value of that property, and every value's string form is present |
| Matching.ExtractPropertiesNoLarger | linker/src/main/kotlin/com/openlattice/linking/matching/SocratesMatcher.kt:231-233 | converting values to strings never adds values to a property: its string set is no larger than its value set |
| Matching.ExtractFeatures | linker/src/main/kotlin/com/openlattice/linking/matching/SocratesMatcher.kt:225-229 | one feature per distance component, each being that distance multiplied by 100 |
| Matching.Trim | linker/src/main/kotlin/com/openlattice/linking/matching/SocratesMatcher.kt:240-242 | exactly the entries of the row scoring above THRESHOLD are kept, with unchanged scores |
| Matching.TrimCenter | linker/src/main/kotlin/com/openlattice/linking/matching/SocratesMatcher.kt:236-243 | the center row afterwards holds exactly its old entries above THRESHOLD, or is empty when absent; every other row is unchanged |
| Matching.TrimCenterIdempotent | indexer/src/main/kotlin/com/openlattice/linking/matching/SocratesMatcher.kt:105-111 | trimming the center twice is the same as trimming it once |
| Matching.PairwiseMatch.constructor | linker/src/main/kotlin/com/openlattice/linking/matching/SocratesMatcher.kt:86-88 | a match holds the candidate and its score matrix |
| Matching.TrimAndMerge | indexer/src/main/kotlin/com/openlattice/linking/matching/SocratesMatcher.kt:105-111 | in place: the match's matrix becomes the trimmed-center matrix of the old one |
| LinkerMatching.GetModelScore | linker/src/main/kotlin/com/openlattice/linking/matching/SocratesMatcher.kt:246-258 | the network's output on the first attempt; if that throws, the second attempt; if both throw, a score of 1.0 for every feature row |
| LinkerMatching.InitialFeatures | linker/src/main/kotlin/com/openlattice/linking/matching/SocratesMatcher.kt:70-79 | one feature row per entity in the block's iteration order |
| LinkerMatching.InitialRow | linker/src/main/kotlin/com/openlattice/linking/matching/SocratesMatcher.kt:80-83 | the zip of entity keys with scores: a key has a score exactly when its position is within both lists, and it gets the score at that position |
| LinkerMatching.Initialized | linker/src/main/kotlin/com/openlattice/linking/matching/SocratesMatcher.kt:65-89 | fails exactly when the blocked entity is missing from its block; otherwise a one-row matrix whose center row holds the zipped scores above THRESHOLD |
| LinkerMatching.InitializedFallback | linker/src/main/kotlin/com/openlattice/linking/matching/SocratesMatcher.kt:246-258 | when both network attempts throw, every entity of the block is in the center row with score 1.0 |
| LinkerMatching.PairFeatures | linker/src/main/kotlin/com/openlattice/linking/matching/SocratesMatcher.kt:161-173 | one feature row per key pair |
| LinkerMatching.PairsWith | linker/src/main/kotlin/com/openlattice/linking/matching/SocratesMatcher.kt:171-180 | the pairs of one entity with each of its neighbors, in order |
| LinkerMatching.FeatureRows | linker/src/main/kotlin/com/openlattice/linking/matching/SocratesMatcher.kt:171-180 | each entity's pairs are built over its deduplicated neighbors, entities in order |
| LinkerMatching.FeatureKeysMembers | linker/src/main/kotlin/com/openlattice/linking/matching/SocratesMatcher.kt:171-180 | a pair is a feature key exactly when its left side is an entity and its right side is one of that entity's neighbors |
| LinkerMatching.FeatureKeysDistinct | linker/src/main/kotlin/com/openlattice/linking/matching/SocratesMatcher.kt:171-180 | no pair is scored twice when the entities are distinct |
| LinkerMatching.FeatureKeysSquareAt | linker/src/main/kotlin/com/openlattice/linking/matching/SocratesMatcher.kt:171-180 | when every entity has the same neighbors, the feature keys form a square: pair (i, j) sits at position i·n + j |
| LinkerMatching.ScoredPairs | linker/src/main/kotlin/com/openlattice/linking/matching/SocratesMatcher.kt:188-190 | key pairs zipped with scores: as many results as the shorter list, each result carrying its own pair's score |
| LinkerMatching.PositiveMatches | linker/src/main/kotlin/com/openlattice/linking/matching/SocratesMatcher.kt:145-146 | each positive feedback pair contributes score 1.0 in both directions |
| LinkerMatching.ComputeResults | linker/src/main/kotlin/com/openlattice/linking/matching/SocratesMatcher.kt:140-214 | with no neighborhoods only the positive feedback is returned; every result is positive feedback or a pair of an entity with one of its neighbors |
| LinkerMatching.FirstScore | linker/src/main/kotlin/com/openlattice/linking/matching/SocratesMatcher.kt:120-125 | a score found for (l, k) comes from a result for that pair; no score means no result for that pair |
| LinkerMatching.FirstScoreAt | linker/src/main/kotlin/com/openlattice/linking/matching/SocratesMatcher.kt:120-125 | the first result for a pair decides its score |
| LinkerMatching.GroupFirst | linker/src/main/kotlin/com/openlattice/linking/matching/SocratesMatcher.kt:120-125 | the grouped matrix has an entry exactly for the pairs some result scores, holding the first such score; no row is empty |
| LinkerMatching.MatchNeighborhoods | linker/src/main/kotlin/com/openlattice/linking/matching/SocratesMatcher.kt:104-115 | every entity of a non-empty block is matched against every entity of the block, in iteration order |
| LinkerMatching.FilterAll | linker/src/main/kotlin/com/openlattice/linking/matching/SocratesMatcher.kt:104-115 | the always-true neighbor filter keeps every neighbor |
| LinkerMatching.MatchKeysShape | linker/src/main/kotlin/com/openlattice/linking/matching/SocratesMatcher.kt:171-180 | match builds n·n distinct key pairs for a block of n entities |
| LinkerMatching.MatchKeysMembers | linker/src/main/kotlin/com/openlattice/linking/matching/SocratesMatcher.kt:171-180 | both sides of every key pair are entities of the block |
| LinkerMatching.MatchKeysAt | linker/src/main/kotlin/com/openlattice/linking/matching/SocratesMatcher.kt:171-180 | the pair of the i-th and j-th entities sits at position i·n + j |
| LinkerMatching.MatchKeysCover | linker/src/main/kotlin/com/openlattice/linking/matching/SocratesMatcher.kt:171-180 | every ordered pair of block entities is among the key pairs |
| LinkerMatching.MatchFeatures | linker/src/main/kotlin/com/openlattice/linking/matching/SocratesMatcher.kt:161-173 | one feature row per key pair of the block |
| LinkerMatching.MatchScores | linker/src/main/kotlin/com/openlattice/linking/matching/SocratesMatcher.kt:98-135 | the matrix only mentions entities of the block, as rows and as columns |
| LinkerMatching.MatchResults | linker/src/main/kotlin/com/openlattice/linking/matching/SocratesMatcher.kt:171-190 | match's results are exactly the block's key pairs zipped with the model's scores, with no positive feedback |
| LinkerMatching.GroupFirstKeys | linker/src/main/kotlin/com/openlattice/linking/matching/SocratesMatcher.kt:120-125 | grouping mentions no key that the results do not mention |
| LinkerMatching.MatchResultsInBlock | linker/src/main/kotlin/com/openlattice/linking/matching/SocratesMatcher.kt:140-190 | every result of match pairs two entities of the block |
| LinkerMatching.GroupScoredPairs | linker/src/main/kotlin/com/openlattice/linking/matching/SocratesMatcher.kt:120-125 | with distinct key pairs, grouping puts each pair's own score at that pair |
| LinkerMatching.MatchScoresBinding | linker/src/main/kotlin/com/openlattice/linking/matching/SocratesMatcher.kt:171-190 | the matrix entry of every scored key pair is the model's score at that pair's position |
| LinkerMatching.MatchScoresFallbackAt | linker/src/main/kotlin/com/openlattice/linking/matching/SocratesMatcher.kt:246-258 | when both network attempts throw, any two block entities score 1.0 |
| LinkerMatching.EveryPairOne | linker/src/main/kotlin/com/openlattice/linking/matching/SocratesMatcher.kt:120-125 | a matrix within the keys that scores every pair 1.0 is the full square of ones |
| LinkerMatching.MatchScoresFallback | linker/src/main/kotlin/com/openlattice/linking/matching/SocratesMatcher.kt:246-258 | when both network attempts throw, match returns the full block-by-block square of ones |
| LinkerMatching.SocratesMatcher.constructor | linker/src/main/kotlin/com/openlattice/linking/matching/SocratesMatcher.kt:53-57 | the matcher starts with the given model |
| LinkerMatching.SocratesMatcher.UpdateMatchingModel | linker/src/main/kotlin/com/openlattice/linking/matching/SocratesMatcher.kt:53-57 | the model is replaced |
| LinkerMatching.SocratesMatcher.Initialize | linker/src/main/kotlin/com/openlattice/linking/matching/SocratesMatcher.kt:65-89 | null exactly when the blocked entity is missing; otherwise a fresh match of the candidate with the initialized center row |
| LinkerMatching.SocratesMatcher.Match | linker/src/main/kotlin/com/openlattice/linking/matching/SocratesMatcher.kt:98-135 | a fresh match of the candidate with the block's score matrix |
| IndexerMatching.ModelScore | indexer/src/main/kotlin/com/openlattice/linking/matching/SocratesMatcher.kt:114-116 | succeeds exactly when the single attempt returns some output, and then gives its first value; a throw is a failure |
| IndexerMatching.ModelScoreSingleAttempt | indexer/src/main/kotlin/com/openlattice/linking/matching/SocratesMatcher.kt:114-116 | the indexer makes one attempt and never retries: only the first attempt's answer matters |
| IndexerMatching.MapValues | indexer/src/main/kotlin/com/openlattice/linking/matching/SocratesMatcher.kt:59-67 | succeeds exactly when every key's value succeeds, with the keys' values; otherwise fails with the first failing key's error |
| IndexerMatching.CenterRow | indexer/src/main/kotlin/com/openlattice/linking/matching/SocratesMatcher.kt:55-67 | succeeds exactly when every entity scores against the center, and then holds each entity's score |
| IndexerMatching.Initialized | indexer/src/main/kotlin/com/openlattice/linking/matching/SocratesMatcher.kt:50-71 | succeeds exactly when the center row does, and then holds the trimmed center row alone |
| IndexerMatching.InitializedCenterRow | indexer/src/main/kotlin/com/openlattice/linking/matching/SocratesMatcher.kt:50-71 | the center row holds exactly the block entities whose score against the center is above THRESHOLD |
| IndexerMatching.InitializedMissingCenter | indexer/src/main/kotlin/com/openlattice/linking/matching/SocratesMatcher.kt:55-58 | without the center entity, initialize succeeds only on an empty block; otherwise the missing value is an error |
| IndexerMatching.MatchRow | indexer/src/main/kotlin/com/openlattice/linking/matching/SocratesMatcher.kt:89-96 | one row succeeds exactly when every pair with it succeeds, holding those scores |
| IndexerMatching.MatchScores | indexer/src/main/kotlin/com/openlattice/linking/matching/SocratesMatcher.kt:78-99 | succeeds exactly when every row succeeds; one row per block entity |
| IndexerMatching.MatchSquare | indexer/src/main/kotlin/com/openlattice/linking/matching/SocratesMatcher.kt:78-99 | a successful match is the full block-by-block square of pair scores |
| IndexerMatching.MatchFails | indexer/src/main/kotlin/com/openlattice/linking/matching/SocratesMatcher.kt:78-99 | match fails exactly when some pair of block entities cannot be scored |
| IndexerMatching.SocratesMatcher.constructor | indexer/src/main/kotlin/com/openlattice/linking/matching/SocratesMatcher.kt:40-48 | the matcher starts with the given model |
| IndexerMatching.SocratesMatcher.UpdateMatchingModel | indexer/src/main/kotlin/com/openlattice/linking/matching/SocratesMatcher.kt:42-48 | the model is replaced |
| IndexerMatching.SocratesMatcher.Initialize | indexer/src/main/kotlin/com/openlattice/linking/matching/SocratesMatcher.kt:50-71 | null exactly when initialization fails; otherwise a fresh match with the initialized matrix |
| IndexerMatching.SocratesMatcher.Match | indexer/src/main/kotlin/com/openlattice/linking/matching/SocratesMatcher.kt:78-99 | null exactly when some pair fails; otherwise a fresh match with the full score matrix |
| BackgroundLinking.ScanIdsSpec | linker/src/main/kotlin/com/openlattice/linking/BackgroundLinkingService.kt:136-157 | exactly the linkable, non-LINKING entity sets are scanned; whitelisted ones come first, in whitelist order, then the rest in query order |
| BackgroundLinking.QueuedStopsAtFailure | linker/src/main/kotlin/com/openlattice/linking/BackgroundLinkingService.kt:157-170 | a fetch that throws ends the enqueue: nothing after it is queued |
| BackgroundLinking.FetchCandidates | linker/src/main/kotlin/com/openlattice/linking/BackgroundLinkingService.kt:157-170 | the loop queues each set's candidates in scan order, up to the first failing fetch |
| BackgroundLinking.QueuedAllFetched | linker/src/main/kotlin/com/openlattice/linking/BackgroundLinkingService.kt:157-170 | when no fetch throws, the queue is every set's candidates concatenated in order |
| BackgroundLinking.RequestSize | linker/src/main/kotlin/com/openlattice/linking/BackgroundLinkingService.kt:162 | three times the load size, exactly while that fits in an Int |
| BackgroundLinking.TryLockSpec | linker/src/main/kotlin/com/openlattice/linking/BackgroundLinkingService.kt:326-337 | locking succeeds exactly on an unleased candidate and records its lease end; other leases are untouched; a failed attempt changes nothing |
| BackgroundLinking.LockIsExclusive | linker/src/main/kotlin/com/openlattice/linking/BackgroundLinkingService.kt:326-337 | once locked, a candidate cannot be locked again until it is unlocked or expires |
| BackgroundLinking.UnlockSpec | linker/src/main/kotlin/com/openlattice/linking/BackgroundLinkingService.kt:339-341 | unlocking removes exactly that candidate's lease |
| BackgroundLinking.LockUnlockRestores | linker/src/main/kotlin/com/openlattice/linking/BackgroundLinkingService.kt:326-341 | locking then unlocking a free candidate restores the lease map |
| BackgroundLinking.LeaseExpires | linker/src/main/kotlin/com/openlattice/linking/BackgroundLinkingService.kt:331-336 | after LINKING_BATCH_TIMEOUT the lease is gone and the candidate can be locked again |
| BackgroundLinking.StepAsWrittenLeaks | linker/src/main/kotlin/com/openlattice/linking/BackgroundLinkingService.kt:182-185 | as written, a turn on an already-leased candidate loses one permit |
| BackgroundLinking.AsWrittenStalls | linker/src/main/kotlin/com/openlattice/linking/BackgroundLinkingService.kt:176-207 | concrete run: with one permit, the second turn stalls as written but proceeds with the release |
| BackgroundLinking.StepKeepsPermitsAndLeases | linker/src/main/kotlin/com/openlattice/linking/BackgroundLinkingService.kt:176-207 | with the release on both paths, a turn returns every permit, leaves the leases as found and consumes the queue head |
| BackgroundLinking.RunKeepsPermits | linker/src/main/kotlin/com/openlattice/linking/BackgroundLinkingService.kt:176-207 | any number of corrected turns keeps the permit count |
| BackgroundLinking.BestFrom | linker/src/main/kotlin/com/openlattice/linking/BackgroundLinkingService.kt:262-271 | the chosen position, if any, is a position of the scored clusters |
| BackgroundLinking.BestCluster | linker/src/main/kotlin/com/openlattice/linking/BackgroundLinkingService.kt:262-271 | the chosen position, if any, is a position of the scored clusters |
| BackgroundLinking.BestFromSpec | linker/src/main/kotlin/com/openlattice/linking/BackgroundLinkingService.kt:262-271 | the scan keeps the first cluster of highest score above MINIMUM_SCORE, or none when all are at or below it |
| BackgroundLinking.BestClusterSpec | linker/src/main/kotlin/com/openlattice/linking/BackgroundLinkingService.kt:262-271 | none exactly when no cluster scores above MINIMUM_SCORE; otherwise the first cluster of highest score |
| BackgroundLinking.Decide | linker/src/main/kotlin/com/openlattice/linking/BackgroundLinkingService.kt:273-281 | merge into the best cluster when there is one; otherwise a new cluster under the first reserved id, failing when none was reserved |
| BackgroundLinking.InsertMatchesGroups | linker/src/main/kotlin/com/openlattice/linking/BackgroundLinkingService.kt:299-310 | the entity keys grouped by entity set are exactly those in the scores plus the new member; no group is empty |
| BackgroundLinking.InsertMatchesIncludesNewMember | linker/src/main/kotlin/com/openlattice/linking/BackgroundLinkingService.kt:299-310 | the new member is always among the inserted groups |
| BackgroundLinking.NewClusterScores | linker/src/main/kotlin/com/openlattice/linking/BackgroundLinkingService.kt:276-278 | a new cluster's scores mention only the candidate |
| BackgroundLinking.InsertMatchesAlone | linker/src/main/kotlin/com/openlattice/linking/BackgroundLinkingService.kt:299-310 | scores mentioning only the member give the single group of that member |
| BackgroundLinking.LinkNewCluster | linker/src/main/kotlin/com/openlattice/linking/BackgroundLinkingService.kt:261-283 | with no cluster above MINIMUM_SCORE, link creates a cluster under the first reserved id holding just the candidate |
| BackgroundLinking.LinkMerges | linker/src/main/kotlin/com/openlattice/linking/BackgroundLinkingService.kt:261-283 | with a cluster above MINIMUM_SCORE, link merges into the best one, inserting its groups plus the candidate |
| BackgroundLinking.SetMin | linker/src/main/kotlin/com/openlattice/linking/BackgroundLinkingService.kt:343-345 | the least element of a non-empty set of scores |
| BackgroundLinking.CompleteLinkCluster | linker/src/main/kotlin/com/openlattice/linking/BackgroundLinkingService.kt:343-345 | the least score of the matrix (complete linkage), or 0.0 for a matrix without scores |
| BackgroundLinking.BackgroundLinkingService.constructor | linker/src/main/kotlin/com/openlattice/linking/BackgroundLinkingService.kt:117-120 | the service holds the queue, the leases, the whitelist (empty when absent) and `parallelism * 2` permits in Int arithmetic |
| BackgroundLinking.BackgroundLinkingService.Enqueue | linker/src/main/kotlin/com/openlattice/linking/BackgroundLinkingService.kt:131-170 | nothing while candidates remain; otherwise the queue becomes the scanned sets' candidates, stopping at the first failing fetch; leases and permits unchanged |
| BackgroundLinking.BackgroundLinkingService.TryLockCandidate | linker/src/main/kotlin/com/openlattice/linking/BackgroundLinkingService.kt:326-337 | the lease map and answer are those of TryLock; the queue and permits are unchanged |
| BackgroundLinking.BackgroundLinkingService.UnlockCandidate | linker/src/main/kotlin/com/openlattice/linking/BackgroundLinkingService.kt:339-341 | only the candidate's lease is removed |
| BackgroundLinking.BackgroundLinkingService.ExpireLeases | linker/src/main/kotlin/com/openlattice/linking/BackgroundLinkingService.kt:331-336 | ended leases disappear; the queue and permits are unchanged |
| BackgroundLinking.BackgroundLinkingService.WorkerStep | linker/src/main/kotlin/com/openlattice/linking/BackgroundLinkingService.kt:176-207 | one worker turn changes the service as the corrected Step does, so it keeps the permits (StepKeepsPermitsAndLeases) |
| RealtimeLinking.FilterBlocks | indexer/src/main/kotlin/com/openlattice/linking/RealtimeLinkingService.kt:94-102 | exactly the blocks containing their own entity are kept, in order; nothing is dropped from a batch where all do |
| RealtimeLinking.MapSumRemove | indexer/src/main/kotlin/com/openlattice/linking/RealtimeLinkingService.kt:134-135 | a sum over a map splits into one entry plus the sum of the rest |
| RealtimeLinking.MapSumNonNegative | indexer/src/main/kotlin/com/openlattice/linking/RealtimeLinkingService.kt:134-135 | a sum of non-negative scores is non-negative, and zero exactly when every score is zero |
| RealtimeLinking.AverageNaN | indexer/src/main/kotlin/com/openlattice/linking/RealtimeLinkingService.kt:134-135 | a cluster's average is NaN (0.0 / 0) exactly when every row is empty |
| RealtimeLinking.AverageNonNegative | indexer/src/main/kotlin/com/openlattice/linking/RealtimeLinkingService.kt:134-135 | non-negative scores give a non-negative average |
| RealtimeLinking.SumRow | indexer/src/main/kotlin/com/openlattice/linking/RealtimeLinkingService.kt:135 | the loop sums a row's scores |
| RealtimeLinking.ClusterStep | indexer/src/main/kotlin/com/openlattice/linking/RealtimeLinkingService.kt:134-135 | the score total and the cluster size split row by row |
| RealtimeLinking.ClusterAverage | indexer/src/main/kotlin/com/openlattice/linking/RealtimeLinkingService.kt:134-135 | the loop computes the sum of all scores divided by the number of scores, NaN when there are none |
| RealtimeLinking.Select | indexer/src/main/kotlin/com/openlattice/linking/RealtimeLinkingService.kt:126-143 | the kept candidate is a position of the averages and its average is the one kept |
| RealtimeLinking.SelectChooses | indexer/src/main/kotlin/com/openlattice/linking/RealtimeLinkingService.kt:126-143 | a candidate is kept exactly when there is at least one cluster, because the initial -10.0 is always replaced |
| RealtimeLinking.SelectFirstMinimum | indexer/src/main/kotlin/com/openlattice/linking/RealtimeLinkingService.kt:126-143 | with non-negative averages, the kept candidate is the first of least average |
| RealtimeLinking.SelectNaNFirstSticks | indexer/src/main/kotlin/com/openlattice/linking/RealtimeLinkingService.kt:136 | a first cluster with NaN average is never replaced, since every comparison with NaN is false |
| RealtimeLinking.MatchClusters | indexer/src/main/kotlin/com/openlattice/linking/RealtimeLinkingService.kt:129-133 | succeeds exactly when every cluster matches, giving one candidate per cluster in order |
| RealtimeLinking.MatchClustersStep | indexer/src/main/kotlin/com/openlattice/linking/RealtimeLinkingService.kt:129-133 | matching one more cluster extends the candidates or fails with its error |
| RealtimeLinking.MatchClustersFirstFailure | indexer/src/main/kotlin/com/openlattice/linking/RealtimeLinkingService.kt:129-133 | a failure among the first clusters is the failure of all of them |
| RealtimeLinking.Averages | indexer/src/main/kotlin/com/openlattice/linking/RealtimeLinkingService.kt:134-135 | one average per candidate |
| RealtimeLinking.NewCluster | indexer/src/main/kotlin/com/openlattice/linking/RealtimeLinkingService.kt:120-124 | succeeds exactly when an id is reserved and the singleton block matches; the update is that id, the block key and its scores |
| RealtimeLinking.NewClusterWithIndexerMatcher | indexer/src/main/kotlin/com/openlattice/linking/RealtimeLinkingService.kt:120-124 | with the indexer's matcher, a new cluster's scores are the single self-pair |
| RealtimeLinking.SelectStep | indexer/src/main/kotlin/com/openlattice/linking/RealtimeLinkingService.kt:136-139 | one loop step replaces the kept candidate exactly when the comparison says so |
| RealtimeLinking.LinkOutcomeExisting | indexer/src/main/kotlin/com/openlattice/linking/RealtimeLinkingService.kt:126-144 | with matching clusters the update goes to one of them (the `!!` never throws), and with non-negative averages to the first of least average |
| RealtimeLinking.LinkOutcomeNew | indexer/src/main/kotlin/com/openlattice/linking/RealtimeLinkingService.kt:120-124 | without clusters for the block's keys the update is a new cluster |
| RealtimeLinking.SelectBest | indexer/src/main/kotlin/com/openlattice/linking/RealtimeLinkingService.kt:126-143 | the loop fails with the first match failure, otherwise keeps the first candidate of least average |
| RealtimeLinking.LinkBlock | indexer/src/main/kotlin/com/openlattice/linking/RealtimeLinkingService.kt:103-156 | the map stage for one block, written as in the source, gives the same update as the specification LinkOutcome |
| RealtimeLinking.Blocks | indexer/src/main/kotlin/com/openlattice/linking/RealtimeLinkingService.kt:86-93 | one block per entity key id |
| RealtimeLinking.CollectInserts | indexer/src/main/kotlin/com/openlattice/linking/RealtimeLinkingService.kt:157-161 | the corrected insert stage, without the unlock of line 158: the updates are inserted in order, one per outcome; a failure ends the run at that block's position with its error, and no failure means every block was inserted |
| RealtimeLinking.Outcomes | indexer/src/main/kotlin/com/openlattice/linking/RealtimeLinkingService.kt:103-156 | one outcome per block, each being that block's update |
| RealtimeLinking.LinkOutcomeMember | indexer/src/main/kotlin/com/openlattice/linking/RealtimeLinkingService.kt:103-156 | every update's new member is the blocked entity |
| RealtimeLinking.LinkAllUpdatesKeptBlocks | indexer/src/main/kotlin/com/openlattice/linking/RealtimeLinkingService.kt:81-163 | in the corrected insert stage, the i-th insert makes the i-th kept block's entity a member; a run without failure links every kept block |
| RealtimeLinking.RunIterativeLinking | indexer/src/main/kotlin/com/openlattice/linking/RealtimeLinkingService.kt:81-163 | a batch is blocked, filtered and linked block by block, as the specification LinkAll says |
| RealtimeLinking.LinkKept | indexer/src/main/kotlin/com/openlattice/linking/RealtimeLinkingService.kt:103-161 | the loop over kept blocks records the inserts of LinkAll, stopping at the first failure (the corrected insert stage) |
| RealtimeLinking.DrainClearsFirst | indexer/src/main/kotlin/com/openlattice/linking/RealtimeLinkingService.kt:187-197 | a drain does something exactly when its first answer is non-empty, and it starts by clearing that batch's neighborhoods |
| RealtimeLinking.DrainStopsAtEmpty | indexer/src/main/kotlin/com/openlattice/linking/RealtimeLinkingService.kt:189 | the drain stops at the first empty answer; later answers are never used |
| RealtimeLinking.AndThenAssoc | indexer/src/main/kotlin/com/openlattice/linking/RealtimeLinkingService.kt:184-197 | sequencing runs with early stop is associative, so a run can be split anywhere |
| RealtimeLinking.DrainEntitySet | indexer/src/main/kotlin/com/openlattice/linking/RealtimeLinkingService.kt:187-197 | the loop refreshes each answer until an empty one or a throw, as Drain says |
| RealtimeLinking.RunLinking | indexer/src/main/kotlin/com/openlattice/linking/RealtimeLinkingService.kt:181-203 | every entity set needing linking is drained in order; a throw ends the whole run |
| RealtimeLinking.RefreshWithoutKeptBlocks | indexer/src/main/kotlin/com/openlattice/linking/RealtimeLinkingService.kt:94-102 | a batch whose blocks all lack their own entity is cleared and nothing of it is linked or inserted |
| RealtimeLinking.DrainRepeatsUnlinkable | indexer/src/main/kotlin/com/openlattice/linking/RealtimeLinkingService.kt:187-197 | while the needing-linking query keeps answering with such a batch, every turn of the loop clears that same batch again, never fails and inserts nothing, so the loop makes no progress |
| RealtimeLocks.LockCluster | indexer/src/main/kotlin/com/openlattice/linking/RealtimeLinkingService.kt:114 | `getOrPut(...).lock()` puts a lock for the cluster if there is none and adds one hold to it, and to no other cluster |
| RealtimeLocks.UnlockCluster | indexer/src/main/kotlin/com/openlattice/linking/RealtimeLinkingService.kt:140-158 | `clusterLocks[id]!!.unlock()` succeeds exactly when the thread holds the lock and then removes one hold; a missing lock is a null dereference and an unheld lock throws IllegalMonitorStateException |
| RealtimeLocks.LockUnlockRestores | indexer/src/main/kotlin/com/openlattice/linking/RealtimeLinkingService.kt:114-140 | unlocking a lock just taken gives back the locks as they were |
| RealtimeLocks.LockAllCounts | indexer/src/main/kotlin/com/openlattice/linking/RealtimeLinkingService.kt:114 | locking the required clusters, each once, adds one hold to each of them and to nothing else |
| RealtimeLocks.UnlockAllCounts | indexer/src/main/kotlin/com/openlattice/linking/RealtimeLinkingService.kt:128-141 | the selection loop's unlocks of held clusters all succeed and remove one hold from each re-matched cluster only |
| RealtimeLocks.LockAllNoNewKeys | indexer/src/main/kotlin/com/openlattice/linking/RealtimeLinkingService.kt:114 | locking other clusters puts no lock for a cluster outside the list |
| RealtimeLocks.ClusterIds | indexer/src/main/kotlin/com/openlattice/linking/RealtimeLinkingService.kt:116-128 | the ids of the found clusters, in their order |
| RealtimeLocks.NewClusterAsWrittenThrows | indexer/src/main/kotlin/com/openlattice/linking/RealtimeLinkingService.kt:119-158 | as written, a new cluster's update is never inserted: its reserved id has no lock, so line 158 is a null dereference |
| RealtimeLocks.ExistingClusterAsWrittenThrows | indexer/src/main/kotlin/com/openlattice/linking/RealtimeLinkingService.kt:112-158 | as written, an existing cluster's update is never inserted: line 140 already released the one hold, so line 158 throws IllegalMonitorStateException |
| RealtimeLocks.LinkedBlockAsWrittenThrows | indexer/src/main/kotlin/com/openlattice/linking/RealtimeLinkingService.kt:103-161 | as written, whatever update a block's map stage produces, the forEach throws before inserting it |
| RealtimeLocks.AsWrittenInsertsNothing | indexer/src/main/kotlin/com/openlattice/linking/RealtimeLinkingService.kt:103-161 | two concrete blocks, one starting a new cluster and one joining the only cluster, each fail at line 158 with nothing inserted |
| RealtimeLocks.BlockCorrectedInserts | indexer/src/main/kotlin/com/openlattice/linking/RealtimeLinkingService.kt:112-161 | corrected: with the required clusters distinct and the re-matched ones among them, the block never throws on a lock, inserts exactly its update, and leaves each cluster with the holds it had before, plus one only for a required cluster that was never found |
| RealtimeLocks.CorrectedRestoresHolds | indexer/src/main/kotlin/com/openlattice/linking/RealtimeLinkingService.kt:112-161 | corrected: when every required cluster is found and the chosen one is among them, the block inserts its update and gives back every hold it took, while the code as written inserts nothing |
| IdGeneration.Pow2 | src/main/kotlin/com/openlattice/ids/HazelcastIdGenerationService.kt:21-22 | powers of two are positive |
| IdGeneration.PartitionLayout | src/main/kotlin/com/openlattice/ids/HazelcastIdGenerationService.kt:21-35 | NUM_PARTITIONS is 2^16, and the ranges of 2^48 ids each exactly cover the 64-bit space |
| IdGeneration.Pow2Add | src/main/kotlin/com/openlattice/ids/HazelcastIdGenerationService.kt:22 | 2^(a+b) = 2^a · 2^b |
| IdGeneration.BaseBits | src/main/kotlin/com/openlattice/ids/HazelcastIdGenerationService.kt:35 | range i's base fits in 64 bits, has i as its top 16 bits and zero low 48 bits |
| IdGeneration.BasesDistinct | src/main/kotlin/com/openlattice/ids/HazelcastIdGenerationService.kt:35 | distinct ranges have distinct bases |
| IdGeneration.InitialScrolls | src/main/kotlin/com/openlattice/ids/HazelcastIdGenerationService.kt:32-37 | an empty map is filled with ranges 0 until NUM_PARTITIONS at their bases; a non-empty map is kept |
| IdGeneration.InitialBasesDistinct | src/main/kotlin/com/openlattice/ids/HazelcastIdGenerationService.kt:32-37 | after init no two ranges share a base |
| IdGeneration.HazelcastIdGenerationService.constructor | src/main/kotlin/com/openlattice/ids/HazelcastIdGenerationService.kt:28-37 | the service holds the initialized ranges and the shared queue |
| IdGeneration.HazelcastIdGenerationService.ReturnId | src/main/kotlin/com/openlattice/ids/HazelcastIdGenerationService.kt:56-60 | a returned id goes to the tail of the queue |
| IdGeneration.HazelcastIdGenerationService.GetNextId | src/main/kotlin/com/openlattice/ids/HazelcastIdGenerationService.kt:66-68 | the head of the queue is taken |
| IdGeneration.HazelcastIdGenerationService.GetNextIds | src/main/kotlin/com/openlattice/ids/HazelcastIdGenerationService.kt:62-64 | the first `count` queued ids are taken and returned as a set; a negative count is refused before any id is taken |
| IdGeneration.NextIdsSize | src/main/kotlin/com/openlattice/ids/HazelcastIdGenerationService.kt:62-64 | getNextIds returns at most `count` ids, and exactly `count` when the taken ids are distinct |
| IdGeneration.HazelcastIdGenerationService.ReturnedIdComesLast | src/main/kotlin/com/openlattice/ids/HazelcastIdGenerationService.kt:56-68 | not an operation of the service but a property of ReturnId and GetNextId together: the queue is FIFO, so after returnId as many getNextId calls as there were queued ids give those ids in order, and the next one gives the returned id |
| Streams.ReadIntAt | src/main/kotlin/com/openlattice/hazelcast/serializers/AddFlagsToEntitySetProcessorStreamSerializer.kt:51 | succeeds exactly on an int at the cursor, moving past it; the end of the stream is EndOfStream |
| Streams.ReadLongAt | conductor-client/src/main/kotlin/com/openlattice/hazelcast/serializers/OrganizationExternalDatabaseTableStreamSerializer.kt:27 | succeeds exactly on a long at the cursor, moving past it |
| Streams.ReadUtfAt | conductor-client/src/main/kotlin/com/openlattice/hazelcast/serializers/OrganizationExternalDatabaseTableStreamSerializer.kt:28-30 | succeeds exactly on a string at the cursor, moving past it |
| Streams.ReadUuidAt | conductor-client/src/main/kotlin/com/openlattice/hazelcast/serializers/OrganizationExternalDatabaseTableStreamSerializer.kt:27 | succeeds exactly on two longs, which are the UUID's halves |
| Streams.ReadUuidAfterWrite | conductor-client/src/main/kotlin/com/openlattice/hazelcast/serializers/OrganizationExternalDatabaseTableStreamSerializer.kt:17 | a UUID read back where it was written is restored |
| Streams.ObjectDataOutput.constructor | src/main/kotlin/com/openlattice/hazelcast/serializers/AddFlagsToEntitySetProcessorStreamSerializer.kt:43 | a new output stream is empty |
| Streams.ObjectDataOutput.WriteInt | src/main/kotlin/com/openlattice/hazelcast/serializers/AddFlagsToEntitySetProcessorStreamSerializer.kt:44-46 | appends one int |
| Streams.ObjectDataOutput.WriteLong | conductor-client/src/main/kotlin/com/openlattice/hazelcast/serializers/OrganizationExternalDatabaseTableStreamSerializer.kt:17 | appends one long |
| Streams.ObjectDataOutput.WriteUtf | conductor-client/src/main/kotlin/com/openlattice/hazelcast/serializers/OrganizationExternalDatabaseTableStreamSerializer.kt:18-20 | appends one string |
| Streams.ObjectDataInput.constructor | src/main/kotlin/com/openlattice/hazelcast/serializers/AddFlagsToEntitySetProcessorStreamSerializer.kt:50 | a new input stream reads from the start |
| Streams.ObjectDataInput.ReadInt | src/main/kotlin/com/openlattice/hazelcast/serializers/AddFlagsToEntitySetProcessorStreamSerializer.kt:51 | reads as ReadIntAt; a failed read leaves the cursor |
| Streams.ObjectDataInput.ReadLong | conductor-client/src/main/kotlin/com/openlattice/hazelcast/serializers/OrganizationExternalDatabaseTableStreamSerializer.kt:27 | reads as ReadLongAt; a failed read leaves the cursor |
| Streams.ObjectDataInput.ReadUtf | conductor-client/src/main/kotlin/com/openlattice/hazelcast/serializers/OrganizationExternalDatabaseTableStreamSerializer.kt:28-30 | reads as ReadUtfAt; a failed read leaves the cursor |
| Streams.SerializeUuid | conductor-client/src/main/kotlin/com/openlattice/hazelcast/serializers/OrganizationExternalDatabaseTableStreamSerializer.kt:17 | writes the UUID's two halves, most significant first |
| Streams.DeserializeUuid | conductor-client/src/main/kotlin/com/openlattice/hazelcast/serializers/OrganizationExternalDatabaseTableStreamSerializer.kt:27 | reads the UUID as ReadUuidAt does |
| AddFlagsSerializer.Ordinal | src/main/kotlin/com/openlattice/hazelcast/serializers/AddFlagsToEntitySetProcessorStreamSerializer.kt:46 | a flag's ordinal is its index in values() |
| AddFlagsSerializer.OrdinalOfIndex | src/main/kotlin/com/openlattice/hazelcast/serializers/AddFlagsToEntitySetProcessorStreamSerializer.kt:33 | distinct constants have distinct ordinals: the constant at index i has ordinal i |
| AddFlagsSerializer.DecodeOrdinalsUnfold | src/main/kotlin/com/openlattice/hazelcast/serializers/AddFlagsToEntitySetProcessorStreamSerializer.kt:53-55 | one read step: the first ordinal fails the read, is out of range, or joins the flags read after it |
| AddFlagsSerializer.EncodeLength | src/main/kotlin/com/openlattice/hazelcast/serializers/AddFlagsToEntitySetProcessorStreamSerializer.kt:43-48 | write emits the size and then one int per flag |
| AddFlagsSerializer.OrdinalTokensShape | src/main/kotlin/com/openlattice/hazelcast/serializers/AddFlagsToEntitySetProcessorStreamSerializer.kt:45-47 | each written int is in range and names the flag at that position |
| AddFlagsSerializer.EncodeOrdinalsInRange | src/main/kotlin/com/openlattice/hazelcast/serializers/AddFlagsToEntitySetProcessorStreamSerializer.kt:45-47 | every written ordinal lies in [0, number of constants) |
| AddFlagsSerializer.DecodeOrdinalsRoundTrip | src/main/kotlin/com/openlattice/hazelcast/serializers/AddFlagsToEntitySetProcessorStreamSerializer.kt:53-55 | reading ints that name the flags in order gives the set of those flags and stops right after them |
| AddFlagsSerializer.EncodeThenDecode | src/main/kotlin/com/openlattice/hazelcast/serializers/AddFlagsToEntitySetProcessorStreamSerializer.kt:43-57 | read at the place write's output sits gives the set of the written flags and stops right after them, whatever surrounds it |
| AddFlagsSerializer.RoundTrip | src/main/kotlin/com/openlattice/hazelcast/serializers/AddFlagsToEntitySetProcessorStreamSerializer.kt:43-57 | read after write restores the processor's flag set and consumes exactly what was written, whatever surrounds it |
| AddFlagsSerializer.DistinctSubLength | src/main/kotlin/com/openlattice/hazelcast/serializers/AddFlagsToEntitySetProcessorStreamSerializer.kt:33 | a set of flags has no more elements than values() |
| AddFlagsSerializer.DecodeOrdinalsConsumes | src/main/kotlin/com/openlattice/hazelcast/serializers/AddFlagsToEntitySetProcessorStreamSerializer.kt:53-55 | a successful loop reads exactly n ints and collects at most n flags |
| AddFlagsSerializer.DecodeConsumes | src/main/kotlin/com/openlattice/hazelcast/serializers/AddFlagsToEntitySetProcessorStreamSerializer.kt:50-57 | read consumes 1 + size ints; duplicate ordinals collapse, so the set has at most `size` flags |
| AddFlagsSerializer.DecodeOrdinalsOutOfRange | src/main/kotlin/com/openlattice/hazelcast/serializers/AddFlagsToEntitySetProcessorStreamSerializer.kt:54 | an out-of-range ordinal after in-range ones fails the loop with an index error |
| AddFlagsSerializer.DecodeOutOfRange | src/main/kotlin/com/openlattice/hazelcast/serializers/AddFlagsToEntitySetProcessorStreamSerializer.kt:50-57 | read fails with an index error at the first ordinal outside values() |
| AddFlagsSerializer.AddFlagsToEntitySetProcessorStreamSerializer.constructor | src/main/kotlin/com/openlattice/hazelcast/serializers/AddFlagsToEntitySetProcessorStreamSerializer.kt:33 | the serializer holds EntitySetFlag.values() |
| AddFlagsSerializer.AddFlagsToEntitySetProcessorStreamSerializer.Write | src/main/kotlin/com/openlattice/hazelcast/serializers/AddFlagsToEntitySetProcessorStreamSerializer.kt:43-48 | the loop appends the size and then each flag's ordinal in iteration order |
| AddFlagsSerializer.AddFlagsToEntitySetProcessorStreamSerializer.Read | src/main/kotlin/com/openlattice/hazelcast/serializers/AddFlagsToEntitySetProcessorStreamSerializer.kt:50-57 | the loop returns what the decoding function gives, the error included, and leaves the cursor after the read |
| AddFlagsSerializer.OrdinalTokensAppend | src/main/kotlin/com/openlattice/hazelcast/serializers/AddFlagsToEntitySetProcessorStreamSerializer.kt:45-47 | writing one more flag appends exactly its ordinal |
| ExternalTableSerializer.NewTable | conductor-client/src/main/kotlin/com/openlattice/hazelcast/serializers/OrganizationExternalDatabaseTableStreamSerializer.kt:34 | the table constructor keeps each field; a present description is kept |
| ExternalTableSerializer.EncodeLayout | conductor-client/src/main/kotlin/com/openlattice/hazelcast/serializers/OrganizationExternalDatabaseTableStreamSerializer.kt:16-24 | serialize writes nine values, in field order: id, name, title, description, organization id, oid, schema |
| ExternalTableSerializer.DecodeSucceedsIff | conductor-client/src/main/kotlin/com/openlattice/hazelcast/serializers/OrganizationExternalDatabaseTableStreamSerializer.kt:26-35 | deserialize succeeds exactly when the stream holds the expected kinds, and then reads nine values |
| ExternalTableSerializer.RoundTrip | conductor-client/src/main/kotlin/com/openlattice/hazelcast/serializers/OrganizationExternalDatabaseTableStreamSerializer.kt:16-35 | deserialize after serialize restores every field and consumes exactly what was written |
| ExternalTableSerializer.Serialize | conductor-client/src/main/kotlin/com/openlattice/hazelcast/serializers/OrganizationExternalDatabaseTableStreamSerializer.kt:16-24 | appends the table's encoding |
| ExternalTableSerializer.Deserialize | conductor-client/src/main/kotlin/com/openlattice/hazelcast/serializers/OrganizationExternalDatabaseTableStreamSerializer.kt:26-35 | returns what the decoding function gives, the first failing read included |
| ExternalTableSerializer.OrganizationExternalDatabaseTableStreamSerializer.Write | conductor-client/src/main/kotlin/com/openlattice/hazelcast/serializers/OrganizationExternalDatabaseTableStreamSerializer.kt:38-40 | write delegates to serialize |
| ExternalTableSerializer.OrganizationExternalDatabaseTableStreamSerializer.Read | conductor-client/src/main/kotlin/com/openlattice/hazelcast/serializers/OrganizationExternalDatabaseTableStreamSerializer.kt:42-44 | read delegates to deserialize |
| EdmAuthorization.AccessRequest | src/main/java/com/openlattice/authorization/EdmAuthorizationHelper.java:64-66 | one request per property type: the key (entity set, property type) asking for the required permissions, and nothing else |
| EdmAuthorization.AuthorizedPropertyTypes | src/main/java/com/openlattice/authorization/EdmAuthorizationHelper.java:68-73 | a property type survives, unchanged, exactly when no refused answer names it |
| EdmAuthorization.SurvivesIffGranted | src/main/java/com/openlattice/authorization/EdmAuthorizationHelper.java:58-74 | for answers to the request, a property type survives exactly when its own answer refuses nothing |
| EdmAuthorization.GetAuthorizedPropertyTypes | src/main/java/com/openlattice/authorization/EdmAuthorizationHelper.java:58-74 | the map is reduced in place to the authorized property types and returned; a refused key too short to name a property fails, having only removed entries |
| EdmAuthorization.RemoveRefused | src/main/java/com/openlattice/authorization/EdmAuthorizationHelper.java:69-71 | the loop removes the property named by each refused answer, failing on the first refused short key |
| EdmAuthorization.RemoveIds | src/main/java/com/openlattice/authorization/EdmAuthorizationHelper.java:71 | the result keeps only entries of the map, with their values |
| EdmAuthorization.RemovedAmongAll | src/main/java/com/openlattice/authorization/EdmAuthorizationHelper.java:69-71 | visiting every answer removes exactly the refused ids |
| EdmAuthorization.AuthorizedPropertyTypesOfSets | src/main/java/com/openlattice/authorization/EdmAuthorizationHelper.java:90-103 | one entry per entity set, each the selected property types authorized on that set; fails if any set's check does |
| EdmAuthorization.AclKeySets | src/main/java/com/openlattice/authorization/EdmAuthorizationHelper.java:229-231 | each selected property type maps to its keys on every entity set |
| EdmAuthorization.AclKeysOf | src/main/java/com/openlattice/authorization/EdmAuthorizationHelper.java:231 | exactly the keys (entity set, property type) for the given sets |
| EdmAuthorization.PermissionsOnLinkingProperties | src/main/java/com/openlattice/authorization/EdmAuthorizationHelper.java:225-237 | each selected property type gets the permissions held on it across all entity sets; a missing answer is a null the collector refuses, and two ids naming equal property types are a duplicate key |
| EdmAuthorization.AuthorizedById | src/main/java/com/openlattice/authorization/EdmAuthorizationHelper.java:202-207 | by id, exactly the property types holding all required permissions; two such types with one id are a duplicate key |
| EdmAuthorization.SameForAll | src/main/java/com/openlattice/authorization/EdmAuthorizationHelper.java:151-154 | every linked entity set gets the same property map |
| EdmAuthorization.AuthorizedPropertyTypesOfLinkingEntitySet | src/main/java/com/openlattice/authorization/EdmAuthorizationHelper.java:192-208 | empty without linked sets; otherwise the first set's property types authorized on all linked sets |
| EdmAuthorization.AuthorizedPropertiesByNormalEntitySets | src/main/java/com/openlattice/authorization/EdmAuthorizationHelper.java:133-156 | empty without linked sets; otherwise each linked set maps to the linking set's authorized properties, failing when they do |
| EdmAuthorization.AuthorizedPropertyTypesByNormalEntitySet | src/main/java/com/openlattice/authorization/EdmAuthorizationHelper.java:161-183 | the same, over the selected property types |
| EdmAuthorization.AuthorizedPropertiesOnEntitySets | src/main/java/com/openlattice/authorization/EdmAuthorizationHelper.java:248-259 | empty for no entity sets; otherwise every set is checked against the first set's property types |
| EdmAuthorization.AccessChecksFor | src/main/java/com/openlattice/authorization/EdmAuthorizationHelper.java:265-267 | one access check per selected property type, and no other check |
| EdmAuthorization.AuthorizedPropertiesOnEntitySet | src/main/java/com/openlattice/authorization/EdmAuthorizationHelper.java:261-270 | exactly the property ids of answers granting every permission; a granted short key fails |
| EdmAuthorization.AclKeysForAccessCheck | src/main/java/com/openlattice/authorization/EdmAuthorizationHelper.java:287-292 | one key per multimap entry, each asking for the required permissions, and no other key |
| AuditEntitySets.FirstListing | src/main/kotlin/com/openlattice/auditing/AuditRecordEntitySetsManager.kt:224-236 | none exactly when no configuration lists the id; otherwise the first listing configuration in iteration order |
| AuditEntitySets.FirstListingFinds | src/main/kotlin/com/openlattice/auditing/AuditRecordEntitySetsManager.kt:224-236 | a listing is found exactly when the audit-set or edge-set query matches |
| AuditEntitySets.ActiveAuditEntitySetIdsCases | src/main/kotlin/com/openlattice/auditing/AuditRecordEntitySetsManager.kt:213-247 | the five outcomes: EDM events or the EDM set go to the EDM set; the object's own configuration; an audit set itself, with its edge set; an edge set itself, with its record set; else nothing |
| AuditEntitySets.ActiveAuditRecordEntitySetId | src/main/kotlin/com/openlattice/auditing/AuditRecordEntitySetsManager.kt:257-271 | the root when it is the EDM set or an audit set; else the configured active set; null without configuration |
| AuditEntitySets.RecordSetLookupsAgree | src/main/kotlin/com/openlattice/auditing/AuditRecordEntitySetsManager.kt:213-271 | the two lookups agree on the record set of an object that is not itself an audit set |
| AuditEntitySets.AuditAclKeys | src/main/kotlin/com/openlattice/auditing/AuditRecordEntitySetsManager.kt:151-152 | the new set itself plus one key per auditing property type, and nothing else |
| AuditEntitySets.FirstUser | src/main/kotlin/com/openlattice/auditing/AuditRecordEntitySetsManager.kt:131 | the first owner of type USER, none when there is none |
| AuditEntitySets.NoUserOwnerNoChange | src/main/kotlin/com/openlattice/auditing/AuditRecordEntitySetsManager.kt:128-135 | without a USER owner nothing is configured, created or granted |
| AuditEntitySets.CreatesOnlyWhenUnlisted | src/main/kotlin/com/openlattice/auditing/AuditRecordEntitySetsManager.kt:143-154 | with a USER owner, configuration and both sets are created exactly when the root is not an audit set; the owners always get every permission |
| AuditEntitySets.AuditRecordEntitySetsManager.constructor | src/main/kotlin/com/openlattice/auditing/AuditRecordEntitySetsManager.kt:61-88 | the manager starts with the configurations, no effects and no cached EDM audit set id |
| AuditEntitySets.AuditRecordEntitySetsManager.AuditRecordEntitySets | src/main/kotlin/com/openlattice/auditing/AuditRecordEntitySetsManager.kt:201-203 | the configured record sets, or none |
| AuditEntitySets.AuditRecordEntitySetsManager.AuditEdgeEntitySets | src/main/kotlin/com/openlattice/auditing/AuditRecordEntitySetsManager.kt:205-207 | the configured edge sets, or none |
| AuditEntitySets.AuditRecordEntitySetsManager.GetEdmAuditEntitySetId | src/main/kotlin/com/openlattice/auditing/AuditRecordEntitySetsManager.kt:389-395 | looked up once and then cached; a missing set is a null dereference |
| AuditEntitySets.AuditRecordEntitySetsManager.GetActiveAuditEntitySetIds | src/main/kotlin/com/openlattice/auditing/AuditRecordEntitySetsManager.kt:213-247 | an empty key fails `first()`; otherwise the decision above with the EDM set's id; the EDM id is cached afterwards: the old cached value if there was one, else the looked-up one |
| AuditEntitySets.AuditRecordEntitySetsManager.GetActiveAuditRecordEntitySetId | src/main/kotlin/com/openlattice/auditing/AuditRecordEntitySetsManager.kt:249-272 | EDM events get the EDM set before the key is read; otherwise the decision above; the EDM id is cached afterwards: the old cached value if there was one, else the looked-up one |
| AuditEntitySets.AuditRecordEntitySetsManager.CreateAuditEntitySet | src/main/kotlin/com/openlattice/auditing/AuditRecordEntitySetsManager.kt:122-155 | the configurations and effects change as the creation step says |
| AuditEntitySets.AuditRecordEntitySetsManager.CreateAuditEntitySetForEntitySet | src/main/kotlin/com/openlattice/auditing/AuditRecordEntitySetsManager.kt:90-105 | nothing for an audit set or before auditing is initialized; else creation keyed by the set's id |
| AuditEntitySets.AuditRecordEntitySetsManager.CreateAuditEntitySetForOrganization | src/main/kotlin/com/openlattice/auditing/AuditRecordEntitySetsManager.kt:107-112 | nothing before auditing is initialized; a missing title is a null dereference; else creation keyed by the organization |
| AuditEntitySets.AuditRecordEntitySetsManager.RemoveAuditRecordEntitySetConfiguration | src/main/kotlin/com/openlattice/auditing/AuditRecordEntitySetsManager.kt:209-211 | exactly that configuration is deleted |
| Auth0Sync.LayerUnion | src/main/kotlin/com/openlattice/users/Auth0SyncService.kt:105-107 | the roles held by a union of keys are the union of their roles |
| Auth0Sync.WithinMonotone | src/main/kotlin/com/openlattice/users/Auth0SyncService.kt:109-119 | one more step never loses a reachable key |
| Auth0Sync.WithinStep | src/main/kotlin/com/openlattice/users/Auth0SyncService.kt:113-116 | one more step adds exactly what the keys found last hold |
| Auth0Sync.FixpointStays | src/main/kotlin/com/openlattice/users/Auth0SyncService.kt:113-116 | once a step adds nothing, no later step adds anything |
| Auth0Sync.EmptyStepIsFixpoint | src/main/kotlin/com/openlattice/users/Auth0SyncService.kt:113 | an empty new layer means the fixpoint is reached |
| Auth0Sync.FixpointReach | src/main/kotlin/com/openlattice/users/Auth0SyncService.kt:109-119 | at the fixpoint, the found keys are exactly those reachable in any number of steps |
| Auth0Sync.LayerStep | src/main/kotlin/com/openlattice/users/Auth0SyncService.kt:114-115 | the loop's next layer is what the last layer holds minus what is known |
| Auth0Sync.GrowShrinksRest | src/main/kotlin/com/openlattice/users/Auth0SyncService.kt:113-116 | each non-empty layer leaves fewer keys to find, so the loop ends |
| Auth0Sync.PrincipalsAt | src/main/kotlin/com/openlattice/users/Auth0SyncService.kt:118 | exactly the principals stored under the given keys |
| Auth0Sync.CurrentPrincipals | src/main/kotlin/com/openlattice/users/Auth0SyncService.kt:96-100 | the user's own principal plus each role's principal |
| Auth0Sync.BlankEmailSkipsDomainQuery | src/main/kotlin/com/openlattice/users/Auth0SyncService.kt:147-153 | with a blank email, the domain query's answer does not matter |
| Auth0Sync.MissingOrganizationsSpec | src/main/kotlin/com/openlattice/users/Auth0SyncService.kt:140-162 | the user joins exactly the organizations from either query, each once |
| Auth0Sync.Title | src/main/kotlin/com/openlattice/users/Auth0SyncService.kt:176-180 | the nickname when present and not empty, else the email |
| Auth0Sync.MemberEffectsSpec | src/main/kotlin/com/openlattice/users/Auth0SyncService.kt:158-160 | one addMembers per organization, in order |
| Auth0Sync.PrincipalOf | src/main/kotlin/com/openlattice/users/Auth0SyncService.kt:122-129 | the PRINCIPAL_INDEX lookup: none exactly when no stored principal is the user principal of the id, else a stored securable principal that is |
| Auth0Sync.StoreNewPrincipal | src/main/kotlin/com/openlattice/users/Auth0SyncService.kt:174-185 | storing a new user's principal under a fresh key keeps each principal under one key, and getPrincipal then finds exactly that principal |
| Auth0Sync.Auth0SyncService.constructor | src/main/kotlin/com/openlattice/users/Auth0SyncService.kt:33-47 | the service starts with empty caches and no effects |
| Auth0Sync.Auth0SyncService.ResolveRoles | src/main/kotlin/com/openlattice/users/Auth0SyncService.kt:109-116 | the loop ends and finds exactly the keys reachable from the principal |
| Auth0Sync.Auth0SyncService.GetAllPrincipals | src/main/kotlin/com/openlattice/users/Auth0SyncService.kt:109-119 | exactly the stored principals of every reachable role |
| Auth0Sync.Auth0SyncService.SyncAuthenticationCache | src/main/kotlin/com/openlattice/users/Auth0SyncService.kt:91-103 | nothing for an unknown principal; else it is cached with exactly the principals it acts as |
| Auth0Sync.Auth0SyncService.EnsureSecurablePrincipalExists | src/main/kotlin/com/openlattice/users/Auth0SyncService.kt:173-188 | a principal is created, titled by Title, exactly when none exists |
| Auth0Sync.Auth0SyncService.UpdateUser | src/main/kotlin/com/openlattice/users/Auth0SyncService.kt:59-65 | the user's principal exists afterwards and the user record is stored |
| Auth0Sync.Auth0SyncService.ProcessOrganizationEnrollments | src/main/kotlin/com/openlattice/users/Auth0SyncService.kt:140-162 | one membership per missing organization, with the email defaulting to "" |
| Auth0Sync.Auth0SyncService.AddMemberships | src/main/kotlin/com/openlattice/users/Auth0SyncService.kt:158-160 | the loop adds memberships in order |
| Auth0Sync.Auth0SyncService.SyncUserEnrollmentsAndAuthentication | src/main/kotlin/com/openlattice/users/Auth0SyncService.kt:67-79 | the global enrollment, then the organization enrollments, then the cache, then the mark; both caches change as syncAuthenticationCache says, the roles cache holding exactly the principals the user acts as |
| Auth0Sync.Auth0SyncService.SyncUser | src/main/kotlin/com/openlattice/users/Auth0SyncService.kt:54-57 | the user is stored; a principal is created exactly when none existed, and getPrincipal then finds it; the effects are the creation (if any), the global enrollment, the organization enrollments and the mark, in that order; both caches are refreshed as syncAuthenticationCache says, so the user's principal is cached |
| Auth0Task.RunSteps | conductor-client/src/main/kotlin/com/openlattice/users/Auth0SyncTask.kt:26-34 | nothing before the users are initialized; then the cache refresh followed by the sync |
| Auth0Task.Loaded | conductor-client/src/main/kotlin/com/openlattice/users/Auth0SyncTask.kt:60-64 | the snapshot's last sync if present, else the current one |
| Auth0Task.SaveLoadRoundTrip | conductor-client/src/main/kotlin/com/openlattice/users/Auth0SyncTask.kt:56-64 | loading a saved snapshot restores the saved time |
| Auth0Task.SaveKeepsOtherEntries | conductor-client/src/main/kotlin/com/openlattice/users/Auth0SyncTask.kt:56-58 | saving touches only the lastSync entry |
| Auth0Task.Auth0SyncTask.constructor | conductor-client/src/main/kotlin/com/openlattice/users/Auth0SyncTask.kt:24 | the sync task starts with the given last sync and no steps run |
| Auth0Task.Auth0SyncTask.RunTask | conductor-client/src/main/kotlin/com/openlattice/users/Auth0SyncTask.kt:26-34 | a run performs exactly RunSteps |
| Auth0Task.Auth0SyncTask.Save | conductor-client/src/main/kotlin/com/openlattice/users/Auth0SyncTask.kt:56-58 | the snapshot gets the last sync under LAST_SYNC |
| Auth0Task.Auth0SyncTask.Load | conductor-client/src/main/kotlin/com/openlattice/users/Auth0SyncTask.kt:60-64 | the last sync becomes Loaded of the snapshot |
| Seqs.FilterSpec | linker/src/main/kotlin/com/openlattice/linking/BackgroundLinkingService.kt:152-157 | filtering keeps exactly the passing elements, in order, without duplicates when there were none |
| Seqs.Dedup | linker/src/main/kotlin/com/openlattice/linking/matching/SocratesMatcher.kt:171-173 | the same elements, each once; a distinct list is unchanged |
| Seqs.OrderedUnion | linker/src/main/kotlin/com/openlattice/linking/BackgroundLinkingService.kt:136-150 | a linked hash set union: the elements of either, the first list first, each once |
| Ints.Wrap32 | linker/src/main/kotlin/com/openlattice/linking/BackgroundLinkingService.kt:162 | Int arithmetic: agrees with the exact value modulo 2^32 and equals it when it fits |

## Left out

- Concurrency is not modelled:
  - the executor and its threads;
  - the blocking `take` and `acquire` (shown as the QueueEmpty and Stalled outcomes);
  - the `ReentrantLock`s of the realtime service as shared between threads (RealtimeLocks follows only the linking thread's own holds), `clusterUpdateLock`, and `runLinking`'s `tryLock`;
  - parallel streams (the realtime batch is linked sequentially, in order);
  - Hazelcast's distributed locks.
- The limiter semaphore is modelled as a permit count.
- Hazelcast queries, whose iteration order matters, are modelled by an explicit order sequence.
- Collaborators appear only through their answers, passed as function parameters:
  - the Blocker;
  - the data loader;
  - LinkingQueryService and PostgresLinkingQueryService;
  - EntityKeyIdService.reserveIds;
  - the authorization, EDM, entity-set and partition managers;
  - the organization service;
  - the principals manager;
  - getConnections.
- The network and PersonMetric.pDistance are abstract functions. Nd4j's matrix layout is not modelled.
- Metrics, logging, Stopwatch timings and the clock are not modelled; the current time is a parameter.
- IdsGeneratingEntryProcessor and the refill job are not modelled. A range is known only by its base, treated as an unsigned 64-bit pattern; Kotlin's signed Long view of it is not modelled.
- HazelcastIdGenerationService.GetNextIds: the blocking `take` on an empty queue is replaced by requiring at least `count` queued ids.
- HazelcastIdGenerationService.GetNextId: the blocking `take` on an empty queue is replaced by requiring a non-empty queue.
- Streams: a UUID is two longs. A value of the wrong kind is reported as Malformed. Hazelcast's byte encoding is not modelled.
- ExternalTableSerializer.NewTable: an absent description becomes "". Its constructor is not part of this model; only its use with a present description is.
- The overloads that only add `Principals.getCurrentPrincipals()` or `edm.getPropertyTypesForEntitySet` are not modelled separately; their principals are parameters.
- `getAllPropertiesOnEntitySet` is the `allPropertiesOn` answer of the managers.
- `initializeAuditEdgeEntitySet` and `rollAuditEntitySet` are not modelled. The builders `buildAuditEntitySet`, `buildAuditEdgeEntitySet` and `buildName` depend on the clock and the partition manager, so the built sets are parameters.
- markUser's SQL and clock are reduced to a MarkedUser effect.
- getExpiredUsers, getCachedUsers and processGlobalEnrollments' app metadata are not modelled.
- `getPrincipal(user)` is taken to be the user principal of the user's id.
- Auth0Sync.IsNotBlank uses a fixed list of white-space characters: Java's `isWhitespace` set together with Unicode's space, line and paragraph separators. Unicode versions that add separators are not followed.
- Auth0SyncTask: the abstract `initializeUsers`, `syncUsers`, `updateUsersCache` and `initialized` are steps or flags of the model. `getName`, `getTimeUnit` and `getDependenciesClass` are not modelled.
- IndexerMatching.SocratesMatcher.Initialize and IndexerMatching.SocratesMatcher.Match return null where the source throws.
- LinkerMatching.SocratesMatcher.Initialize returns null where `entities.getValue` throws for a block without its own entity.
- LinkerMatching.GetModelScore logs "Return 0" on its fallback, but returns ones; the model follows the returned ones.
- BackgroundLinking.BackgroundLinkingService.Enqueue follows the code, which keeps one try around the whole loop over entity sets: the first failing fetch ends the enqueue.
- BackgroundLinking.BackgroundLinkingService.WorkerStep models the corrected worker, which releases its permit on the failed-lock path (see Findings). A turn's task runs to completion before the next turn.
- RealtimeLinking.LinkBlock does not model the cluster-lock bookkeeping of the map stage or of its exception handler. A failure is reported as an error value, which ends the run.
- RealtimeLinking.CollectInserts drops the `clusterLocks[...]!!.unlock()` of line 158, which as written throws for every update (see Findings). The lock bookkeeping, as written and corrected, is in RealtimeLocks (BlockAsWritten, BlockCorrected).
- RealtimeLinking.DrainEntitySet: the needing-linking query's successive answers are a finite list, and an answer past its end counts as empty, so the model assumes the query eventually answers empty. The source's while loop need not end: RealtimeLinking.DrainRepeatsUnlinkable shows a batch whose blocks all lack their own entity being cleared again on every turn and never linked.
- RealtimeLinking.RunLinking: drains each entity set with DrainEntitySet and so inherits the same assumption that every drain ends.

## Findings

| source | as written | input that shows it | evidently intended | confidence | as-written member | corrected member |
|---|---|---|---|---|---|---|
| linker/src/main/kotlin/com/openlattice/linking/BackgroundLinkingService.kt:182-185 | the worker acquires a `limiter` permit. When `tryLockCandidate` fails, the Runnable returns before the `try`/`finally` that releases the permit, so the permit is lost | a candidate that is already leased (queued twice, or leased by another node), with one permit: the first turn takes the permit and returns; the second turn blocks in `acquire` for good | the permit is released on every path of the Runnable | not executed | BackgroundLinking.StepAsWritten, BackgroundLinking.StepAsWrittenLeaks, BackgroundLinking.AsWrittenStalls | BackgroundLinking.Step, BackgroundLinking.StepKeepsPermitsAndLeases, BackgroundLinking.RunKeepsPermits, BackgroundLinking.BackgroundLinkingService.WorkerStep |
| indexer/src/main/kotlin/com/openlattice/linking/RealtimeLinkingService.kt:140, 157-161 | the forEach runs `clusterLocks[clusterUpdate.clusterId]!!.unlock()` before `insertMatchScores` and `updateLinkingTable`. A new cluster's reserved id never got a lock, so `!!` throws. For an existing cluster, line 140 already released the one hold the thread took at line 114, so `unlock()` throws IllegalMonitorStateException. Either way nothing is inserted | any block that reaches the map stage's result: with no existing cluster, its update is for a freshly reserved id; with one cluster `c`, its update is for `c` after `c`'s lock was released | the update's cluster stays locked until its scores and linking row are written, then is unlocked once; a new cluster needs no unlock | not executed | RealtimeLocks.BlockAsWritten, RealtimeLocks.NewClusterAsWrittenThrows, RealtimeLocks.ExistingClusterAsWrittenThrows, RealtimeLocks.LinkedBlockAsWrittenThrows, RealtimeLocks.AsWrittenInsertsNothing | RealtimeLocks.BlockCorrected, RealtimeLocks.BlockCorrectedInserts, RealtimeLocks.CorrectedRestoresHolds, RealtimeLinking.CollectInserts, RealtimeLinking.LinkKept, RealtimeLinking.LinkAllUpdatesKeptBlocks |
