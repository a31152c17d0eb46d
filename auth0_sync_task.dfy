/**
 * Auth0SyncTask: the fixed-rate task that refreshes the users cache and syncs
 * the users, and keeps the time of the last sync in the scheduler's snapshot.
 */
module Auth0Task {
  import opened Stores

  /** Two minutes, in milliseconds. */
  const REFRESH_INTERVAL_MILLIS: int := 120_000
  const DEFAULT_CHUNK_SIZE: int := 10_000
  /** The snapshot key under which the last sync is kept. */
  const LAST_SYNC: string := "lastSync"

  /** An Instant, as milliseconds since the epoch. */
  type Instant = int

  /** The abstract steps a run performs. */
  datatype TaskStep = UpdatedUsersCache | SyncedUsers

  /** What one run does: nothing until the users are initialized, then the cache refresh followed by the sync. */
  function RunSteps(initialized: bool): (r: seq<TaskStep>)
    ensures !initialized <==> r == []
    ensures initialized ==> |r| == 2 && r[0] == UpdatedUsersCache && r[1] == SyncedUsers
  {
    if initialized then [UpdatedUsersCache, SyncedUsers] else []
  }

  /** The scheduler's first delay: one refresh interval, two minutes. */
  function InitialDelay(): int { REFRESH_INTERVAL_MILLIS }

  /** The scheduler's period between runs: the same two minutes. */
  function Period(): int { REFRESH_INTERVAL_MILLIS }

  /** save: the snapshot with the last sync stored under LAST_SYNC. */
  function Saved(snapshot: map<string, Instant>, lastSync: Instant): map<string, Instant>
  {
    snapshot[LAST_SYNC := lastSync]
  }

  /** load: the last sync found in the snapshot, or the current one when the snapshot has none. */
  function Loaded(snapshot: map<string, Instant>, lastSync: Instant): (r: Instant)
    ensures LAST_SYNC in snapshot ==> r == snapshot[LAST_SYNC]
    ensures LAST_SYNC !in snapshot ==> r == lastSync
  {
    if LAST_SYNC in snapshot then snapshot[LAST_SYNC] else lastSync
  }

  /** Loading a saved snapshot restores the saved time, whatever the sync task held before. */
  lemma SaveLoadRoundTrip(snapshot: map<string, Instant>, saved: Instant, current: Instant)
    ensures Loaded(Saved(snapshot, saved), current) == saved
  {
  }

  /** Saving touches only the LAST_SYNC entry. */
  lemma SaveKeepsOtherEntries(snapshot: map<string, Instant>, lastSync: Instant, k: string)
    requires k != LAST_SYNC
    ensures k in Saved(snapshot, lastSync) <==> k in snapshot
    ensures k in snapshot ==> Saved(snapshot, lastSync)[k] == snapshot[k]
  {
  }

  class Auth0SyncTask {
    var lastSync: Instant
    /** Whether initialized() currently answers true. */
    var usersInitialized: bool
    /** The steps run so far. */
    var steps: seq<TaskStep>

    constructor (lastSync: Instant, usersInitialized: bool)
      ensures this.lastSync == lastSync && this.usersInitialized == usersInitialized && steps == []
    {
      this.lastSync := lastSync;
      this.usersInitialized := usersInitialized;
      steps := [];
    }

    /** runTask */
    method RunTask()
      modifies this
      ensures steps == old(steps) + RunSteps(usersInitialized)
      ensures lastSync == old(lastSync) && usersInitialized == old(usersInitialized)
    {
      if !usersInitialized {
        return;
      }
      steps := steps + [UpdatedUsersCache];
      steps := steps + [SyncedUsers];
    }

    /** save */
    method Save(snapshot: MutableMap<string, Instant>)
      modifies snapshot
      ensures snapshot.contents == Saved(old(snapshot.contents), lastSync)
    {
      snapshot.contents := snapshot.contents[LAST_SYNC := lastSync];
    }

    /** load */
    method Load(snapshot: MutableMap<string, Instant>)
      modifies this
      ensures lastSync == Loaded(snapshot.contents, old(lastSync))
      ensures usersInitialized == old(usersInitialized) && steps == old(steps)
    {
      if LAST_SYNC in snapshot.contents {
        lastSync := snapshot.contents[LAST_SYNC];
      }
    }
  }
}
