/** The batcher's atomic counters and the steps that tie them to the WAL. */
module Tallies {
  import opened BatchStore

  /** A snapshot of all counters. */
  datatype Tally = Tally(
    enqueued: int, delivered: int, dropped: int, rejected: int, failed: int, unsent: int,
    recoveryOwned: int, recoveryFailed: int, durableCurrent: int)

  /** What resolving `resolved` recovered events, `lost` of them by rejection, does to the
      counters: records of an earlier process leave recoveryOwned and their losses are set
      apart, records of this process leave durableCurrent and count as its own outcomes. */
  function Resolved(t: Tally, resolved: int, lost: int): Tally {
    if t.recoveryOwned > 0 then
      t.(recoveryOwned := t.recoveryOwned - resolved, failed := t.failed + lost,
         recoveryFailed := t.recoveryFailed + lost)
    else
      t.(durableCurrent := t.durableCurrent - resolved, failed := t.failed + lost,
         delivered := t.delivered + resolved - lost)
  }

  /** The WAL holds the events of earlier processes or retained ones of this process, never
      both: that is the state of every cycle until shutdown hands over. */
  predicate Coupled(t: Tally, pendingEvents: int) {
    && t.recoveryOwned >= 0 && t.durableCurrent >= 0
    && pendingEvents == t.recoveryOwned + t.durableCurrent
    && (t.recoveryOwned == 0 || t.durableCurrent == 0)
  }

  /** Resolving two batches of records one after the other is resolving them together. */
  lemma ResolvedTwice(t: Tally, pendingEvents: int, r0: int, l0: int, r1: int, l1: int)
    requires Coupled(t, pendingEvents) && 0 <= r0 && 0 < r1 && r0 + r1 <= pendingEvents
    ensures Resolved(Resolved(t, r0, l0), r1, l1) == Resolved(t, r0 + r1, l0 + l1)
    ensures Coupled(Resolved(t, r0, l0), pendingEvents - r0)
  {
  }

  class Counters {
    const store: FileBatchStore
    var enqueued: int         // events the queue took
    var delivered: int        // answered 2xx, at once or in recovery
    var dropped: int          // turned away for want of budget
    var rejected: int         // never queued, being invalid
    var failed: int           // lost for good
    var unsent: int           // queued, pending or in hand
    var recoveryOwned: int    // WAL events of earlier processes
    var recoveryFailed: int   // the part of failed that belongs to earlier processes
    var durableCurrent: int   // WAL events of this process

    constructor (store: FileBatchStore)
      ensures this.store == store
      ensures Now() == Tally(0, 0, 0, 0, 0, 0, store.PendingEvents(), 0, 0)
    {
      this.store := store;
      enqueued, delivered, dropped, rejected, failed, unsent := 0, 0, 0, 0, 0, 0;
      recoveryOwned, recoveryFailed, durableCurrent := store.PendingEvents(), 0, 0;
    }

    function Now(): Tally
      reads this
    {
      Tally(enqueued, delivered, dropped, rejected, failed, unsent, recoveryOwned, recoveryFailed, durableCurrent)
    }

    /** updateRecoveryOwned: recoveryOwned follows the WAL down, never up. */
    method UpdateRecoveryOwned()
      modifies this`recoveryOwned
      ensures var remaining, owned := store.PendingEvents(), old(recoveryOwned);
        recoveryOwned == if remaining < owned then remaining else owned
    {
      var remaining := store.PendingEvents();
      var owned := recoveryOwned;
      if remaining >= owned { return; }
      recoveryOwned := remaining;
    }

    /** recordRecoveryProgress: one recovered record of `resolved` events has left the WAL,
        delivered (`lost` 0) or rejected (`lost` all of them). */
    method RecordRecoveryProgress(resolved: int, lost: int)
      requires resolved > 0 && (lost == 0 || lost == resolved)
      requires store.PendingEvents() >= 0 && Coupled(Now(), store.PendingEvents() + resolved)
      modifies this
      ensures Now() == Resolved(old(Now()), resolved, lost)
      ensures Coupled(Now(), store.PendingEvents())
    {
      var initial := recoveryOwned > 0;
      if lost > 0 {
        failed := failed + lost;
        if initial {
          recoveryFailed := recoveryFailed + lost;
        }
      }
      if !initial && resolved > 0 {
        durableCurrent := durableCurrent - resolved;
        if lost == 0 {
          delivered := delivered + resolved;
        }
      }
      UpdateRecoveryOwned();
    }

    /** undeliveredAtDeadline */
    function UndeliveredAtDeadline(): int
      reads this
    {
      var currentFailed := failed - recoveryFailed;
      var outstanding := enqueued - delivered - currentFailed;
      recoveryOwned + if outstanding < 0 then 0 else outstanding
    }
  }
}
