/** The client: what callers may do, what the loop may do, and what holds however the two are
    interleaved. */
module Clients {
  import opened Sequences
  import opened Outcomes
  import opened Records
  import opened Disk
  import opened WriteAhead
  import opened BatchStore
  import opened Tallies
  import opened Transports
  import opened Splitting
  import opened Deliveries
  import opened Ledgers
  import opened Batchers

  /** What building and validating an event made of a call. */
  datatype Verdict = Nameless | Refused | Built(event: Event)

  /** One thing that happens: a call of the application, or a case of the loop's select. */
  datatype Stimulus =
    | Call(verdict: Verdict, ctx: Context)       // Track, CaptureError, Page, Identify
    | BadRevenue                                 // TrackRevenue with an invalid payload
    | Close                                      // Shutdown, up to its wait
    | TakeEvent | TakeTick | TakeFlush(ctx: Context) | TakeStop

  /** A case of the loop's select, not a call. */
  predicate ForLoop(stimulus: Stimulus) {
    stimulus.TakeEvent? || stimulus.TakeTick? || stimulus.TakeFlush? || stimulus.TakeStop?
  }

  datatype Config = Config(apiKey: string, path: string, maxQueueSize: int, flushSize: int, maxRetries: int)

  /** What New fixes for good. */
  datatype Setup = Setup(flushSize: nat, limit: int, enabled: bool, maxRetries: nat)

  function LineFor(setup: Setup, ctx: Context): Line {
    Line(setup.enabled, ctx, setup.maxRetries)
  }

  /** All there is to see of a client between two steps. */
  datatype Moment = Moment(view: View, channel: seq<Inbound>, cause: Option<Error>, closed: bool, exited: bool,
                           log: seq<Step>)

  /** The budget has room for one more event. */
  predicate HasRoom(t: Tally, limit: int) {
    t.unsent + t.recoveryOwned + t.durableCurrent < limit
  }

  /** One more event refused before it reached the queue. */
  function WithRefusal(m: Moment): Moment {
    m.(view := m.view.(tally := m.view.tally.(rejected := m.view.tally.rejected + 1)))
  }

  /** What one call does: nothing once the client is closed or without a name; a refused event is
      counted; any other is queued under the context of the call, or dropped for want of room. */
  function AfterCall(limit: int, m: Moment, verdict: Verdict, ctx: Context): Moment {
    if m.closed || verdict.Nameless? then m
    else if verdict.Refused? then WithRefusal(m)
    else if HasRoom(m.view.tally, limit) then
      m.(view := Admitted(m.view, verdict.event), channel := m.channel + [Inbound(verdict.event, ctx)])
    else m.(view := Declined(m.view))
  }

  /** There is nothing for the loop to do: it has exited, or what it is to take is not there. */
  predicate Idle(stimulus: Stimulus, m: Moment) {
    m.exited || (stimulus.TakeEvent? && m.channel == []) || (stimulus.TakeStop? && !m.closed)
  }

  /** What the loop does for a stimulus, from one moment to the next, down to every entry of the
      journal and the error it remembers. Callers may add events meanwhile, unless the client is
      closed. */
  ghost predicate Worked(setup: Setup, m: Moment, n: Moment, stimulus: Stimulus, reply: Option<Error>, work: Work) {
    if Idle(stimulus, m) then
      n == m && work == NO_WORK && (stimulus.TakeFlush? ==> reply == Some(Closed))
    else
      && n.closed == m.closed && n.exited == stimulus.TakeStop?
      && m.view.accepted <= n.view.accepted && (m.closed ==> n.view.accepted == m.view.accepted)
      && n.log == m.log + EntriesOf(work) && n.cause == CauseOfWork(work, m.cause)
      && match stimulus
         case TakeEvent =>
           && m.view.channel != [] && m.channel[1..] <= n.channel
           && Took(LineFor(setup, m.channel[0].ctx), setup.flushSize, m.view, n.view, work)
         case TakeTick =>
           && Cycled(LineFor(setup, Background), setup.flushSize, m.view, n.view, reply, work)
           && (work.pass.value.blocked.Some? ==> m.channel <= n.channel)
         case TakeFlush(ctx) =>
           && Cycled(LineFor(setup, ctx), setup.flushSize, Drained(m.view), n.view, reply, work)
           && (reply.None? ==> Flushed(m.view, n.view))
         case TakeStop =>
           Finished(LineFor(setup, Background), setup.flushSize, m.view, n.view, work)
         case _ => true
  }

  /** One step: a call, or a turn of the loop. */
  ghost predicate Reacted(setup: Setup, m: Moment, n: Moment, stimulus: Stimulus, reply: Option<Error>, work: Work) {
    match stimulus
    case Call(verdict, ctx) => n == AfterCall(setup.limit, m, verdict, ctx)
    case BadRevenue => n == WithRefusal(m)
    case Close => n == m.(closed := true)
    case _ => Worked(setup, m, n, stimulus, reply, work)
  }

  class Client {
    const batch: Batcher
    var closed: bool
    var exited: bool       // doneCh is closed

    ghost predicate Valid()
      reads this, batch, batch.counters, batch.store
    {
      && batch.Valid([])
      && (closed <==> batch.stopped)
      && (batch.handedOver ==> exited && batch.store.Enabled())
      && (exited ==> closed && batch.channel == [] && batch.pending == [])
    }

    constructor (batch: Batcher)
      requires batch.Valid([]) && !batch.stopped && !batch.handedOver
      ensures Valid() && !closed && !exited && this.batch == batch
    {
      this.batch, closed, exited := batch, false, false;
    }

    ghost function Fixed(): Setup
      requires batch.flushSize >= 0
    {
      Setup(batch.flushSize, batch.queueLimit, batch.store.Enabled(), batch.transport.maxRetries)
    }

    ghost function Now(): Moment
      requires batch.store.Valid()
      reads this, batch, batch.counters, batch.store
    {
      Moment(batch.Look([]), batch.channel, batch.lastCause, closed, exited, Log(batch.store.steps))
    }

    /** enqueue, called with stateMu held. */
    method Enqueue(verdict: Verdict, ctx: Context)
      requires Valid()
      modifies batch, batch.counters
      ensures Valid() && Now() == AfterCall(batch.queueLimit, old(Now()), verdict, ctx)
    {
      hide Sound, Mirrored, Law, Log, Justified, Documented;
      if closed { return; }
      match verdict
      case Nameless =>
      case Refused => batch.Reject();
      case Built(event) => var ok := batch.Enqueue(event, ctx, []);
    }

    /** TrackRevenue with an invalid payload. */
    method RejectRevenue()
      requires Valid()
      modifies batch.counters
      ensures Valid() && Now() == WithRefusal(old(Now()))
    {
      hide Sound, Mirrored, Law, Log, Justified, Documented;
      batch.Reject();
    }

    /** Shutdown, up to its wait: closed first, then stop, and only once. */
    method Close()
      requires Valid()
      modifies this`closed, batch`stopped
      ensures Valid() && Now() == old(Now()).(closed := true)
    {
      hide Sound, Mirrored, Law, Log, Justified, Documented;
      if !closed {
        closed := true;
        batch.Stop([]);
      }
    }

    /** One case of the loop's select, if it is ready; `reply` is what a flush request gets and
        `work` what the loop did for it. A request still queued when the loop exits is answered
        that the client is closed. */
    method Turn(stimulus: Stimulus) returns (reply: Option<Error>, ghost work: Work)
      requires Valid() && ForLoop(stimulus)
      modifies this`exited, batch, batch.counters, batch.store
      ensures Valid() && Worked(Fixed(), old(Now()), Now(), stimulus, reply, work)
    {
      hide Sound, Mirrored, Law, Log, Justified, Documented, Flushed, Total, Opens, Works, EntriesOf, Took, Cycled,
           Finished, CauseOfWork;
      reply, work := None, NO_WORK;
      if exited {
        if stimulus.TakeFlush? { reply := Some(Closed); }
        return;
      }
      match stimulus
      case TakeEvent =>
        if batch.channel != [] {
          EventsOfSplit(batch.channel);
          work := batch.HandleInbound();
        }
      case TakeTick =>
        reply, work := batch.HandleTick();
      case TakeFlush(ctx) =>
        reply, work := batch.HandleFlush(ctx);
      case TakeStop =>
        if batch.stopped { work := TakeStop(); }
    }

    method TakeStop() returns (ghost work: Work)
      requires Valid() && !exited && closed
      modifies this`exited, batch, batch.counters, batch.store
      ensures Valid() && exited && batch.accepted == old(batch.accepted)
      ensures Log(batch.store.steps) == old(Log(batch.store.steps)) + EntriesOf(work)
      ensures batch.lastCause == CauseOfWork(work, old(batch.lastCause))
      ensures Finished(batch.LineOf(Background), batch.flushSize, old(batch.Look([])), batch.Look([]), work)
    {
      hide Sound, Mirrored, Law, Log, Justified, Documented, Total, Opens, Works, EntriesOf, Draining, CauseOfWork;
      work := batch.Finish(Background);
      exited := true;
    }

    method Step(stimulus: Stimulus) returns (reply: Option<Error>, ghost work: Work)
      requires Valid()
      modifies this, batch, batch.counters, batch.store
      ensures Valid() && Reacted(Fixed(), old(Now()), Now(), stimulus, reply, work)
    {
      hide Sound, Mirrored, Law, Log, Justified, Documented, Worked;
      reply, work := None, NO_WORK;
      match stimulus
      case Call(verdict, ctx) => Enqueue(verdict, ctx);
      case BadRevenue => RejectRevenue();
      case Close => Close();
      case _ => reply, work := Turn(stimulus);
    }

    /** Any finite run: calls and loop turns in any order, with any answers of the endpoint and
        any failures of the disk. `course` are the moments it went through, each step from one to
        the next as its stimulus asks. Every law of the engine holds after it; each event settled
        by then met its fate for a reason the journal shows; and when the loop has taken its stop
        every accepted event is settled and the counters account for it. */
    method Run(schedule: seq<Stimulus>)
      returns (ghost course: seq<Moment>, ghost replies: seq<Option<Error>>, ghost works: seq<Work>)
      requires Valid()
      modifies this, batch, batch.counters, batch.store
      ensures Valid() && Went(Fixed(), schedule, course, replies, works)
      ensures course[0] == old(Now()) && course[|schedule|] == Now()
      ensures Justified(batch.store.Enabled(), false, batch.settled, batch.fates, Log(batch.store.steps))
      ensures exited ==> Accounted(batch.Look([]))
    {
      hide Sound, Mirrored, Law, Log, Justified, Documented, Reacted;
      course, replies, works := [Now()], [], [];
      for i := 0 to |schedule|
        invariant Valid() && Went(Fixed(), schedule[..i], course, replies, works)
        invariant course[0] == old(Now()) && course[i] == Now()
      {
        var reply; ghost var work;
        reply, work := Step(schedule[i]);
        WentOn(Fixed(), schedule, i, course, replies, works, Now(), reply, work);
        course, replies, works := course + [Now()], replies + [reply], works + [work];
      }
      assert schedule[..|schedule|] == schedule;
      NothingLeft(batch.Look([]), batch.flushSize, batch.queueLimit);
      EveryFateIsJustified();
    }

    /** Each settled event met its fate for a reason the journal shows. */
    lemma EveryFateIsJustified()
      requires Valid()
      ensures Justified(batch.store.Enabled(), false, batch.settled, batch.fates, Log(batch.store.steps))
    {
      hide Sound, Mirrored, Law, Log, Justified, Attested, Select;
      if batch.handedOver { JustifiedWithWal(true, batch.settled, batch.fates, Log(batch.store.steps)); }
    }

    /** What every run keeps, read off at any moment between two steps: conservation, the budget,
        the first-in-first-out partition of the accepted events, and the shape and the WAL-first
        order of the chunks. */
    lemma AnyMoment()
      requires Valid()
      ensures var t := batch.counters.Now();
        && t.enqueued == |batch.accepted| == t.unsent + t.durableCurrent + t.delivered + (t.failed - t.recoveryFailed)
        && t.unsent == |batch.channel| + |batch.pending|
        && Total(batch.store.Wal()) == t.recoveryOwned + t.durableCurrent
        && (!exited ==> t.recoveryOwned == 0 || t.durableCurrent == 0)
        && t.unsent + t.recoveryOwned + t.durableCurrent <= batch.queueLimit
        && batch.counters.UndeliveredAtDeadline() == t.recoveryOwned + t.unsent + t.durableCurrent
      ensures batch.accepted == Chunks(batch.handed) + batch.pending + EventsOf(batch.channel)
      ensures forall h :: h in batch.handed ==>
        && 1 <= |h.events| <= batch.flushSize
        && (h.trigger.SizeReached? ==> |h.events| == batch.flushSize)
        && (h.trigger.SizeReached? || h.trigger.DrainFirst? ==> h.backlog == 0)
    {
      hide Mirrored, Law, Log, Justified, Documented, Retains, Tallied;
      assert batch.settled + [] == batch.settled;
      DeadlineCountIsExact(batch.Look([]), batch.flushSize, batch.queueLimit);
    }

    /** Where every settled event is at any moment. One settled as sent was in a post answered
        2xx. A lost one was in a batch rejected for good, or its write-ahead failed, or it was
        posted in vain without a WAL. A retained one is in the WAL behind the events of earlier
        processes, in order, or was in a post answered 2xx or with a terminal 4xx, as its outcome
        says. The counters are the numbers of these. */
    lemma EveryEventIsAccountedFor()
      requires Valid()
      ensures |batch.settled| == |batch.fates| && AllValid(batch.store.Wal())
      ensures var log := Log(batch.store.steps);
        forall i :: 0 <= i < |batch.settled| ==>
          && (batch.fates[i].Sent? ==> AcceptedIn(log, batch.settled[i]))
          && (batch.fates[i].Lost? ==>
                || RejectedIn(log, batch.settled[i])
                || (if batch.store.Enabled() then MissedIn(log, batch.settled[i]) else PostedIn(log, batch.settled[i])))
          && (batch.fates[i].Kept? ==> batch.store.Enabled())
      ensures var kept := Select(batch.settled, batch.fates, Kept); var n := |batch.outcomes|;
        var log := Log(batch.store.steps); var owned := batch.counters.recoveryOwned;
        && n + batch.counters.durableCurrent == |kept|
        && 0 <= owned <= |WalEvents(batch.store.Wal())| && kept[n..] == WalEvents(batch.store.Wal())[owned..]
        && (forall i :: 0 <= i < n ==>
              if batch.outcomes[i].Sent? then AcceptedIn(log, kept[i])
              else batch.outcomes[i].Lost? && RejectedIn(log, kept[i]))
      ensures batch.counters.delivered == Count(batch.fates, Sent) + Count(batch.outcomes, Sent)
      ensures batch.counters.failed - batch.counters.recoveryFailed == Count(batch.fates,
          Lost) + Count(batch.outcomes, Lost)
    {
      hide Mirrored, Law, Log, AcceptedIn, RejectedIn, MissedIn, PostedIn, Count, Select, WalEvents, Ordered, Shaped,
           Balanced;
      SelectCount(batch.settled, batch.fates, Kept);
      var kept := Select(batch.settled, batch.fates, Kept);
      EveryFateIsJustified();
      forall i | 0 <= i < |batch.outcomes|
        ensures if batch.outcomes[i].Sent? then AcceptedIn(Log(batch.store.steps), kept[i])
                else batch.outcomes[i].Lost? && RejectedIn(Log(batch.store.steps), kept[i])
      {
        assert kept[..|batch.outcomes|][i] == kept[i];
      }
    }

    /** A crash at any point of any run: a batch posted before it had its final answer, or the
        next process finds its body in the WAL byte for byte. */
    lemma EveryPostedBatchIsSafe(i: nat, k: nat)
      requires Valid() && batch.store.Enabled()
      requires i < k <= |batch.store.steps| && batch.store.steps[i].Posted?
      ensures Safe(batch.store.origin, batch.store.steps[..k], batch.store.steps[i].body)
    {
      hide Sound, Mirrored, Justified, Documented;
      NoPostedBatchIsForgotten(batch.store.origin, batch.store.steps, i, k);
    }

    /** A restart at any moment: the file is what memory says, it loads under a limit if and only
        if the limit covers its events, and whatever a power loss leaves instead was there
        before this process or loads as well. */
    lemma AnyMomentRestarts(limit: int)
      requires Valid() && batch.store.Enabled()
      ensures Reload(batch.store.disk.file) == batch.store.Wal()
      ensures Loadable(batch.store.disk.file, limit) <==> limit >= 1 && batch.store.PendingEvents() <= limit
      ensures forall file :: file in Survivors(batch.store.disk) ==>
        file in Survivors(batch.store.origin) || Loadable(file, batch.queueLimit)
    {
      hide Sound, Justified, Documented, Law;
      ReopenRoundTrip(batch.store, limit);
    }

    /** Shutdown's wait: the loop's exit, or the caller's deadline before it, wherever the loop
        is, with `inHand` the chunk it is sending. */
    method Await(ghost inHand: seq<Event>) returns (err: Option<Error>)
      requires if exited then Valid() && inHand == [] else batch.Valid(inHand)
      ensures err.None? ==> exited && Total(batch.store.Wal()) == 0
      ensures err.None? ==> batch.counters.delivered == batch.counters.enqueued == |batch.accepted|
      ensures exited && batch.counters.failed == 0 && batch.counters.rejected == 0 ==>
        (err.None? <==> Total(batch.store.Wal()) == 0)
      ensures !exited ==> err.Some?
      ensures err.Some? && batch.counters.failed == 0 && batch.counters.rejected == 0 ==>
        err.value.Undelivered?
        && err.value.count == Total(batch.store.Wal()) + |batch.channel| + |batch.pending| + |inHand|
    {
      hide Sound, Mirrored, Law, Log, Justified, Documented, Total;
      if exited {
        err := batch.WaitDone();
      } else {
        var late := batch.DeadlineExpired(batch.Look(inHand));
        err := Some(late);
      }
    }
  }

  /** A run: one moment more than stimuli, and each step as its stimulus asks. */
  ghost predicate Went(setup: Setup, schedule: seq<Stimulus>, course: seq<Moment>, replies: seq<Option<Error>>,
                       works: seq<Work>)
  {
    && |course| == |schedule| + 1 && |replies| == |works| == |schedule|
    && forall i :: 0 <= i < |schedule| ==>
         Reacted(setup, course[i], course[i + 1], schedule[i], replies[i], works[i])
  }

  lemma WentOn(setup: Setup, schedule: seq<Stimulus>, i: nat, course: seq<Moment>, replies: seq<Option<Error>>,
               works: seq<Work>, next: Moment, reply: Option<Error>, work: Work)
    requires i < |schedule| && Went(setup, schedule[..i], course, replies, works)
    requires Reacted(setup, course[i], next, schedule[i], reply, work)
    ensures Went(setup, schedule[..i + 1], course + [next], replies + [reply], works + [work])
  {
    hide Reacted;
    var s, c, r, w := schedule[..i + 1], course + [next], replies + [reply], works + [work];
    forall j | 0 <= j < |s| ensures Reacted(setup, c[j], c[j + 1], s[j], r[j], w[j]) {
      if j < i { assert s[j] == schedule[..i][j] && c[j] == course[j] && c[j + 1] == course[j + 1]; }
    }
  }

  /** No step takes an accepted event back, nor reopens the client; a closed one accepts nothing. */
  lemma StepKeepsAccepted(setup: Setup, m: Moment, n: Moment, stimulus: Stimulus, reply: Option<Error>, work: Work)
    requires Reacted(setup, m, n, stimulus, reply, work)
    ensures m.view.accepted <= n.view.accepted && (m.closed ==> n.closed && n.view.accepted == m.view.accepted)
  {
    hide Took, Cycled, Finished, EntriesOf, CauseOfWork, Flushed;
  }

  lemma {:induction false} RunKeepsAccepted(setup: Setup, schedule: seq<Stimulus>, course: seq<Moment>,
                                            replies: seq<Option<Error>>, works: seq<Work>, i: nat, k: nat)
    requires Went(setup, schedule, course, replies, works) && i <= k <= |schedule|
    ensures course[i].view.accepted <= course[k].view.accepted
    ensures course[i].closed ==> course[k].closed && course[k].view.accepted == course[i].view.accepted
    decreases k
  {
    hide Reacted;
    if i < k {
      RunKeepsAccepted(setup, schedule, course, replies, works, i, k - 1);
      StepKeepsAccepted(setup, course[k - 1], course[k], schedule[k - 1], replies[k - 1], works[k - 1]);
    }
  }

  /** From the call to its end: an event that a call hands over while the client is open and the
      budget has room is accepted at the next place, stays there in every later moment of the run,
      and once everything accepted is settled (as it is after the exit, see Run) it is settled at
      that very place. */
  lemma CalledEventIsSettled(setup: Setup, schedule: seq<Stimulus>, course: seq<Moment>, replies: seq<Option<Error>>,
                             works: seq<Work>, i: nat, k: nat)
    requires Went(setup, schedule, course, replies, works) && i < k <= |schedule|
    requires schedule[i].Call? && schedule[i].verdict.Built? && !course[i].closed
    requires HasRoom(course[i].view.tally, setup.limit)
    ensures var place, e := |course[i].view.accepted|, schedule[i].verdict.event;
      && place < |course[k].view.accepted| && course[k].view.accepted[place] == e
      && course[i + 1].channel == course[i].channel + [Inbound(e, schedule[i].ctx)]
      && (course[k].view.settled == course[k].view.accepted ==> course[k].view.settled[place] == e)
  {
    RunKeepsAccepted(setup, schedule, course, replies, works, i + 1, k);
    assert Reacted(setup, course[i], course[i + 1], schedule[i], replies[i], works[i]);
  }

  /** Every accepted event was settled, in order, and is counted once: delivered, lost, or kept
      in the WAL for a restart. */
  ghost predicate Accounted(v: View) {
    && v.settled == v.accepted && v.tally.unsent == 0
    && v.tally.enqueued == |v.accepted|
    && |v.accepted| == v.tally.delivered + v.tally.durableCurrent + (v.tally.failed - v.tally.recoveryFailed)
  }

  /** A client that starts over this WAL: nothing has happened yet, and it owes the events of the
      WAL alone. */
  ghost function Beginning(wal: seq<Record>): Moment {
    Moment(View([], [], [], [], [], [], [], [], Tally(0, 0, 0, 0, 0, 0, Total(wal), 0, 0), wal, false), [], None,
           false, false, [])
  }

  /** New: the configuration is checked, the WAL is loaded and the parts are wired together. */
  method New(config: Config, syncs: bool, disk: Disk, readable: bool) returns (client: Client?)
    requires WellFormed(disk)
    ensures client != null <==>
      && config.apiKey != "" && 1 <= config.flushSize <= config.maxQueueSize && config.maxRetries >= 0
      && (config.path == ""
          || (readable && NotAFolder !in disk.folders && Loadable(disk.file, config.maxQueueSize)))
    ensures client != null ==>
      && fresh(client) && client.Valid()
      && client.Fixed() == Setup(config.flushSize, config.maxQueueSize, config.path != "", config.maxRetries)
      && client.Now() == Beginning(if config.path == "" then [] else Reload(disk.file))
      && client.batch.store.path == config.path && client.batch.store.syncs == syncs
      && client.batch.store.disk == client.batch.store.origin == disk
  {
    hide Sound, Mirrored, Law, Log, Justified, Documented, Total, Consistent, Loadable;
    client := null;
    if config.apiKey == "" { return; }
    if config.maxQueueSize < 1 || config.flushSize < 1 || config.maxRetries < 0 { return; }
    if config.flushSize > config.maxQueueSize { return; }
    var store, err; ghost var at;
    store, err, at := Open(config.path, config.maxQueueSize, syncs, disk, readable);
    if err.Some? { return; }
    client := Assemble(config, store);
  }

  /** The parts around a store just opened. */
  method Assemble(config: Config, store: FileBatchStore) returns (client: Client)
    requires store.Valid() && store.steps == []
    requires 1 <= config.flushSize <= config.maxQueueSize == store.maxPendingEvents && config.maxRetries >= 0
    ensures fresh(client) && client.Valid() && client.batch.store == store
    ensures client.Fixed() == Setup(config.flushSize, config.maxQueueSize, store.Enabled(), config.maxRetries)
    ensures client.Now() == Beginning(store.Wal())
  {
    hide Sound, Mirrored, Law, Justified, Documented, Total;
    store.Facts();
    var counters := new Counters(store);
    var transport := new Transport(config.maxRetries, store, counters);
    var batch := new Batcher(config.flushSize, store, counters, transport);
    client := new Client(batch);
  }
}
