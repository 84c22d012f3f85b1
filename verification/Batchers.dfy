/** The batcher: one loop that cuts the queue into chunks, sends or persists them and keeps
    every counter in step. */
module Batchers {
  import opened Sequences
  import opened Outcomes
  import opened Records
  import opened WriteAhead
  import opened BatchStore
  import opened Tallies
  import opened Transports
  import opened Splitting
  import opened Deliveries
  import opened Ledgers

  /** An event with the context of the call that enqueued it. */
  datatype Inbound = Inbound(event: Event, ctx: Context)

  function EventsOf(channel: seq<Inbound>): (events: seq<Event>)
    ensures |events| == |channel|
    ensures forall i :: 0 <= i < |channel| ==> events[i] == channel[i].event
  {
    seq(|channel|, i requires 0 <= i < |channel| => channel[i].event)
  }

  lemma EventsOfSplit(channel: seq<Inbound>)
    requires channel != []
    ensures EventsOf(channel)[0] == channel[0].event && EventsOf(channel)[1..] == EventsOf(channel[1..])
  {
  }

  lemma EventsOfAppend(channel: seq<Inbound>, last: Inbound)
    ensures EventsOf(channel + [last]) == EventsOf(channel) + [last.event]
  {
  }

  /** A drain of `n` chunks: the first of them is handed out as such, hence with an empty WAL. */
  ghost predicate FirstFindsNothingKept(before: seq<Handout>, after: seq<Handout>, n: nat) {
    && |after| == |before| + n && before <= after
    && (n > 0 ==> after[|before|].trigger.DrainFirst?)
  }

  class Batcher {
    const flushSize: int
    const queueLimit: int
    const store: FileBatchStore
    const counters: Counters
    const transport: Transport
    var channel: seq<Inbound>
    var pending: seq<Event>
    var lastCause: Option<Error>
    var stopped: bool
    ghost var accepted: seq<Event>
    ghost var handed: seq<Handout>
    ghost var settled: seq<Event>
    ghost var fates: seq<Fate>
    ghost var outcomes: seq<Fate>
    ghost var handedOver: bool

    /** New's wiring of the parts, and the configuration it accepts. */
    ghost predicate Wired() {
      && transport.store == store && transport.progress == counters && counters.store == store
      && store.maxPendingEvents == queueLimit && 1 <= flushSize <= queueLimit
    }

    /** How this engine sends a chunk under a context. */
    function LineOf(ctx: Context): Line {
      Line(store.Enabled(), ctx, transport.maxRetries)
    }

    /** Everything there is to see of the engine while `inHand` is still to be settled. */
    ghost function Look(inHand: seq<Event>): View
      requires store.Valid()
      reads this, counters, store
    {
      View(EventsOf(channel), pending, inHand, settled, fates, outcomes, accepted, handed, counters.Now(),
           store.Wal(), handedOver)
    }

    ghost predicate Valid(inHand: seq<Event>)
      reads this, counters, store
    {
      Wired() && store.Valid() && Sound(Look(inHand), flushSize, queueLimit) && transport.Lawful()
      && Documented(store.Enabled(), handedOver, settled, fates, outcomes, Log(store.steps))
    }

    /** newBatcher over a store just opened. */
    constructor (flushSize: int, store: FileBatchStore, counters: Counters, transport: Transport)
      requires transport.store == store && transport.progress == counters && counters.store == store
      requires 1 <= flushSize <= store.maxPendingEvents
      requires store.Valid() && store.steps == []
      requires counters.Now() == Tally(0, 0, 0, 0, 0, 0, store.PendingEvents(), 0, 0)
      ensures Valid([]) && !stopped && !handedOver
      ensures this.store == store && this.counters == counters && this.transport == transport
      ensures this.flushSize == flushSize && queueLimit == store.maxPendingEvents
      ensures Look([]) == View([], [], [], [], [], [], [], [], counters.Now(), store.Wal(), false)
      ensures channel == [] && lastCause == None
    {
      this.flushSize, this.queueLimit := flushSize, store.maxPendingEvents;
      this.store, this.counters, this.transport := store, counters, transport;
      channel, pending, lastCause, stopped := [], [], None, false;
      accepted, handed, settled, fates, outcomes, handedOver := [], [], [], [], [], false;
      new;
      hide *;
      StartsValid();
    }

    /** An engine over a store just opened obeys every law. */
    lemma StartsValid()
      requires Wired() && store.Valid() && store.steps == []
      requires counters.Now() == Tally(0, 0, 0, 0, 0, 0, store.PendingEvents(), 0, 0)
      requires channel == [] && pending == [] && accepted == [] && handed == [] && settled == [] && fates == []
      requires outcomes == [] && !handedOver
      ensures Valid([])
      ensures Look([]) == View([], [], [], [], [], [], [], [], counters.Now(), store.Wal(), false)
    {
      hide Sound, Mirrored, Justified, Documented;
      store.Facts();
      WalEventsCount(store.Wal());
      StartIsSound(store.Wal(), counters.Now(), flushSize, queueLimit);
      NothingToDocument(store.Enabled(), Log(store.steps));
    }

    /** enqueue: reserve a place in the budget, then push. The reservation and the push are one
        step here; Admission.dfy takes them apart. */
    method Enqueue(event: Event, ctx: Context, ghost inHand: seq<Event>) returns (ok: bool)
      requires Valid(inHand)
      modifies this`channel, this`accepted, counters
      ensures Valid(inHand)
      ensures ok <==> old(counters.unsent + counters.recoveryOwned + counters.durableCurrent) < queueLimit
      ensures Look(inHand) == if ok then Admitted(old(Look(inHand)), event) else Declined(old(Look(inHand)))
      ensures channel == if ok then old(channel) + [Inbound(event, ctx)] else old(channel)
    {
      hide Sound, Mirrored, Law, Log, Justified, Documented;
      ghost var v := Look(inHand);
      AdmissionIsSound(v, event, flushSize, queueLimit);
      var current := counters.unsent;
      var uniquePending := current + counters.recoveryOwned + counters.durableCurrent;
      if uniquePending >= queueLimit {
        counters.dropped := counters.dropped + 1;
        return false;
      }
      counters.unsent := current + 1;
      if |channel| < queueLimit {
        EventsOfAppend(channel, Inbound(event, ctx));
        channel := channel + [Inbound(event, ctx)];
        accepted := accepted + [event];
        counters.enqueued := counters.enqueued + 1;
        return true;
      } else {
        assert false;      // the channel has room for every reservation
      }
    }

    /** reject: an event refused before it reached the queue. */
    method Reject()
      requires Valid([])
      modifies counters
      ensures Valid([]) && Look([]) == old(Look([])).(tally := counters.Now())
      ensures counters.Now() == old(counters.Now()).(rejected := old(counters.rejected) + 1)
    {
      hide Sound, Mirrored, Law, Log, Justified, Documented;
      RefusalIsSound(Look([]), flushSize, queueLimit);
      counters.rejected := counters.rejected + 1;
    }

    /** waitDone when the caller's deadline ends first, wherever the loop is: `v` is how the
        engine stood when the counters last moved, with the chunk in hand if there is one. The
        count is exactly the events in the WAL then and those awaiting an outcome, each once. */
    method DeadlineExpired(ghost v: View) returns (err: Error)
      requires Sound(v, flushSize, queueLimit) && counters.Now() == v.tally
      ensures var waiting := |v.channel| + |v.pending| + |v.inHand|;
        var undelivered := Undelivered(Total(v.wal) + waiting, Some(Cancelled));
        err == (
          if counters.failed == 0 && counters.rejected == 0 then undelivered
          else Joined(undelivered, LostEvents(counters.failed, counters.rejected, None)))
    {
      hide Sound, Total;
      DeadlineCountIsExact(v, flushSize, queueLimit);
      CountsAreNatural(v, flushSize, queueLimit);
      var undelivered := Undelivered(counters.UndeliveredAtDeadline(), Some(Cancelled));
      var failed := counters.failed;
      var rejected := counters.rejected;
      if failed > 0 || rejected > 0 {
        return Joined(undelivered, LostEvents(failed, rejected, None));
      }
      return undelivered;
    }

    /** What other goroutines do while the loop is at work: any number of calls that enqueue, and
        deadlines of a Shutdown that expire. After stop nothing is enqueued any more: Shutdown
        sets closed first, under the lock enqueue holds. */
    method OtherCallers(ghost inHand: seq<Event>)
      requires Valid(inHand)
      modifies this`channel, this`accepted, counters
      ensures Valid(inHand)
      ensures Advances(old(Look(inHand)), Look(inHand), [], []) && old(channel) <= channel
      ensures counters.recoveryOwned == old(counters.recoveryOwned)
      ensures stopped ==> channel == old(channel) && accepted == old(accepted)
    {
      hide Sound, Mirrored, Advances, Law, Justified, Documented;
      ghost var v := Look(inHand);
      store.Facts();
      StandsStill(v);
      var n: int := *;
      if n < 0 { n := 0; }
      for i := 0 to n
        invariant Valid(inHand) && Advances(v, Look(inHand), [], []) && old(channel) <= channel
        invariant counters.recoveryOwned == v.tally.recoveryOwned
        invariant stopped ==> channel == old(channel) && accepted == old(accepted)
      {
        var late: bool := *;
        ghost var w := Look(inHand);
        if late || stopped {
          var err := DeadlineExpired(w);
        } else {
          var event: Event, ctx: Context := *, *;
          AdmissionAdvances(w, event);
          var ok := Enqueue(event, ctx, inHand);
          AdvancesIdly(v, w, Look(inHand));
        }
      }
    }

    /** drainChannel: everything queued moves to pending. */
    method DrainChannel(ghost inHand: seq<Event>)
      requires Valid(inHand)
      modifies this`channel, this`pending
      ensures Valid(inHand)
      ensures Look(inHand) == Drained(old(Look(inHand)))
    {
      hide Sound, Mirrored, Law;
      ghost var v := Look(inHand);
      DrainingIsSound(v, flushSize, queueLimit);
      while |pending| < queueLimit
        invariant pending + EventsOf(channel) == v.pending + v.channel
        decreases |channel|
      {
        if channel == [] { break; }
        EventsOfSplit(channel);
        ghost var rest := EventsOf(channel[1..]);
        ConcatAssociates(pending, [channel[0].event], rest);
        pending := pending + [channel[0].event];
        channel := channel[1..];
      }
      assert |pending| + |channel| == |pending + EventsOf(channel)|;
      assert EventsOf(channel) == [] && pending == v.pending + v.channel;
    }

    /** Any batch id that no record of the WAL has, as a random one. */
    method FreshBatchId() returns (id: string)
      ensures id != "" && id !in store.records
    {
      id := *;
      if id == "" { id := "batch_"; }
      ghost var tried: set<string> := {};
      while id in store.records
        invariant id != "" && tried <= store.records.Keys && forall t <- tried :: |t| < |id|
        decreases |store.records.Keys - tried|
      {
        assert id in store.records.Keys - tried;
        tried := tried + {id};
        assert store.records.Keys - tried < store.records.Keys - (tried - {id});
        id := id + "0";
      }
    }

    /** The counters and the ledger after `n` events, the first in hand, meet their fate. `v` is
        the view before the send that decided it. */
    method Settle(n: int, fate: Fate, ghost events: seq<Event>, ghost rest: seq<Event>, ghost v: View)
      requires Wired() && store.Valid() && transport.Lawful()
      requires n == |events| && v.inHand == events + rest && Sound(v, flushSize, queueLimit)
      requires Look(events + rest) == v.(wal := store.Wal())
      requires WalFollows(v.wal, store.Wal(), events, fate)
      requires fate.Kept? ==> v.tally.recoveryOwned == 0 || v.handedOver
      requires Documented(store.Enabled(), handedOver, settled, fates, outcomes, Log(store.steps))
      requires Justified(store.Enabled(), handedOver, events, Repeat(fate, |events|), Log(store.steps))
      modifies this`settled, this`fates, counters
      ensures Valid(rest)
      ensures Look(rest) == SettledAs(v, events, rest, fate, store.Wal())
      ensures Advances(v, Look(rest), events, Repeat(fate, |events|))
    {
      hide Sound, Mirrored, Law, WalFollows, Advances, Justified, Documented, Log;
      SettlingIsSound(v, events, rest, fate, store.Wal(), flushSize, queueLimit);
      SettlingDocumented(store.Enabled(), handedOver, settled, fates, outcomes, events, fate, Log(store.steps));
      counters.unsent := counters.unsent - n;
      match fate {
        case Sent => counters.delivered := counters.delivered + n;
        case Lost => counters.failed := counters.failed + n;
        case Kept => counters.durableCurrent := counters.durableCurrent + n;
      }
      settled := settled + events;
      fates := fates + Repeat(fate, n);
    }

    /** One send of a fresh batch of these events; nothing is booked yet. */
    method SendBatch(ctx: Context, events: seq<Event>, ghost rest: seq<Event>)
      returns (err: Option<Error>, ghost posts: seq<Step>)
      requires Valid(events + rest) && |events| >= 1
      modifies store
      ensures Wired() && store.Valid() && transport.Lawful()
      ensures Look(events + rest) == old(Look(events + rest)).(wal := store.Wal())
      ensures WalFollows(old(store.Wal()), store.Wal(), events, FateOf(err))
      ensures Halves(events, err) ==> store.Wal() == old(store.Wal())
      ensures Log(store.steps) == old(Log(store.steps)) + posts
      ensures Backed(LineOf(ctx), events, err, posts) && (store.Enabled() ==> Unrefused(err))
      ensures Halves(events, err) ==> AllRejected(Log(store.steps), events)
      ensures Documented(store.Enabled(), handedOver, settled, fates, outcomes, Log(store.steps))
      ensures Justified(store.Enabled(), handedOver, events, Repeat(FateOf(err), |events|), Log(store.steps))
    {
      hide Sound, Mirrored, Law, WalFollows, Advances, Justified, Documented, Log, Backed, Dispatched, FateOf, Halves,
           Unrefused, Total, AllRejected, SendLog, Reported;
      ghost var v := Look(events + rest);
      store.Facts();
      RoomForMore(v, events, rest, flushSize, queueLimit);
      var id := FreshBatchId();
      var sentAt: int := *;
      var payload := BatchPayload(id, sentAt, events);
      ghost var replies, kept, clock;
      ghost var before := Log(store.steps);
      assert store.Refusal(RecordOf(payload)).None?;
      err, replies, kept, clock := transport.Send(ctx, payload);
      store.Facts();
      posts := SendLog(ctx, Encoded(payload), replies, err);
      var late := DeadlineExpired(v);      // a deadline may end the wait before the outcome is booked
      DispatchedWal(store.Enabled(), None, v.wal, store.Wal(), payload, replies, err, kept);
      DispatchedBacks(LineOf(ctx), v.wal, store.Wal(), payload, replies, err, kept, clock);
      BackedJustifies(LineOf(ctx), handedOver, events, err, posts);
      DocumentedStays(store.Enabled(), handedOver, settled, fates, outcomes, before, posts);
      JustifiedStays(store.Enabled(), handedOver, events, Repeat(FateOf(err), |events|), before, posts);
      if Halves(events, err) {
        BackedRejects(LineOf(ctx), events, err, posts);
        AllRejectedStays(before, posts, events);
      }
    }

    /** The outcome of a send that is not split further: the events are booked by the kind of
        its error, and the error is remembered. */
    method BookOutcome(err: Option<Error>, events: seq<Event>, ghost rest: seq<Event>, ghost v: View)
      requires Wired() && store.Valid() && transport.Lawful() && Sound(v, flushSize, queueLimit)
      requires v.inHand == events + rest && Look(events + rest) == v.(wal := store.Wal())
      requires WalFollows(v.wal, store.Wal(), events, FateOf(err)) && v.tally.recoveryOwned == 0
      requires Documented(store.Enabled(), handedOver, settled, fates, outcomes, Log(store.steps))
      requires Justified(store.Enabled(), handedOver, events, Repeat(FateOf(err), |events|), Log(store.steps))
      modifies this`settled, this`fates, this`lastCause, counters
      ensures Valid(rest) && counters.recoveryOwned == 0
      ensures Advances(v, Look(rest), events, Repeat(FateOf(err), |events|))
      ensures lastCause == if err.Some? then err else old(lastCause)
    {
      hide Sound, Mirrored, Law, WalFollows, Advances, Justified, Documented, Log;
      if err.None? {
        Settle(|events|, Sent, events, rest, v);
        return;
      }
      if IsDelivered(err.value) {
        Settle(|events|, Sent, events, rest, v);
      } else if IsDurable(err.value) {
        Settle(|events|, Kept, events, rest, v);
      } else {
        Settle(|events|, Lost, events, rest, v);
      }
      lastCause := err;
    }

    /** deliver once no send is left: the events count as lost. */
    method DropUnsent(events: seq<Event>, ghost rest: seq<Event>)
      requires Valid(events + rest) && AllRejected(Log(store.steps), events)
      modifies this`settled, this`fates, this`lastCause, counters
      ensures Valid(rest) && counters.recoveryOwned == old(counters.recoveryOwned)
      ensures Advances(old(Look(events + rest)), Look(rest), events, Repeat(Lost, |events|))
      ensures lastCause == Some(SplitLimit)
    {
      hide Sound, Mirrored, Law, WalFollows, Advances, Justified, Documented, Log, AllRejected;
      ghost var v := Look(events + rest);
      DroppedIsJustified(store.Enabled(), handedOver, events, Log(store.steps));
      NothingToFollow(v.wal, events);
      Settle(|events|, Lost, events, rest, v);
      lastCause := Some(SplitLimit);
    }

    /** deliver: one send, and on a whole-batch rejection the two halves one after the other.
        `tree` is the shape the run took and `posts` what it put on the wire. */
    method Deliver(ctx: Context, events: seq<Event>, budget: int, ghost rest: seq<Event>)
      returns (err: Option<Error>, left: int, ghost tree: Split, ghost posts: seq<Step>)
      requires Valid(events + rest) && |events| >= 1 && budget >= 0 && counters.recoveryOwned == 0
      requires budget > 0 || AllRejected(Log(store.steps), events)
      modifies this`channel, this`accepted, this`settled, this`fates, this`lastCause, counters, store
      ensures Valid(rest) && counters.recoveryOwned == 0 && left >= 0
      ensures Ran(tree, events, budget, left, err, old(lastCause), lastCause, posts, LineOf(ctx))
      ensures Advances(old(Look(events + rest)), Look(rest), events, Fates(tree))
      ensures Log(store.steps) == old(Log(store.steps)) + posts
      ensures old(channel) <= channel && (stopped ==> channel == old(channel))
      decreases |events|
    {
      hide Sound, Mirrored, Law, WalFollows, Advances, Justified, Documented, Log, Backed, Unrefused, Ran, FateOf,
           AllRejected, IsDelivered, FindTerminal, Repeat, IsDurable;
      ghost var before := Look(events + rest);
      OtherCallers(events + rest);
      ghost var v := Look(events + rest);
      if budget <= 0 {
        err, left, tree, posts := Some(SplitLimit), 0, Dropped(events), [];
        DropUnsent(events, rest);
        RanDry(events, old(lastCause), LineOf(ctx));
        AdvancesLater(before, v, Look(rest), events, Fates(tree));
        return;
      }
      left := budget - 1;
      err, posts := SendBatch(ctx, events, rest);
      if !Halves(events, err) {
        BookOutcome(err, events, rest, v);
        tree := Leaf(events, err);
        RanOnce(events, budget, err, old(lastCause), posts, LineOf(ctx));
        AdvancesLater(before, v, Look(rest), events, Fates(tree));
        return;
      }
      err, left, tree, posts := DeliverHalves(ctx, events, err.value, left, rest, posts);
      AdvancesLater(before, v, Look(rest), events, Fates(tree));
    }

    /** The second part of deliver, once `events` were rejected whole. */
    method DeliverHalves(ctx: Context, events: seq<Event>, rejection: Error, budget: int, ghost rest: seq<Event>,
                         ghost own: seq<Step>)
      returns (err: Option<Error>, left: int, ghost tree: Split, ghost posts: seq<Step>)
      requires Valid(events + rest) && budget >= 0 && counters.recoveryOwned == 0
      requires Halves(events, Some(rejection)) && (store.Enabled() ==> Unrefused(Some(rejection)))
      requires Backed(LineOf(ctx), events, Some(rejection), own) && AllRejected(Log(store.steps), events)
      modifies this`channel, this`accepted, this`settled, this`fates, this`lastCause, counters, store
      ensures Valid(rest) && counters.recoveryOwned == 0 && left >= 0
      ensures Ran(tree, events, budget + 1, left, err, old(lastCause), lastCause, posts, LineOf(ctx))
      ensures Advances(old(Look(events + rest)), Look(rest), events, Fates(tree))
      ensures |own| <= |posts| && posts[..|own|] == own
      ensures Log(store.steps) == old(Log(store.steps)) + posts[|own|..]
      ensures old(channel) <= channel && (stopped ==> channel == old(channel))
      decreases |events|, 0
    {
      hide Sound, Mirrored, Law, WalFollows, Advances, Justified, Documented, Log, Backed, Unrefused, Ran, FateOf,
           AllRejected;
      var mid := |events| / 2;
      ghost var before, first := Look(events + rest), Log(store.steps);
      assert events + rest == events[..mid] + (events[mid..] + rest);
      HalvesRejected(first, events, events[..mid], events[mid..]);
      var leftErr; ghost var l, lp;
      leftErr, left, l, lp := Deliver(ctx, events[..mid], budget, events[mid..] + rest);
      AllRejectedStays(first, lp, events[mid..]);
      ghost var between, half, cause := left, Look(events[mid..] + rest), lastCause;
      var rightErr; ghost var r, rp;
      rightErr, left, r, rp := Deliver(ctx, events[mid..], left, rest);
      err := if leftErr.Some? then leftErr else rightErr;
      tree, posts := Halved(events, rejection, l, r), own + lp + rp;
      RanInHalves(events, rejection, budget + 1, l, between, leftErr, r, left, rightErr, old(lastCause), cause,
                  lastCause,
                  own, lp, rp, LineOf(ctx));
      AdvancesTwice(before, half, Look(rest), events[..mid], Fates(l), events[mid..], Fates(r));
      ConcatAssociates(first, lp, rp);
      assert posts[|own|..] == lp + rp;
    }

    /** The recovery pass itself, followed by updateRecoveryOwned. */
    method RunRecovery(ctx: Context)
      returns (err: Option<Error>, ghost v: View, ghost turns: seq<Turn>, ghost marks: seq<bool>,
               ghost posts: seq<Step>)
      requires Valid([]) && !handedOver
      modifies this`channel, this`accepted, this`outcomes, counters, store
      ensures Valid([]) && !handedOver
      ensures |marks| <= |v.wal| && AllValid(v.wal[..|marks|])
      ensures Advances(old(Look([])), v, [], []) && Sound(v, flushSize, queueLimit) && !v.handedOver
      ensures Look([]) == v.(wal := store.Wal(), tally := counters.Now(), outcomes := outcomes) && AllValid(store.Wal())
      ensures outcomes == MoreOutcomes(v, v.wal[..|marks|], marks)
      ensures Recovered(v.wal, store.Wal(), marks, v.tally, counters.Now(), posts, err)
      ensures Course(ctx, transport.maxRetries, v.wal, store.Wal(), turns, marks, posts, err)
      ensures Log(store.steps) == old(Log(store.steps)) + posts
      ensures old(channel) <= channel && (stopped ==> channel == old(channel) && accepted == old(accepted))
    {
      hide Sound, Mirrored, Law, Advances, Justified, Documented, Log, Recovered, Course, Total;
      OtherCallers([]);
      v := Look([]);
      ghost var before := Log(store.steps);
      store.Facts();
      SoundIsCoupled(v, flushSize, queueLimit);
      AdvancedQueue(old(Look([])), v);
      err, turns, marks, posts := transport.Recover(ctx);
      store.Facts();
      counters.UpdateRecoveryOwned();
      RemovedIsPrefix(v.wal, store.Wal(), marks, v.tally, counters.Now(), posts, err);
      RecoveryIsSound(v, store.Wal(), marks, counters.Now(), posts, err, flushSize, queueLimit);
      RecoveryIsDocumented(store.Enabled(), v, store.Wal(), marks, counters.Now(), before, posts, err, flushSize,
                           queueLimit);
      outcomes := MoreOutcomes(v, v.wal[..|marks|], marks);
    }

    /** recoverBeforeSend */
    method RecoverBeforeSend(ctx: Context) returns (reported: Option<Error>, blocked: Option<Error>, ghost pass: Pass)
      requires Valid([]) && !handedOver
      modifies this`channel, this`accepted, this`outcomes, this`lastCause, counters, store
      ensures Valid([]) && !handedOver
      ensures Opens(LineOf(ctx), old(Look([])), pass)
      ensures pass.ready == Look([]) && pass.reported == reported && pass.blocked == blocked
      ensures Log(store.steps) == old(Log(store.steps)) + pass.posts
      ensures lastCause == CauseOfPass(pass, old(lastCause))
      ensures old(channel) <= channel && (stopped ==> channel == old(channel) && accepted == old(accepted))
    {
      hide Sound, Mirrored, Law, Advances, Justified, Documented, Log, Recovered, Course, Opened, AllValid;
      var err; ghost var v, turns, marks, posts;
      err, v, turns, marks, posts := RunRecovery(ctx);
      RecoveryReports(v.wal, store.Wal(), marks, v.tally, counters.Now(), posts, err);
      reported, blocked := None, None;
      if err.Some? {
        lastCause := err;
        var outcome := FindRecovery(err.value);
        if outcome.Some? {
          if !outcome.value.reported {
            assert false;      // New wires onRecoveryProgress
          }
          if !outcome.value.blocked {
            reported := err;
          }
        }
        if reported.None? { blocked := err; }
      }
      pass := Pass(v, Look([]), turns, marks, posts, reported, blocked);
      RecoveryOpens(LineOf(ctx), pass, err, flushSize, queueLimit);
    }

    /** One chunk of `n` events is cut off pending and sent, whatever becomes of it. */
    method SendNext(ctx: Context, n: int, ghost trigger: Trigger) returns (err: Option<Error>, ghost run: Delivery)
      requires Valid([]) && counters.recoveryOwned == 0
      requires 1 <= n <= |pending| && n <= flushSize
      requires trigger.SizeReached? ==> n == flushSize && store.Wal() == []
      requires trigger.DrainFirst? ==> store.Wal() == []
      modifies this`channel, this`pending, this`accepted, this`settled, this`fates, this`lastCause, this`handed,
               counters, store
      ensures Valid([]) && counters.recoveryOwned == 0 && handedOver == old(handedOver)
      ensures Performed(LineOf(ctx), run) && run.tree.events == old(pending[..n])
      ensures RunOf(run.tree, 64) && Sends(run.tree) <= 64
      ensures err == FirstError(run.tree) && lastCause == CauseAfter(run.tree, old(lastCause))
      ensures Works(old(Look([])), Look([]), old(pending[..n]), Fates(run.tree))
      ensures old(accepted) <= accepted && pending == old(pending)[n..] && settled == old(settled) + old(pending)[..n]
      ensures handed == old(handed) + [Handout(old(pending)[..n], trigger, old(Total(store.Wal())))]
      ensures Log(store.steps) == old(Log(store.steps)) + run.log
      ensures old(channel) <= channel && (stopped ==> channel == old(channel) && accepted == old(accepted))
    {
      hide Sound, Mirrored, Law, Advances, Works, Justified, Documented, Log, Total, Ran, Performed, AllRejected,
           FirstError, CauseAfter;
      ghost var v := Look([]);
      CuttingIsSound(v, n, trigger, flushSize, queueLimit);
      var chunk := pending[..n];
      pending := pending[n..];
      handed := handed + [Handout(chunk, trigger, Total(store.Wal()))];
      assert chunk + [] == chunk;
      ghost var cause := lastCause;
      var left; ghost var tree, log;
      err, left, tree, log := Deliver(ctx, chunk, MAX_SPLIT_SENDS, []);
      run := Delivery(tree, log);
      RanPerforms(tree, chunk, left, err, cause, lastCause, log, LineOf(ctx));
      CutAndWorked(v, n, trigger, Look([]), Fates(tree));
    }

    /** The loop of sendPending: pending goes out in chunks of flushSize. */
    method SendAll(ctx: Context, reported: Option<Error>) returns (firstErr: Option<Error>, ghost runs: seq<Delivery>)
      requires Valid([]) && counters.recoveryOwned == 0 && !handedOver && store.Wal() == []
      modifies this`channel, this`pending, this`accepted, this`settled, this`fates, this`lastCause, this`handed,
               counters, store
      ensures Valid([]) && !handedOver && pending == [] && (stopped ==> accepted == old(accepted))
      ensures Draining(LineOf(ctx), flushSize, old(Look([])), Look([]), runs)
      ensures Log(store.steps) == old(Log(store.steps)) + LogIn(runs)
      ensures firstErr == (if reported.Some? then reported else FirstErrorIn(runs))
      ensures lastCause == CauseIn(runs, old(lastCause))
      ensures FirstFindsNothingKept(old(handed), handed, |runs|)
    {
      hide Sound, Mirrored, Law, Works, Justified, Documented, Log, Total, Performed, Draining, EventsIn, FatesIn,
           FirstErrorIn, LogIn, FirstError, CauseAfter, CauseIn;
      firstErr, runs := reported, [];
      ghost var v, first := Look([]), true;
      store.Facts();
      DrainingStarts(LineOf(ctx), flushSize, v);
      NoRuns();
      NoCause(lastCause);
      assert Log(store.steps) + [] == Log(store.steps);
      while |pending| > 0
        invariant Valid([]) && counters.recoveryOwned == 0 && !handedOver
        invariant stopped ==> accepted == v.accepted
        invariant first ==> store.Wal() == []
        invariant Draining(LineOf(ctx), flushSize, v, Look([]), runs)
        invariant Log(store.steps) == old(Log(store.steps)) + LogIn(runs)
        invariant firstErr == (if reported.Some? then reported else FirstErrorIn(runs))
        invariant lastCause == CauseIn(runs, old(lastCause))
        invariant FirstFindsNothingKept(old(handed), handed, |runs|) && (first <==> runs == [])
        decreases |pending|
      {
        ghost var w, done := Look([]), runs;
        var size := flushSize;
        if size > |pending| { size := |pending|; }
        var err; ghost var run;
        err, run := SendNext(ctx, size, if first then DrainFirst else DrainLater);
        first := false;
        DrainingGrows(LineOf(ctx), flushSize, v, w, Look([]), size, done, run);
        OneMoreRun(done, run);
        OneMoreCause(done, run, old(lastCause));
        ConcatAssociates(old(Log(store.steps)), LogIn(done), run.log);
        runs := done + [run];
        if err.Some? && firstErr.None? { firstErr := err; }
      }
    }

    /** sendPending. Unless recovery is blocked, everything pending or queued is sent. */
    method SendPending(ctx: Context) returns (err: Option<Error>, ghost work: Work)
      requires Valid([]) && !handedOver
      modifies this`channel, this`pending, this`accepted, this`outcomes, this`settled, this`fates, this`lastCause,
               this`handed, counters, store
      ensures Valid([]) && !handedOver && old(accepted) <= accepted && (stopped ==> accepted == old(accepted))
      ensures Cycled(LineOf(ctx), flushSize, old(Look([])), Look([]), err, work)
      ensures Log(store.steps) == old(Log(store.steps)) + EntriesOf(work)
      ensures lastCause == CauseOfWork(work, old(lastCause))
      ensures work.pass.value.blocked.Some? ==> old(channel) <= channel
      ensures err.None? ==> Flushed(old(Look([])), Look([]))
    {
      hide Sound, Mirrored, Law, Works, Justified, Documented, Log, Total, Flawless, Flushed, Opens, Advances,
           Draining, SentInChunks, EventsIn, FatesIn, FirstErrorIn, LogIn, EntriesOf, JudgedWire,
           AllUnhindered, CauseOfPass, CauseIn, CauseOfWork;
      ghost var start, before, pass, cause := Look([]), Log(store.steps), IdlePass(Look([])), lastCause;
      var firstErr, blocked;
      firstErr, blocked, pass := RecoverBeforeSend(ctx);
      PassFacts(LineOf(ctx), start, pass);
      EntriesOfPass(pass, before, cause);
      if blocked.Some? { return blocked, Work(Some(pass), [], []); }
      OtherCallers([]);
      ghost var later := Look([]);
      IdleKeepsWalEmpty(pass.ready, later);
      DrainedIsAccepted(later, flushSize, queueLimit);
      DrainChannel([]);
      ghost var drained, runs := Look([]), [];
      err, runs := SendAll(ctx, firstErr);
      DrainedAll(LineOf(ctx), flushSize, drained, Look([]), runs);
      EntriesOfCycle(pass, runs, before, cause);
      if err.None? { CycleFlushes(LineOf(ctx), start, pass, later, Look([])); }
      work := Work(Some(pass), runs, []);
    }

    /** The loop takes a flush request. */
    method HandleFlush(ctx: Context) returns (reply: Option<Error>, ghost work: Work)
      requires Valid([]) && !handedOver
      modifies this`channel, this`pending, this`accepted, this`outcomes, this`settled, this`fates, this`lastCause,
               this`handed, counters, store
      ensures Valid([]) && !handedOver && old(accepted) <= accepted && (stopped ==> accepted == old(accepted))
      ensures Cycled(LineOf(ctx), flushSize, Drained(old(Look([]))), Look([]), reply, work)
      ensures Log(store.steps) == old(Log(store.steps)) + EntriesOf(work)
      ensures lastCause == CauseOfWork(work, old(lastCause))
      ensures reply.None? ==> Flushed(old(Look([])), Look([]))
    {
      hide Sound, Mirrored, Law, Justified, Documented, Log, Total, Flushed, Cycled, EntriesOf, CauseOfWork;
      ghost var v := Look([]);
      DrainChannel([]);
      reply, work := SendPending(ctx);
      if reply.None? { FlushedAfterDrain(v, Look([]), []); }
    }

    /** A tick of the timer: no caller is attached, so its context never ends. */
    method HandleTick() returns (err: Option<Error>, ghost work: Work)
      requires Valid([]) && !handedOver
      modifies this`channel, this`pending, this`accepted, this`outcomes, this`settled, this`fates, this`lastCause,
               this`handed, counters, store
      ensures Valid([]) && !handedOver && old(accepted) <= accepted && (stopped ==> accepted == old(accepted))
      ensures Cycled(LineOf(Background), flushSize, old(Look([])), Look([]), err, work)
      ensures Log(store.steps) == old(Log(store.steps)) + EntriesOf(work)
      ensures lastCause == CauseOfWork(work, old(lastCause))
      ensures work.pass.value.blocked.Some? ==> old(channel) <= channel
      ensures err.None? ==> Flushed(old(Look([])), Look([]))
    {
      hide Sound, Mirrored, Law, Justified, Documented, Log, Total, Flushed, Cycled, EntriesOf, CauseOfWork;
      err, work := SendPending(Background);
    }

    /** The loop takes the oldest event off the channel; when that fills a chunk, exactly
        flushSize events go out under its context, unless recovery is blocked. */
    method HandleInbound() returns (ghost work: Work)
      requires Valid([]) && !handedOver && channel != []
      modifies this`channel, this`pending, this`accepted, this`outcomes, this`settled, this`fates, this`lastCause,
               this`handed, counters, store
      ensures Valid([]) && !handedOver && old(accepted) <= accepted && (stopped ==> accepted == old(accepted))
      ensures Took(LineOf(old(channel[0].ctx)), flushSize, old(Look([])), Look([]), work)
      ensures Log(store.steps) == old(Log(store.steps)) + EntriesOf(work)
      ensures lastCause == CauseOfWork(work, old(lastCause))
      ensures old(channel)[1..] <= channel
    {
      hide Sound, Mirrored, Law, Works, Justified, Documented, Log, Performed, Opens, Advances, LogIn, FirstError,
           CauseAfter, Fates, EntriesOf, CauseOfPass, CauseOfWork, CauseIn;
      ghost var before, cause := Log(store.steps), lastCause;
      ReceivingIsSound(Look([]), flushSize, queueLimit);
      EventsOfSplit(channel);
      var oldest := channel[0];
      channel := channel[1..];
      pending := pending + [oldest.event];
      work := NO_WORK;
      ghost var start := Look([]);
      ghost var pass := IdlePass(start);
      EntriesOfPass(pass, before, cause);
      if |pending| >= flushSize {
        var reported, blocked;
        reported, blocked, pass := RecoverBeforeSend(oldest.ctx);
        PassFacts(LineOf(oldest.ctx), start, pass);
        EntriesOfPass(pass, before, cause);
        work := Work(Some(pass), [], []);
        if blocked.Some? { return; }
        ghost var w := Look([]);
        var err; ghost var run;
        err, run := SendNext(oldest.ctx, flushSize, SizeReached);
        WorkedQueue(w, Look([]), w.pending[..flushSize], Fates(run.tree));
        OneRun(run);
        NoCause(CauseOfPass(pass, cause));
        OneMoreCause([], run, CauseOfPass(pass, cause));
        assert [] + [run] == [run];
        EntriesOfCycle(pass, [run], before, cause);
        work := Work(Some(pass), [run], []);
      }
    }

    /** One chunk of the hand-over at shutdown: into the WAL, without any send. */
    method PersistNext(n: int) returns (ghost moved: Transfer)
      requires Valid([]) && handedOver && 1 <= n <= |pending| && n <= flushSize
      modifies this`pending, this`settled, this`fates, this`lastCause, this`handed, counters, store
      ensures Valid([])
      ensures Transferred(store.Enabled(), moved) && moved.events == old(pending)[..n]
      ensures lastCause == if moved.err.Some? then moved.err else old(lastCause)
      ensures pending == old(pending)[n..] && settled == old(settled) + old(pending)[..n]
      ensures Works(old(Look([])), Look([]), old(pending)[..n], Repeat(FateOfPut(moved.err), n))
      ensures old(store.Wal()) <= store.Wal() && Log(store.steps) == old(Log(store.steps)) + moved.log
    {
      hide Sound, Mirrored, Law, Works, Justified, Documented, Log, Total, WalFollows, Advances, IsDurable,
           Transferred;
      ghost var v := Look([]);
      CuttingIsSound(v, n, HandOver, flushSize, queueLimit);
      var chunk := pending[..n];
      pending := pending[n..];
      handed := handed + [Handout(chunk, HandOver, Total(store.Wal()))];
      assert chunk + [] == chunk;
      ghost var w := Look(chunk);
      var err;
      err, moved := PersistChunk(chunk);
      if err.Some? && !IsDurable(err.value) {
        Settle(n, Lost, chunk, [], w);
        lastCause := err;
        CutAndWorked(v, n, HandOver, Look([]), Repeat(Lost, n));
        return;
      }
      Settle(n, Kept, chunk, [], w);
      if err.Some? { lastCause := err; }
      CutAndWorked(v, n, HandOver, Look([]), Repeat(Kept, n));
    }

    /** The error of persisting a chunk; there is always one when there is no WAL. */
    method PersistChunk(chunk: seq<Event>) returns (err: Option<Error>, ghost moved: Transfer)
      requires Valid(chunk) && |chunk| >= 1 && handedOver
      modifies store
      ensures Wired() && store.Valid() && transport.Lawful()
      ensures Look(chunk) == old(Look(chunk)).(wal := store.Wal())
      ensures Documented(store.Enabled(), true, settled, fates, outcomes, Log(store.steps))
      ensures Transferred(store.Enabled(), moved) && moved.events == chunk && moved.err == err
      ensures WalFollows(old(store.Wal()), store.Wal(), chunk, FateOfPut(err))
      ensures Justified(store.Enabled(), true, chunk, Repeat(FateOfPut(err), |chunk|), Log(store.steps))
      ensures old(store.Wal()) <= store.Wal() && Log(store.steps) == old(Log(store.steps)) + moved.log
    {
      hide Sound, Mirrored, Law, Justified, Documented, Log, Total, Stored, WalFollows, IsDurable;
      ghost var v, before := Look(chunk), Log(store.steps);
      store.Facts();
      assert chunk + [] == chunk;
      RoomForMore(v, chunk, [], flushSize, queueLimit);
      NothingToFollow(v.wal, chunk);
      err := Some(Plain("durable persistence is unavailable"));
      moved := Transfer(chunk, err, []);
      NoDurability();
      assert before + [] == before;
      if store.Enabled() {
        var id := FreshBatchId();
        var sentAt: int := *;
        var payload := BatchPayload(id, sentAt, chunk);
        assert store.Refusal(RecordOf(payload)).None?;
        err := transport.Persist(payload);
        store.Facts();
        StoredWal(None, v.wal, store.Wal(), payload, err);
        moved := Transfer(chunk, err, Misses(Encoded(payload), err));
        StoredIsTransferred(None, v.wal, store.Wal(), payload, err);
      }
      TransferIsJustified(store.Enabled(), moved, before);
      DocumentedStays(store.Enabled(), true, settled, fates, outcomes, before, moved.log);
    }

    /** persistPending: every accepted event that is still in memory goes behind the records
        the WAL already holds, chunk after chunk in the order it was enqueued, and nothing is
        posted. Lost are exactly the chunks whose own write failed. */
    method PersistPending() returns (ghost moved: seq<Transfer>)
      requires Valid([]) && stopped && !handedOver
      modifies this`channel, this`pending, this`settled, this`fates, this`lastCause, this`handed, this`handedOver,
               counters, store
      ensures Valid([]) && handedOver && channel == [] && pending == []
      ensures EventsMoved(moved) == old(pending + EventsOf(channel))
      ensures Works(old(Look([])), Look([]), EventsMoved(moved), FatesMoved(moved))
      ensures MovedInChunks(store.Enabled(), flushSize, moved, false)
      ensures HandedIn(store.Enabled(), EventsMoved(moved), FatesMoved(moved), LogMoved(moved))
      ensures lastCause == CauseMoved(moved, old(lastCause))
      ensures old(store.Wal()) <= store.Wal() && Log(store.steps) == old(Log(store.steps)) + LogMoved(moved)
    {
      hide Sound, Mirrored, Law, Works, Justified, Documented, Log, Total, HandedIn, Transferred, EventsMoved,
           FatesMoved, LogMoved, CauseMoved, MovedInChunks, FateOfPut;
      ghost var v := Look([]);
      store.Facts();
      DrainChannel([]);
      HandingOverIsSound(Look([]), flushSize, queueLimit);
      HandingOverDocumented(store.Enabled(), settled, fates, outcomes, Log(store.steps));
      handedOver := true;
      ghost var start, before := Look([]), Log(store.steps);
      moved := [];
      NothingWorked(start);
      NoTransfer(lastCause);
      NothingMoved(store.Enabled(), flushSize, |pending| > 0);
      assert [] + pending == pending && before + [] == before;
      while |pending| > 0
        invariant Valid([]) && handedOver && channel == []
        invariant EventsMoved(moved) + pending == start.pending
        invariant Works(start, Look([]), EventsMoved(moved), FatesMoved(moved))
        invariant MovedInChunks(store.Enabled(), flushSize, moved, |pending| > 0)
        invariant lastCause == CauseMoved(moved, old(lastCause))
        invariant start.wal <= store.Wal() && Log(store.steps) == before + LogMoved(moved)
        decreases |pending|
      {
        ghost var w, done := Look([]), moved;
        var size := flushSize;
        if size > |pending| { size := |pending|; }
        ghost var more := PersistNext(size);
        OneMoreTransfer(done, more, old(lastCause));
        OneMoreMoved(store.Enabled(), flushSize, done, more, |pending| > 0);
        FrontMoves(EventsMoved(done), w.pending, size);
        ConcatAssociates(before, LogMoved(done), more.log);
        WorksTwice(start, w, Look([]), EventsMoved(done), FatesMoved(done), more.events,
                   Repeat(FateOfPut(more.err), size));
        moved := done + [more];
      }
      assert EventsMoved(moved) + [] == EventsMoved(moved);
      HandOverAccounts(store.Enabled(), flushSize, moved, false);
      WorkedSinceDrain(v, Look([]), EventsMoved(moved), FatesMoved(moved));
    }

    /** The loop of finish: the channel is emptied again before every chunk. */
    method DrainAtStop(ctx: Context) returns (ghost runs: seq<Delivery>)
      requires Valid([]) && stopped && !handedOver && counters.recoveryOwned == 0 && store.Wal() == []
      modifies this`channel, this`pending, this`accepted, this`settled, this`fates, this`lastCause, this`handed,
               counters, store
      ensures Valid([]) && !handedOver && channel == [] && pending == [] && accepted == old(accepted)
      ensures Draining(LineOf(ctx), flushSize, Drained(old(Look([]))), Look([]), runs)
      ensures Log(store.steps) == old(Log(store.steps)) + LogIn(runs)
      ensures lastCause == CauseIn(runs, old(lastCause))
      ensures FirstFindsNothingKept(old(handed), handed, |runs|)
    {
      hide Sound, Mirrored, Law, Works, Justified, Documented, Log, Total, Performed, Draining, EventsIn, FatesIn,
           LogIn, FirstError, CauseAfter, CauseIn;
      runs := [];
      ghost var v, first := Drained(Look([])), true;
      store.Facts();
      DrainingStarts(LineOf(ctx), flushSize, v);
      NoRuns();
      NoCause(lastCause);
      assert Log(store.steps) + [] == Log(store.steps);
      while true
        invariant Valid([]) && stopped && !handedOver && counters.recoveryOwned == 0 && accepted == v.accepted
        invariant first ==> store.Wal() == []
        invariant Draining(LineOf(ctx), flushSize, v, Drained(Look([])), runs)
        invariant Log(store.steps) == old(Log(store.steps)) + LogIn(runs)
        invariant lastCause == CauseIn(runs, old(lastCause))
        invariant FirstFindsNothingKept(old(handed), handed, |runs|) && (first <==> runs == [])
        decreases |channel| + |pending|
      {
        DrainChannel([]);
        if |pending| == 0 { break; }
        ghost var w, done := Look([]), runs;
        var size := flushSize;
        if size > |pending| { size := |pending|; }
        var err; ghost var run;
        err, run := SendNext(ctx, size, if first then DrainFirst else DrainLater);
        first := false;
        DrainedTwice(Look([]));
        DrainingGrows(LineOf(ctx), flushSize, v, w, Look([]), size, done, run);
        OneMoreRun(done, run);
        OneMoreCause(done, run, old(lastCause));
        ConcatAssociates(old(Log(store.steps)), LogIn(done), run.log);
        runs := done + [run];
      }
    }

    /** finish: the drain after stop. When recovery is blocked everything left goes to the WAL
        instead. */
    method Finish(ctx: Context) returns (ghost work: Work)
      requires Valid([]) && stopped && !handedOver
      modifies this`channel, this`pending, this`accepted, this`outcomes, this`settled, this`fates, this`lastCause,
               this`handed, this`handedOver,
               counters, store
      ensures Valid([]) && counters.unsent == 0
      ensures Finished(LineOf(ctx), flushSize, old(Look([])), Look([]), work)
      ensures Log(store.steps) == old(Log(store.steps)) + EntriesOf(work)
      ensures lastCause == CauseOfWork(work, old(lastCause))
    {
      hide Sound, Mirrored, Law, Works, Justified, Documented, Log, Total, Opens, Advances, HandedIn, Draining,
           EntriesOf, LogIn, LogMoved, EventsMoved, FatesMoved, MovedInChunks, CauseMoved, CauseOfPass, CauseIn,
           CauseOfWork;
      ghost var start, before, pass, cause := Look([]), Log(store.steps), IdlePass(Look([])), lastCause;
      store.Facts();
      var reported, blocked;
      reported, blocked, pass := RecoverBeforeSend(ctx);
      PassFacts(LineOf(ctx), start, pass);
      if blocked.Some? {
        PassBlocksOverRecords(LineOf(ctx), start, pass);
        ghost var moved := PersistPending();
        EntriesOfHandOver(pass, moved, before, cause);
        work := Work(Some(pass), [], moved);
      } else {
        ghost var runs := DrainAtStop(ctx);
        EntriesOfCycle(pass, runs, before, cause);
        work := Work(Some(pass), runs, []);
      }
      NothingLeft(Look([]), flushSize, queueLimit);
    }

    /** stop: the loop finds it at its next select. Nothing else moves; from here on no caller
        gets an event in (see OtherCallers). A second stop would close a closed channel. */
    method Stop(ghost inHand: seq<Event>)
      requires Valid(inHand) && !stopped
      modifies this`stopped
      ensures stopped && Valid(inHand) && Look(inHand) == old(Look(inHand))
    {
      stopped := true;
    }

    /** waitDone once the loop has exited: the error names every event not delivered. */
    method WaitDone() returns (err: Option<Error>)
      requires Valid([]) && channel == [] && pending == []
      ensures err.None? <==> counters.failed == 0 && counters.rejected == 0 && Total(store.Wal()) == 0
      ensures err.None? ==> counters.delivered == counters.enqueued == |accepted|
      ensures err.Some? ==>
        var retained, lost := Undelivered(Total(store.Wal()), lastCause), LostEvents(counters.failed,
            counters.rejected, lastCause);
        err.value == (
          if Total(store.Wal()) == 0 then lost
          else if counters.failed == 0 && counters.rejected == 0 then retained
          else Joined(retained, lost))
    {
      hide Sound, Mirrored, Law;
      store.Facts();
      WalEventsCount(store.Wal());
      NothingLeft(Look([]), flushSize, queueLimit);
      CountsAreNatural(Look([]), flushSize, queueLimit);
      var waiting := store.PendingEvents();
      var failed := counters.failed;
      var rejected := counters.rejected;
      if waiting > 0 && (failed > 0 || rejected > 0) {
        return Some(Joined(Undelivered(waiting, lastCause), LostEvents(failed, rejected, lastCause)));
      }
      if waiting > 0 {
        return Some(Undelivered(waiting, lastCause));
      }
      if failed > 0 || rejected > 0 {
        return Some(LostEvents(failed, rejected, lastCause));
      }
      return None;
    }

  }
}
