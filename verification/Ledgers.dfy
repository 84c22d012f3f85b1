/** Where every accepted event stands, and the bookkeeping laws that tie the queue, the
    counters and the WAL together. */
module Ledgers {
  import opened Sequences
  import opened Outcomes
  import opened Records
  import opened Splitting
  import opened Tallies
  import opened WriteAhead
  import opened Transports
  import opened Deliveries

  /** What made the loop hand a chunk to a send. */
  datatype Trigger = SizeReached | DrainFirst | DrainLater | HandOver

  /** A chunk taken off pending, with the events the WAL held at that moment. */
  datatype Handout = Handout(events: seq<Event>, trigger: Trigger, backlog: int)

  /** The whereabouts of all accepted events: still in the channel, in pending, in the hands of
      the running send, or settled with a fate. `outcomes` says what recovery has since made of
      the retained ones, oldest first. */
  datatype View = View(
    channel: seq<Event>, pending: seq<Event>, inHand: seq<Event>,
    settled: seq<Event>, fates: seq<Fate>, outcomes: seq<Fate>,
    accepted: seq<Event>, handed: seq<Handout>,
    tally: Tally, wal: seq<Record>, handedOver: bool)

  function Chunks(handed: seq<Handout>): seq<Event> {
    if handed == [] then [] else Chunks(handed[..|handed| - 1]) + handed[|handed| - 1].events
  }

  /** FIFO: the accepted events are those settled, then those in hand, in pending, in the
      channel; and the chunks handed out, put together, are the first two. */
  ghost predicate Ordered(v: View) {
    && v.accepted == v.settled + v.inHand + v.pending + v.channel
    && Chunks(v.handed) == v.settled + v.inHand
    && |v.fates| == |v.settled|
  }

  /** Chunk sizes, and WAL-first: a size-triggered chunk and the first of every drain go out
      with an empty WAL. */
  ghost predicate Shaped(handed: seq<Handout>, flushSize: int) {
    forall i :: 0 <= i < |handed| ==>
      && 1 <= |handed[i].events| <= flushSize
      && (handed[i].trigger.SizeReached? ==> |handed[i].events| == flushSize && handed[i].backlog == 0)
      && (handed[i].trigger.DrainFirst? ==> handed[i].backlog == 0)
  }

  /** Conservation and the queue budget. */
  ghost predicate Balanced(t: Tally, accepted: nat, waiting: nat, walTotal: int, handedOver: bool, limit: int) {
    && t.enqueued == accepted && t.unsent == waiting
    && t.enqueued == t.unsent + t.durableCurrent + t.delivered + (t.failed - t.recoveryFailed)
    && walTotal == t.recoveryOwned + t.durableCurrent
    && t.recoveryOwned >= 0 && t.durableCurrent >= 0 && t.delivered >= 0
    && t.recoveryFailed >= 0 && t.failed >= t.recoveryFailed && t.rejected >= 0
    && (!handedOver ==> t.recoveryOwned == 0 || t.durableCurrent == 0)
    && t.unsent + t.recoveryOwned + t.durableCurrent <= limit
  }

  /** The WAL behind the events of earlier processes holds the latest retained events of this
      one, in order. */
  ghost predicate Retains(v: View) {
    && AllValid(v.wal) && |v.fates| == |v.settled|
    && 0 <= v.tally.recoveryOwned <= |WalEvents(v.wal)|
    && var kept := Select(v.settled, v.fates, Kept);
       && 0 <= v.tally.durableCurrent <= |kept|
       && kept[|kept| - v.tally.durableCurrent..] == WalEvents(v.wal)[v.tally.recoveryOwned..]
  }

  /** The counters agree with the fates of the settled events and the outcomes of the retained
      ones: each retained event is in the WAL still, or recovery delivered it or lost it. */
  ghost predicate Tallied(v: View) {
    && |v.fates| == |v.settled|
    && |v.outcomes| + v.tally.durableCurrent == Count(v.fates, Kept)
    && (forall i :: 0 <= i < |v.outcomes| ==> v.outcomes[i] != Kept)
    && v.tally.delivered == Count(v.fates, Sent) + Count(v.outcomes, Sent)
    && v.tally.failed - v.tally.recoveryFailed == Count(v.fates, Lost) + Count(v.outcomes, Lost)
  }

  /** What the journal says for the ledger: an event settled as sent was accepted, and a lost one
      was lost for a reason (see LossIsDue); of the retained ones each that recovery counted as
      delivered was accepted, and each it counted as lost was rejected for good. */
  ghost predicate Documented(enabled: bool, over: bool, settled: seq<Event>, fates: seq<Fate>, outcomes: seq<Fate>,
                             log: seq<Step>)
  {
    && Justified(enabled, over, settled, fates, log)
    && var kept := Select(settled, fates, Kept);
       && |outcomes| <= |kept|
       && Attested(kept[..|outcomes|], outcomes, log)
  }

  ghost predicate Sound(v: View, flushSize: int, limit: int) {
    && Ordered(v)
    && Shaped(v.handed, flushSize)
    && Balanced(v.tally, |v.accepted|, |v.channel| + |v.pending| + |v.inHand|, Total(v.wal), v.handedOver, limit)
    && Retains(v)
    && Tallied(v)
  }

  /** The counters after `n` events left the queue with one fate. */
  function Book(t: Tally, n: int, fate: Fate): Tally {
    match fate
    case Sent => t.(unsent := t.unsent - n, delivered := t.delivered + n)
    case Lost => t.(unsent := t.unsent - n, failed := t.failed + n)
    case Kept => t.(unsent := t.unsent - n, durableCurrent := t.durableCurrent + n)
  }

  /** The counters moved by `more` admissions, any number of drops, and these fates. */
  ghost predicate Shifted(t: Tally, u: Tally, more: nat, fates: seq<Fate>) {
    && u.dropped >= t.dropped
    && u == t.(dropped := u.dropped,
               enqueued := t.enqueued + more,
               unsent := t.unsent + more - |fates|,
               delivered := t.delivered + Count(fates, Sent),
               failed := t.failed + Count(fates, Lost),
               durableCurrent := t.durableCurrent + Count(fates, Kept))
  }

  /** Callers added events to the channel; nothing else of the queue moved. */
  ghost predicate Arrivals(v: View, w: View) {
    && w.pending == v.pending && w.handed == v.handed && w.handedOver == v.handedOver
    && |v.channel| <= |w.channel| && w.channel[..|v.channel|] == v.channel
    && w.accepted == v.accepted + w.channel[|v.channel|..]
  }

  /** The WAL grew by exactly the retained ones of these events. */
  ghost predicate WalGrew(before: seq<Record>, after: seq<Record>, events: seq<Event>, fates: seq<Fate>) {
    && |events| == |fates|
    && AllValid(before) && AllValid(after)
    && WalEvents(after) == WalEvents(before) + Select(events, fates, Kept)
  }

  /** From `v` to `w` exactly `events` were settled, with these fates, while callers may have
      added events. */
  ghost predicate Works(v: View, w: View, events: seq<Event>, fates: seq<Fate>) {
    && w.settled == v.settled + events && w.fates == v.fates + fates && w.outcomes == v.outcomes
    && |v.accepted| <= |w.accepted|
    && Shifted(v.tally, w.tally, |w.accepted| - |v.accepted|, fates)
    && WalGrew(v.wal, w.wal, events, fates)
  }

  /** The same, with pending and the chunks handed out left alone. */
  ghost predicate Advances(v: View, w: View, events: seq<Event>, fates: seq<Fate>) {
    Arrivals(v, w) && Works(v, w, events, fates)
  }

  lemma ShiftedTwice(t: Tally, u: Tally, w: Tally, m: nat, n: nat, f: seq<Fate>, g: seq<Fate>)
    requires Shifted(t, u, m, f) && Shifted(u, w, n, g)
    ensures Shifted(t, w, m + n, f + g)
  {
    CountJoins(f, g, Sent);
    CountJoins(f, g, Lost);
    CountJoins(f, g, Kept);
  }

  lemma ArrivalsTwice(v: View, w: View, x: View)
    requires Arrivals(v, w) && Arrivals(w, x)
    ensures Arrivals(v, x)
  {
    GrowsTwice(v.channel, w.channel, x.channel);
    ConcatAssociates(v.accepted, w.channel[|v.channel|..], x.channel[|w.channel|..]);
  }

  lemma WalGrewTwice(a: seq<Record>, b: seq<Record>, c: seq<Record>, e: seq<Event>, f: seq<Fate>, d: seq<Event>,
                     g: seq<Fate>)
    requires WalGrew(a, b, e, f) && WalGrew(b, c, d, g)
    ensures WalGrew(a, c, e + d, f + g)
  {
    SelectJoins(e, f, d, g, Kept);
  }

  lemma WorksTwice(v: View, w: View, x: View, e: seq<Event>, f: seq<Fate>, d: seq<Event>, g: seq<Fate>)
    requires Works(v, w, e, f) && Works(w, x, d, g)
    ensures Works(v, x, e + d, f + g)
  {
    hide Shifted, WalGrew;
    ShiftedTwice(v.tally, w.tally, x.tally, |w.accepted| - |v.accepted|, |x.accepted| - |w.accepted|, f, g);
    WalGrewTwice(v.wal, w.wal, x.wal, e, f, d, g);
    ConcatAssociates(v.settled, e, d);
    ConcatAssociates(v.fates, f, g);
  }

  lemma AdvancesTwice(v: View, w: View, x: View, e: seq<Event>, f: seq<Fate>, d: seq<Event>, g: seq<Fate>)
    requires Advances(v, w, e, f) && Advances(w, x, d, g)
    ensures Advances(v, x, e + d, f + g)
  {
    hide Arrivals, Works;
    ArrivalsTwice(v, w, x);
    WorksTwice(v, w, x, e, f, d, g);
  }

  lemma AdvancesIdly(v: View, w: View, x: View)
    requires Advances(v, w, [], []) && Advances(w, x, [], [])
    ensures Advances(v, x, [], [])
  {
    hide Advances;
    AdvancesTwice(v, w, x, [], [], [], []);
    var e: seq<Event>, f: seq<Fate> := [], [];
    assert e + e == e && f + f == f;
  }

  lemma AdvancesLater(v: View, w: View, x: View, e: seq<Event>, f: seq<Fate>)
    requires Advances(v, w, [], []) && Advances(w, x, e, f)
    ensures Advances(v, x, e, f)
  {
    hide Advances;
    AdvancesTwice(v, w, x, [], [], e, f);
    assert [] + e == e && [] + f == f;
  }

  lemma NothingToFollow(wal: seq<Record>, events: seq<Event>)
    ensures WalFollows(wal, wal, events, Lost)
  {
  }

  lemma StandsStill(v: View)
    requires AllValid(v.wal)
    ensures Advances(v, v, [], [])
  {
  }

  /** One admission, or one drop when the budget is used up. */
  function Admitted(v: View, e: Event): View {
    v.(channel := v.channel + [e], accepted := v.accepted + [e],
       tally := v.tally.(unsent := v.tally.unsent + 1, enqueued := v.tally.enqueued + 1))
  }

  function Declined(v: View): View {
    v.(tally := v.tally.(dropped := v.tally.dropped + 1))
  }

  lemma AdmissionIsSound(v: View, e: Event, flushSize: int, limit: int)
    requires Sound(v, flushSize, limit)
    ensures |v.channel| <= v.tally.unsent
    ensures v.tally.unsent + v.tally.recoveryOwned + v.tally.durableCurrent < limit ==>
      Sound(Admitted(v, e), flushSize, limit) && |v.channel| < limit
    ensures Advances(v, Admitted(v, e), [], [])
    ensures Sound(Declined(v), flushSize, limit) && Advances(v, Declined(v), [], [])
  {
    AdmissionKeepsOrder(v, e);
    AdmissionAdvances(v, e);
  }

  lemma RefusalIsSound(v: View, flushSize: int, limit: int)
    requires Sound(v, flushSize, limit)
    ensures Sound(v.(tally := v.tally.(rejected := v.tally.rejected + 1)), flushSize, limit)
  {
  }

  lemma AdmissionKeepsOrder(v: View, e: Event)
    requires Ordered(v)
    ensures Ordered(Admitted(v, e))
  {
    var before := v.settled + v.inHand + v.pending;
    assert before + (v.channel + [e]) == (before + v.channel) + [e];
  }

  lemma AdmissionAdvances(v: View, e: Event)
    requires AllValid(v.wal)
    ensures Advances(v, Admitted(v, e), [], [])
    ensures Advances(v, Declined(v), [], [])
  {
    assert (v.channel + [e])[|v.channel|..] == [e];
  }

  /** The view once `events`, the first in hand, are settled with one fate. */
  function SettledAs(v: View, events: seq<Event>, rest: seq<Event>, fate: Fate, wal: seq<Record>): View {
    v.(inHand := rest, settled := v.settled + events, fates := v.fates + Repeat(fate, |events|),
       tally := Book(v.tally, |events|, fate), wal := wal)
  }

  /** The WAL afterwards: longer by these events if they were retained, otherwise the same. */
  ghost predicate WalFollows(before: seq<Record>, after: seq<Record>, events: seq<Event>, fate: Fate) {
    if fate.Kept? then
      && AllValid(before) && AllValid(after)
      && WalEvents(after) == WalEvents(before) + events
      && Total(after) == Total(before) + |events|
    else after == before
  }

  lemma SettlingOrdered(v: View, events: seq<Event>, rest: seq<Event>, fate: Fate, wal: seq<Record>)
    requires Ordered(v) && v.inHand == events + rest
    ensures Ordered(SettledAs(v, events, rest, fate, wal))
  {
    assert v.settled + (events + rest) == (v.settled + events) + rest;
  }

  lemma SettlingBalanced(v: View, events: seq<Event>, rest: seq<Event>, fate: Fate, wal: seq<Record>, limit: int)
    requires Balanced(v.tally, |v.accepted|, |v.channel| + |v.pending| + |v.inHand|, Total(v.wal), v.handedOver, limit)
    requires v.inHand == events + rest && WalFollows(v.wal, wal, events, fate)
    requires fate.Kept? ==> v.tally.recoveryOwned == 0 || v.handedOver
    ensures var w := SettledAs(v, events, rest, fate, wal);
      Balanced(w.tally, |w.accepted|, |w.channel| + |w.pending| + |w.inHand|, Total(w.wal), w.handedOver, limit)
  {
  }

  lemma SettlingRetains(v: View, events: seq<Event>, rest: seq<Event>, fate: Fate, wal: seq<Record>)
    requires Retains(v) && WalFollows(v.wal, wal, events, fate)
    ensures Retains(SettledAs(v, events, rest, fate, wal))
  {
    hide Select, WalEvents, Repeat;
    SelectJoins(v.settled, v.fates, events, Repeat(fate, |events|), Kept);
    SelectRepeated(events, fate, Kept);
    var kept := Select(v.settled, v.fates, Kept);
    if fate.Kept? {
      TailGrows(kept, v.tally.durableCurrent, events);
      HeadDropGrows(WalEvents(v.wal), v.tally.recoveryOwned, events);
    } else {
      assert kept + [] == kept;
    }
  }

  lemma SettlingTallied(v: View, events: seq<Event>, rest: seq<Event>, fate: Fate, wal: seq<Record>)
    requires Tallied(v)
    ensures Tallied(SettledAs(v, events, rest, fate, wal))
  {
    CountJoins(v.fates, Repeat(fate, |events|), Sent);
    CountJoins(v.fates, Repeat(fate, |events|), Lost);
    CountJoins(v.fates, Repeat(fate, |events|), Kept);
    CountRepeated(fate, |events|, Sent);
    CountRepeated(fate, |events|, Lost);
    CountRepeated(fate, |events|, Kept);
  }

  /** Settling more events with justified fates, under the same journal. */
  lemma SettlingDocumented(enabled: bool, over: bool, settled: seq<Event>, fates: seq<Fate>, outcomes: seq<Fate>,
                           events: seq<Event>, fate: Fate, log: seq<Step>)
    requires Documented(enabled, over, settled, fates, outcomes, log)
    requires Justified(enabled, over, events, Repeat(fate, |events|), log)
    ensures Documented(enabled, over, settled + events, fates + Repeat(fate, |events|), outcomes, log)
  {
    hide Justified, Attested, Select, Repeat;
    JustifiedLengths(enabled, over, settled, fates, log);
    JustifiedJoins(enabled, over, settled, fates, events, Repeat(fate, |events|), log);
    SelectJoins(settled, fates, events, Repeat(fate, |events|), Kept);
    var kept, more := Select(settled, fates, Kept), Select(events, Repeat(fate, |events|), Kept);
    assert (kept + more)[..|outcomes|] == kept[..|outcomes|];
  }

  lemma JustifiedLengths(enabled: bool, over: bool, events: seq<Event>, fates: seq<Fate>, log: seq<Step>)
    requires Justified(enabled, over, events, fates, log)
    ensures |events| == |fates|
  {
  }

  lemma NothingToDocument(enabled: bool, log: seq<Step>)
    ensures Documented(enabled, false, [], [], [], log)
  {
  }

  lemma DocumentedStays(enabled: bool, over: bool, settled: seq<Event>, fates: seq<Fate>, outcomes: seq<Fate>,
                        log: seq<Step>, more: seq<Step>)
    requires Documented(enabled, over, settled, fates, outcomes, log)
    ensures Documented(enabled, over, settled, fates, outcomes, log + more)
  {
    hide Justified, Attested, Select;
    JustifiedLengths(enabled, over, settled, fates, log);
    JustifiedStays(enabled, over, settled, fates, log, more);
    AttestedStays(Select(settled, fates, Kept)[..|outcomes|], outcomes, log, more);
  }

  lemma SettlingAdvances(v: View, events: seq<Event>, rest: seq<Event>, fate: Fate, wal: seq<Record>)
    requires AllValid(v.wal) && WalFollows(v.wal, wal, events, fate)
    ensures Advances(v, SettledAs(v, events, rest, fate, wal), events, Repeat(fate, |events|))
  {
    var f := Repeat(fate, |events|);
    CountRepeated(fate, |events|, Sent);
    CountRepeated(fate, |events|, Lost);
    CountRepeated(fate, |events|, Kept);
    SelectRepeated(events, fate, Kept);
  }

  /** Settling the first events in hand keeps every law. */
  lemma SettlingIsSound(v: View, events: seq<Event>, rest: seq<Event>, fate: Fate, wal: seq<Record>, flushSize: int,
                        limit: int)
    requires Sound(v, flushSize, limit) && v.inHand == events + rest
    requires WalFollows(v.wal, wal, events, fate)
    requires fate.Kept? ==> v.tally.recoveryOwned == 0 || v.handedOver
    ensures Sound(SettledAs(v, events, rest, fate, wal), flushSize, limit)
    ensures Advances(v, SettledAs(v, events, rest, fate, wal), events, Repeat(fate, |events|))
  {
    SettlingOrdered(v, events, rest, fate, wal);
    SettlingBalanced(v, events, rest, fate, wal, limit);
    SettlingRetains(v, events, rest, fate, wal);
    SettlingTallied(v, events, rest, fate, wal);
    SettlingAdvances(v, events, rest, fate, wal);
  }

  /** drainChannel at the level of the view. */
  function Drained(v: View): View {
    v.(pending := v.pending + v.channel, channel := [])
  }

  lemma DrainedTwice(v: View)
    requires v.channel == []
    ensures Drained(v) == v
  {
    assert v.pending + [] == v.pending;
  }

  lemma DrainingKeepsOrder(v: View)
    requires Ordered(v)
    ensures Ordered(Drained(v))
  {
    ConcatAssociates(v.settled + v.inHand, v.pending, v.channel);
  }

  lemma DrainingIsSound(v: View, flushSize: int, limit: int)
    requires Sound(v, flushSize, limit)
    ensures Sound(Drained(v), flushSize, limit)
    ensures |v.pending| + |v.channel| <= limit
  {
    DrainingKeepsOrder(v);
  }

  /** A chunk of `n` events is cut off pending and taken in hand. */
  function Cut(v: View, n: nat, trigger: Trigger): View
    requires n <= |v.pending|
  {
    v.(pending := v.pending[n..], inHand := v.pending[..n],
       handed := v.handed + [Handout(v.pending[..n], trigger, Total(v.wal))])
  }

  lemma CuttingIsSound(v: View, n: nat, trigger: Trigger, flushSize: int, limit: int)
    requires Sound(v, flushSize, limit) && v.inHand == []
    requires 1 <= n <= |v.pending| && n <= flushSize
    requires trigger.SizeReached? ==> n == flushSize && v.wal == []
    requires trigger.DrainFirst? ==> v.wal == []
    ensures Sound(Cut(v, n, trigger), flushSize, limit)
  {
    var w := Cut(v, n, trigger);
    assert v.pending == v.pending[..n] + v.pending[n..];
    assert w.handed[..|v.handed|] == v.handed;
    assert v.settled + [] + v.pending + v.channel == v.settled + v.pending[..n] + v.pending[n..] + v.channel;
    assert Chunks(w.handed) == v.settled + [] + v.pending[..n];
  }

  /** Settling a chunk just cut off is settling it from the view before the cut. */
  lemma CutAndWorked(v: View, n: nat, trigger: Trigger, w: View, fates: seq<Fate>)
    requires n <= |v.pending| && Advances(Cut(v, n, trigger), w, v.pending[..n], fates)
    ensures Works(v, w, v.pending[..n], fates)
    ensures v.accepted <= w.accepted && w.pending == v.pending[n..] && w.handedOver == v.handedOver
    ensures w.channel == v.channel ==> w.accepted == v.accepted
    ensures w.handed == v.handed + [Handout(v.pending[..n], trigger, Total(v.wal))]
    ensures w.settled == v.settled + v.pending[..n]
    ensures w.tally.recoveryOwned == v.tally.recoveryOwned
  {
  }

  /** The outcomes after a pass that removed these records: they are retained events of this
      process if none of an earlier one were left. */
  function MoreOutcomes(v: View, removed: seq<Record>, marks: seq<bool>): seq<Fate>
    requires AllValid(removed) && |marks| == |removed|
  {
    if v.tally.recoveryOwned > 0 then v.outcomes else v.outcomes + OutcomesOf(removed, marks)
  }

  /** The view after a recovery pass. */
  function AfterRecovery(v: View, wal: seq<Record>, removed: seq<Record>, marks: seq<bool>): View
    requires AllValid(removed) && |marks| == |removed|
  {
    v.(wal := wal, tally := Resolved(v.tally, Total(removed), LostIn(removed, marks)),
       outcomes := MoreOutcomes(v, removed, marks))
  }

  lemma {:induction false} LossWithinTotal(records: seq<Record>, marks: seq<bool>)
    requires AllValid(records) && |marks| == |records|
    ensures 0 <= LostIn(records, marks) <= Total(records)
  {
    if records != [] {
      var n := |records| - 1;
      LossWithinTotal(records[..n], marks[..n]);
      assert records == records[..n] + [records[n]];
      TotalConcat(records[..n], [records[n]]);
    }
  }

  lemma SameEventsButHeadPause(after: seq<Record>, rest: seq<Record>)
    requires AllValid(after) && AllValid(rest) && SameButHeadPause(after, rest)
    ensures WalEvents(after) == WalEvents(rest) && Total(after) == Total(rest)
  {
  }

  /** The parts of the WAL a pass removed and left. */
  lemma WalInTwo(wal: seq<Record>, k: nat, after: seq<Record>)
    requires AllValid(wal) && k <= |wal| && AllValid(after) && SameButHeadPause(after, wal[k..])
    ensures AllValid(wal[..k])
    ensures 0 <= Total(wal[..k]) <= Total(wal) && Total(after) == Total(wal) - Total(wal[..k])
    ensures |WalEvents(wal)| == Total(wal)
    ensures WalEvents(after) == WalEvents(wal)[Total(wal[..k])..]
  {
    SameEventsButHeadPause(after, wal[k..]);
    assert wal == wal[..k] + wal[k..];
    TotalConcat(wal[..k], wal[k..]);
    WalEventsConcat(wal[..k], wal[k..]);
    WalEventsCount(wal[..k]);
    WalEventsCount(wal[k..]);
    WalEventsCount(wal);
  }

  lemma RecoveryBalanced(v: View, wal: seq<Record>, removed: seq<Record>, marks: seq<bool>, limit: int)
    requires Balanced(v.tally, |v.accepted|, |v.channel| + |v.pending| + |v.inHand|, Total(v.wal), v.handedOver, limit)
    requires AllValid(removed) && |marks| == |removed| && !v.handedOver
    requires 0 <= LostIn(removed, marks) <= Total(removed) <= Total(v.wal)
    requires Total(wal) == Total(v.wal) - Total(removed)
    ensures var w := AfterRecovery(v, wal, removed, marks);
      Balanced(w.tally, |w.accepted|, |w.channel| + |w.pending| + |w.inHand|, Total(w.wal), w.handedOver, limit)
  {
  }

  lemma RecoveryTallied(v: View, wal: seq<Record>, removed: seq<Record>, marks: seq<bool>)
    requires Tallied(v) && AllValid(removed) && |marks| == |removed|
    ensures Tallied(AfterRecovery(v, wal, removed, marks))
  {
    hide Count, LostIn, OutcomesOf, Total, AllValid;
    OutcomesAddUp(removed, marks);
    CountJoins(v.outcomes, OutcomesOf(removed, marks), Sent);
    CountJoins(v.outcomes, OutcomesOf(removed, marks), Lost);
  }

  lemma RetainedSuffix(wal: seq<Event>, kept: seq<Event>, owned: nat, durable: nat, resolved: nat)
    requires durable <= |kept| && owned + durable == |wal| && resolved <= |wal|
    requires owned == 0 || durable == 0
    requires kept[|kept| - durable..] == wal[owned..]
    ensures owned == 0 ==> kept[|kept| - (durable - resolved)..] == wal[resolved..]
    ensures owned > 0 ==> kept[|kept|..] == wal[resolved..][owned - resolved..] == []
  {
    if owned == 0 { TailOfTail(kept, durable, resolved); }
  }

  lemma RecoveryRetains(v: View, wal: seq<Record>, removed: seq<Record>, marks: seq<bool>)
    requires Retains(v) && Coupled(v.tally, |WalEvents(v.wal)|)
    requires AllValid(removed) && |marks| == |removed| && 0 <= Total(removed) <= |WalEvents(v.wal)|
    requires AllValid(wal) && WalEvents(wal) == WalEvents(v.wal)[Total(removed)..]
    ensures Retains(AfterRecovery(v, wal, removed, marks))
  {
    hide Select, WalEvents, AllValid, Total, LostIn, OutcomesOf;
    var kept := Select(v.settled, v.fates, Kept);
    RetainedSuffix(WalEvents(v.wal), kept, v.tally.recoveryOwned, v.tally.durableCurrent, Total(removed));
    if v.tally.recoveryOwned == 0 {
      assert WalEvents(wal)[0..] == WalEvents(wal);
    }
  }

  /** The outcomes a pass adds are documented by its posts. */
  lemma RecoveryDocumented(enabled: bool, v: View, removed: seq<Record>, rest: seq<Record>, marks: seq<bool>,
                           before: seq<Step>, posts: seq<Step>)
    requires Retains(v) && Tallied(v) && Coupled(v.tally, |WalEvents(v.wal)|)
    requires v.wal == removed + rest && AllValid(removed) && AllValid(rest) && |marks| == |removed|
    requires forall i :: 0 <= i < |removed| ==> Witnessed(posts, removed[i].body, marks[i])
    requires Documented(enabled, v.handedOver, v.settled, v.fates, v.outcomes, before)
    ensures Documented(enabled, v.handedOver, v.settled, v.fates, MoreOutcomes(v, removed, marks), before + posts)
  {
    hide Justified, Attested, Select, WalEvents, OutcomesOf, Witnessed, Count, AllValid;
    DocumentedStays(enabled, v.handedOver, v.settled, v.fates, v.outcomes, before, posts);
    if v.tally.recoveryOwned == 0 {
      var kept, n := Select(v.settled, v.fates, Kept), |v.outcomes|;
      SelectCount(v.settled, v.fates, Kept);
      PassAttests(removed, marks, posts);
      AttestedAfter(WalEvents(removed), OutcomesOf(removed, marks), before, posts);
      WalEventsConcat(removed, rest);
      OutcomesAddUp(removed, marks);
      WalEventsCount(removed);
      assert WalEvents(v.wal)[0..] == WalEvents(v.wal);
      PrefixOfTail(kept, n, WalEvents(removed), WalEvents(rest));
      AttestedJoins(kept[..n], v.outcomes, WalEvents(removed), OutcomesOf(removed, marks), before + posts);
    }
  }

  /** Every law holds at every moment of a recovery pass: between two of its records, and with
      the head of the rest paused. A deadline that ends there counts the events of the records
      not yet worked off, and those awaiting an outcome. */
  lemma EveryMomentOfAPassIsSound(v: View, wal: seq<Record>, marks: seq<bool>, lost: int, t: Tally, posts: seq<Step>,
                                  flushSize: int, limit: int)
    requires Sound(v, flushSize, limit) && !v.handedOver && AllValid(wal)
    requires WorkedOff(v.wal, marks, lost, v.tally, t, posts) && SameButHeadPause(wal, v.wal[|marks|..])
    ensures Sound(v.(wal := wal, tally := t, outcomes := MoreOutcomes(v, v.wal[..|marks|], marks)), flushSize, limit)
    ensures t.recoveryOwned + (t.enqueued - t.delivered - (t.failed - t.recoveryFailed))
      == Total(v.wal[|marks|..]) + |v.channel| + |v.pending| + |v.inHand|
  {
    hide OutcomesOf, Tallied, LostIn;
    var removed := v.wal[..|marks|];
    WalInTwo(v.wal, |marks|, wal);
    LossWithinTotal(removed, marks);
    RecoveryBalanced(v, wal, removed, marks, limit);
    RecoveryRetains(v, wal, removed, marks);
    RecoveryTallied(v, wal, removed, marks);
    SameEventsButHeadPause(wal, v.wal[|marks|..]);
    assert v.(wal := wal, tally := t, outcomes := MoreOutcomes(v, removed, marks)) == AfterRecovery(v, wal, removed,
        marks);
  }

  /** A recovery pass keeps every law; when it leaves nothing behind, no event is owed to the
      WAL any more. */
  lemma RecoveryIsSound(v: View, wal: seq<Record>, marks: seq<bool>, t: Tally, posts: seq<Step>,
                        err: Option<Error>, flushSize: int, limit: int)
    requires Sound(v, flushSize, limit) && !v.handedOver && AllValid(wal)
    requires Recovered(v.wal, wal, marks, v.tally, t, posts, err)
    ensures Sound(v.(wal := wal, tally := t, outcomes := MoreOutcomes(v, v.wal[..|marks|], marks)), flushSize, limit)
    ensures wal == [] ==> t.recoveryOwned == 0 && t.durableCurrent == 0
  {
    hide OutcomesOf, Tallied, LostIn, WorkedOff, Retains, Ordered, Shaped, MoreOutcomes;
    EveryMomentOfAPassIsSound(v, wal, marks, LostIn(v.wal[..|marks|], marks), t, posts, flushSize, limit);
  }

  lemma RemovedIsPrefix(queue: seq<Record>, after: seq<Record>, marks: seq<bool>, t0: Tally, t1: Tally,
                        posts: seq<Step>, err: Option<Error>)
    requires Recovered(queue, after, marks, t0, t1, posts, err) && AllValid(queue)
    ensures |marks| <= |queue| && AllValid(queue[..|marks|])
  {
  }

  lemma RecoveryIsDocumented(enabled: bool, v: View, wal: seq<Record>, marks: seq<bool>, t: Tally,
                             before: seq<Step>, posts: seq<Step>, err: Option<Error>, flushSize: int, limit: int)
    requires Sound(v, flushSize, limit) && !v.handedOver
    requires Recovered(v.wal, wal, marks, v.tally, t, posts, err)
    requires Documented(enabled, v.handedOver, v.settled, v.fates, v.outcomes, before)
    ensures Documented(enabled, v.handedOver, v.settled, v.fates, MoreOutcomes(v, v.wal[..|marks|], marks),
                       before + posts)
  {
    hide Documented, OutcomesOf, LostIn, Witnessed;
    var removed, rest := v.wal[..|marks|], v.wal[|marks|..];
    assert v.wal == removed + rest;
    WalEventsCount(v.wal);
    RecoveryDocumented(enabled, v, removed, rest, marks, before, posts);
  }

  /** A recovery pass at the start of a cycle: the view before and after it, what it did, and
      what it tells the cycle: `reported` a loss that blocks nothing, `blocked` an error that
      does. */
  datatype Pass = Pass(begun: View, ready: View, turns: seq<Turn>, marks: seq<bool>, posts: seq<Step>,
                       reported: Option<Error>, blocked: Option<Error>)

  ghost predicate Opened(line: Line, p: Pass) {
    var v, w := p.begun, p.ready;
    && w == v.(wal := w.wal, tally := w.tally, outcomes := w.outcomes)
    && |p.marks| <= |v.wal| && AllValid(v.wal[..|p.marks|]) && w.outcomes == MoreOutcomes(v, v.wal[..|p.marks|],
        p.marks)
    && (p.reported.None? || p.blocked.None?)
    && Course(line.ctx, line.maxRetries, v.wal, w.wal, p.turns, p.marks, p.posts,
              if p.reported.Some? then p.reported else p.blocked)
    && Recovered(v.wal, w.wal, p.marks, v.tally, w.tally, p.posts,
                 if p.reported.Some? then p.reported else p.blocked)
    && (p.blocked.Some? ==> Blocking(p.blocked))
    && (p.blocked.None? ==> w.wal == [] && w.tally.recoveryOwned == 0 && w.tally.durableCurrent == 0)
    && (p.reported.Some? ==> !Blocking(p.reported) && w.tally.failed > v.tally.failed)
    && (p.reported.None? && p.blocked.None? ==>
          w.tally.failed == v.tally.failed && w.tally.recoveryFailed == v.tally.recoveryFailed
          && w.tally.delivered == v.tally.delivered + v.tally.durableCurrent)
  }

  /** A cycle that begins at `v` opens with this pass. */
  ghost predicate Opens(line: Line, v: View, p: Pass) {
    Advances(v, p.begun, [], []) && Opened(line, p)
  }

  lemma SoundIsCoupled(v: View, flushSize: int, limit: int)
    requires Sound(v, flushSize, limit) && !v.handedOver
    ensures Coupled(v.tally, Total(v.wal))
  {
  }

  lemma RecoveryReports(queue: seq<Record>, after: seq<Record>, marks: seq<bool>, t0: Tally, t1: Tally,
                        posts: seq<Step>, err: Option<Error>)
    requires Recovered(queue, after, marks, t0, t1, posts, err)
    ensures err.Some? && FindRecovery(err.value).Some? ==> FindRecovery(err.value).value.reported
    ensures t1.rejected == t0.rejected
  {
  }

  lemma RecoveryOpens(line: Line, p: Pass, err: Option<Error>, flushSize: int, limit: int)
    requires Sound(p.begun, flushSize, limit) && !p.begun.handedOver && AllValid(p.ready.wal)
    requires p.ready == p.begun.(wal := p.ready.wal, tally := p.ready.tally, outcomes := p.ready.outcomes)
    requires |p.marks| <= |p.begun.wal| && AllValid(p.begun.wal[..|p.marks|])
    requires p.ready.outcomes == MoreOutcomes(p.begun, p.begun.wal[..|p.marks|], p.marks)
    requires Recovered(p.begun.wal, p.ready.wal, p.marks, p.begun.tally, p.ready.tally, p.posts, err)
    requires Course(line.ctx, line.maxRetries, p.begun.wal, p.ready.wal, p.turns, p.marks, p.posts, err)
    requires if err.Some? && FindRecovery(err.value).Some? && !FindRecovery(err.value).value.blocked
      then p.reported == err && p.blocked.None? else p.reported.None? && p.blocked == err
    ensures Opened(line, p)
  {
    WalInTwo(p.begun.wal, |p.marks|, p.ready.wal);
    if p.blocked.None? { assert p.begun.wal[..|p.marks|] == p.begun.wal; }
  }

  /** What a send of a fresh batch does to the WAL, by the fate of its events. */
  lemma DispatchedWal(enabled: bool, refusal: Option<Error>, before: seq<Record>, after: seq<Record>,
                      payload: BatchPayload,
                      replies: seq<Reply>, err: Option<Error>, kept: int)
    requires Dispatched(enabled, refusal, before, after, RecordOf(payload), replies, err, kept)
    requires AllValid(before) && AllValid(after)
    ensures WalFollows(before, after, payload.events, FateOf(err))
    ensures Halves(payload.events, err) ==> after == before
  {
    if FateOf(err).Kept? { AppendedWal(before, after, payload, kept); }
  }

  lemma AppendedWal(before: seq<Record>, after: seq<Record>, payload: BatchPayload, kept: int)
    requires AllValid(before) && AllValid(after)
    requires after == before + [RecordOf(payload).(pausedUntilMS := kept)]
    ensures WalEvents(after) == WalEvents(before) + payload.events
    ensures Total(after) == Total(before) + |payload.events|
  {
    var last := [RecordOf(payload).(pausedUntilMS := kept)];
    assert after[|before|] == last[0];
    WalEventsConcat(before, last);
    TotalConcat(before, last);
    assert WalEvents(last) == payload.events + WalEvents(last[1..]);
  }

  /** Since `v`, when the WAL was empty, every event settled was delivered and none was lost. */
  ghost predicate Flawless(v: View, w: View) {
    && w.wal == [] && w.tally.failed == v.tally.failed && w.tally.recoveryFailed == v.tally.recoveryFailed
    && v.settled <= w.settled && v.fates <= w.fates
    && (forall i :: |v.fates| <= i < |w.fates| ==> w.fates[i] == Sent)
    && w.tally.delivered == v.tally.delivered + |w.settled| - |v.settled|
  }

  lemma {:induction false} AllSentCounts(events: seq<Event>, fates: seq<Fate>)
    requires |events| == |fates| && All(fates, Sent)
    ensures Count(fates, Sent) == |fates| && Count(fates, Lost) == 0 && Select(events, fates, Kept) == []
  {
    if events != [] {
      assert fates[0] == Sent && All(fates[1..], Sent);
      AllSentCounts(events[1..], fates[1..]);
    }
  }

  lemma FlawlessWhenAllSent(v: View, w: View, e: seq<Event>, f: seq<Fate>)
    requires v.wal == [] && Works(v, w, e, f) && All(f, Sent)
    ensures Flawless(v, w)
  {
    AllSentCounts(e, f);
    WalEventsCount(w.wal);
  }

  /** A drain on its way from `v` to `w`: chunk after chunk of pending was given its own run of at
      most 64 sends, whatever became of the ones before, and nothing else was settled. */
  ghost predicate Draining(line: Line, flushSize: int, v: View, w: View, runs: seq<Delivery>) {
    && w.settled + w.pending == v.settled + v.pending && v.accepted <= w.accepted
    && Works(v, w, EventsIn(runs), FatesIn(runs))
    && SentInChunks(line, flushSize, runs, w.pending != [])
  }

  lemma DrainingStarts(line: Line, flushSize: int, v: View)
    requires AllValid(v.wal)
    ensures Draining(line, flushSize, v, v, [])
  {
    NothingWorked(v);
  }

  lemma DrainingGrows(line: Line, flushSize: int, v: View, w: View, x: View, n: nat, runs: seq<Delivery>, d: Delivery)
    requires Draining(line, flushSize, v, w, runs)
    requires 1 <= n <= |w.pending| && Works(w, x, w.pending[..n], Fates(d.tree))
    requires n == flushSize || n == |w.pending| < flushSize
    requires Performed(line, d) && d.tree.events == w.pending[..n]
    requires w.accepted <= x.accepted && x.pending == w.pending[n..]
    ensures Draining(line, flushSize, v, x, runs + [d])
  {
    hide Works, Performed, Fates, EventsIn, FatesIn, SentInChunks;
    OneMoreRun(runs, d);
    OneMoreChunk(line, flushSize, runs, d, x.pending != []);
    WorkedQueue(w, x, w.pending[..n], Fates(d.tree));
    FrontMoves(w.settled, w.pending, n);
    WorksTwice(v, w, x, EventsIn(runs), FatesIn(runs), d.tree.events, Fates(d.tree));
  }

  lemma WorkedQueue(v: View, w: View, e: seq<Event>, f: seq<Fate>)
    requires Works(v, w, e, f)
    ensures w.settled == v.settled + e && w.fates == v.fates + f
  {
  }

  /** A drain that has emptied pending. */
  lemma DrainedAll(line: Line, flushSize: int, v: View, w: View, runs: seq<Delivery>)
    requires Draining(line, flushSize, v, w, runs) && w.pending == []
    ensures w.settled == v.settled + v.pending && v.accepted <= w.accepted
    ensures w.settled == v.settled + EventsIn(runs) && w.fates == v.fates + FatesIn(runs)
    ensures SentInChunks(line, flushSize, runs, false)
    ensures v.wal == [] && FirstErrorIn(runs).None? ==> Flawless(v, w)
    ensures v.wal == [] && JudgedWire({}, LogIn(runs)) && (line.enabled ==> AllUnhindered(runs)) ==> Flawless(v, w)
  {
    hide SentInChunks, EventsIn, FatesIn, FirstErrorIn, LogIn, JudgedWire, AllUnhindered, Flawless, Shifted, WalGrew;
    assert w.settled + [] == w.settled;
    if v.wal == [] && FirstErrorIn(runs).None? {
      NoErrorMeansAllSent(line, flushSize, runs, false);
      FlawlessWhenAllSent(v, w, EventsIn(runs), FatesIn(runs));
    }
    if v.wal == [] && JudgedWire({}, LogIn(runs)) && (line.enabled ==> AllUnhindered(runs)) {
      AcceptedDrain(line, flushSize, runs, false);
      FlawlessWhenAllSent(v, w, EventsIn(runs), FatesIn(runs));
    }
  }

  lemma AdvancedQueue(v: View, w: View)
    requires Advances(v, w, [], [])
    ensures w.settled == v.settled && w.handed == v.handed && w.pending == v.pending && v.accepted <= w.accepted
    ensures w.channel == v.channel ==> w.accepted == v.accepted
  {
  }

  lemma {:induction false} CountIsMembership(fates: seq<Fate>, fate: Fate)
    ensures Count(fates, fate) == 0 <==> fate !in fates
  {
    if fates != [] {
      CountIsMembership(fates[1..], fate);
      assert fates == [fates[0]] + fates[1..];
    }
  }

  lemma {:induction false} SelectHolds(events: seq<Event>, fates: seq<Fate>, fate: Fate, i: nat)
    requires |events| == |fates| && i < |events| && fates[i] == fate
    ensures events[i] in Select(events, fates, fate)
  {
    if i > 0 { SelectHolds(events[1..], fates[1..], fate, i - 1); }
  }

  /** What a nil reply is worth: the documentation has it that every event enqueued before the
      call was accepted by the endpoint. All of them are settled and none of them was lost by
      this flush. None of this process is counted as lost if and only if its own failures were
      none when the flush began, and if so each settled event, retained in between or not, was in
      a batch the endpoint accepted (but not only if: see AcceptedThoughCountedLost). */
  lemma FlushPromise(enabled: bool, v: View, w: View, posts: seq<Step>, flushSize: int, limit: int)
    requires Flushed(v, w) && Sound(v, flushSize, limit) && Sound(w, flushSize, limit) && w.inHand == []
    requires Documented(enabled, w.handedOver, w.settled, w.fates, w.outcomes, posts)
    ensures |v.accepted| <= |w.settled|
    ensures w.tally.delivered == |w.settled| - (v.tally.failed - v.tally.recoveryFailed)
    ensures Lost in w.fates <==> Lost in v.fates
    ensures Lost !in w.fates && Lost !in w.outcomes <==> v.tally.failed == v.tally.recoveryFailed
    ensures v.tally.failed == v.tally.recoveryFailed ==> forall i :: 0 <= i < |w.settled| ==> AcceptedIn(posts,
        w.settled[i])
  {
    hide AcceptedIn, RejectedIn, Count, Select;
    assert w.settled + [] == w.settled;
    assert w.fates == v.fates + w.fates[|v.fates|..];
    CountIsMembership(w.fates, Lost);
    CountIsMembership(w.outcomes, Lost);
    if v.tally.failed == v.tally.recoveryFailed {
      forall i | 0 <= i < |w.settled| ensures AcceptedIn(posts, w.settled[i]) {
        ArrivedUnlessLost(enabled, w, posts, i);
      }
    }
  }

  /** With nothing retained and nothing lost, every settled event arrived. */
  lemma ArrivedUnlessLost(enabled: bool, w: View, posts: seq<Step>, i: nat)
    requires Documented(enabled, w.handedOver, w.settled, w.fates, w.outcomes, posts) && Tallied(w)
    requires w.tally.durableCurrent == 0
    requires Lost !in w.fates && Lost !in w.outcomes && i < |w.settled|
    ensures AcceptedIn(posts, w.settled[i])
  {
    hide AcceptedIn, RejectedIn, Count, Select;
    if w.fates[i] == Kept {
      var kept := Select(w.settled, w.fates, Kept);
      SelectCount(w.settled, w.fates, Kept);
      SelectHolds(w.settled, w.fates, Kept, i);
      var k :| 0 <= k < |kept| && kept[k] == w.settled[i];
      assert kept[..|w.outcomes|] == kept;
      assert w.outcomes[k] != Lost;
    }
  }

  function NoTally(): Tally {
    Tally(0, 0, 0, 0, 0, 0, 0, 0, 0)
  }

  /** A pass over an empty WAL. */
  function IdlePass(v: View): Pass {
    Pass(v, v, [], [], [], None, None)
  }

  lemma IdlePassOpens(line: Line, v: View)
    requires v.wal == [] && Coupled(v.tally, 0)
    ensures Opens(line, v, IdlePass(v))
  {
    assert Resolved(v.tally, 0, 0) == v.tally;
    assert MoreOutcomes(v, [], []) == v.outcomes;
    StandsStill(v);
  }

  /** A process that starts with an empty WAL, and the same with one event admitted. */
  function StartView(): View {
    View([], [], [], [], [], [], [], [], NoTally(), [], false)
  }

  function OneAdmitted(e: Event): View {
    Admitted(StartView(), e)
  }

  /** The event drained and cut off as a chunk of its own, and then lost. */
  function OneInHand(e: Event): View {
    Cut(Drained(OneAdmitted(e)), 1, DrainFirst)
  }

  function OneLost(e: Event): View {
    SettledAs(OneInHand(e), [e], [], Lost, [])
  }

  lemma OneInHandIsSound(e: Event, flushSize: int, limit: int)
    requires 1 <= flushSize <= limit
    ensures Sound(StartView(), flushSize, limit) && Sound(OneInHand(e), flushSize, limit)
  {
    hide Sound, Advances;
    StartIsSound([], NoTally(), flushSize, limit);
    AdmissionIsSound(StartView(), e, flushSize, limit);
    DrainingIsSound(OneAdmitted(e), flushSize, limit);
    CuttingIsSound(Drained(OneAdmitted(e)), 1, DrainFirst, flushSize, limit);
  }

  lemma OneLostIsSound(e: Event, flushSize: int, limit: int)
    requires 1 <= flushSize <= limit
    ensures Sound(OneLost(e), flushSize, limit)
  {
    hide Sound, Advances, SettledAs, OneInHand;
    OneInHandIsSound(e, flushSize, limit);
    OneInHandIs(e);
    NothingToFollow([], [e]);
    assert [e] + [] == [e];
    SettlingIsSound(OneInHand(e), [e], [], Lost, [], flushSize, limit);
  }

  lemma OneInHandIs(e: Event)
    ensures OneInHand(e).channel == [] && OneInHand(e).pending == [] && OneInHand(e).accepted == [e]
    ensures OneInHand(e).settled == [] && OneInHand(e).fates == [] && OneInHand(e).outcomes == []
    ensures OneInHand(e).tally == NoTally().(enqueued := 1, unsent := 1) && !OneInHand(e).handedOver
    ensures OneInHand(e).inHand == [e] && OneInHand(e).wal == [] && OneInHand(e).tally.recoveryOwned == 0
    ensures OneLost(e).channel == [] && OneLost(e).pending == [] && OneLost(e).wal == [] && OneLost(e).accepted == [e]
    ensures OneLost(e).settled == [e] && OneLost(e).fates == [Lost] && OneLost(e).tally.delivered == 0
    ensures Coupled(OneLost(e).tally, 0)
    ensures Drained(OneLost(e)) == OneLost(e)
  {
    assert [e][..1] == [e] && [e][1..] == [];
  }

  lemma FlushedAfterDrain(v: View, w: View, inHand: seq<Event>)
    requires Flushed(Drained(v), w)
    ensures Flushed(v, w)
  {
  }

  /** What a flush that reports no error promises: every event accepted before it was settled,
      everything settled since was delivered, the retained events of earlier cycles were too,
      nothing was lost and the WAL is empty. */
  ghost predicate Flushed(v: View, w: View) {
    && v.accepted <= w.settled && v.settled <= w.settled && v.fates <= w.fates
    && (forall i :: |v.fates| <= i < |w.fates| ==> w.fates[i] == Sent)
    && w.wal == [] && w.tally.failed == v.tally.failed && w.tally.recoveryFailed == v.tally.recoveryFailed
    && w.tally.delivered == v.tally.delivered + v.tally.durableCurrent + |w.settled| - |v.settled|
  }

  lemma DrainedIsAccepted(v: View, flushSize: int, limit: int)
    requires Sound(v, flushSize, limit) && v.inHand == []
    ensures v.accepted == v.settled + (v.pending + v.channel)
  {
    assert v.settled + [] == v.settled;
    ConcatAssociates(v.settled, v.pending, v.channel);
  }

  /** The parts of a cycle without an error, put together. */
  lemma CycleFlushes(line: Line, v: View, p: Pass, later: View, w: View)
    requires Opens(line, v, p) && p.reported.None? && p.blocked.None? && Advances(p.ready, later, [], [])
    requires Flawless(Drained(later), w) && w.settled == later.accepted
    ensures Flushed(v, w)
  {
    hide Recovered, WalGrew;
    assert v.accepted <= p.begun.accepted == p.ready.accepted <= later.accepted;
  }

  /** A pass leaves everything but the WAL and the counters alone, and lets the cycle go on only
      with an empty WAL. */
  lemma PassFacts(line: Line, v: View, p: Pass)
    requires Opens(line, v, p)
    ensures p.ready.settled == v.settled && p.ready.handed == v.handed && p.ready.pending == v.pending
    ensures v.accepted <= p.ready.accepted && p.ready.handedOver == v.handedOver
    ensures p.blocked.None? ==> p.ready.wal == [] && p.ready.tally.recoveryOwned == 0
    ensures p.reported.Some? ==> p.blocked.None?
  {
    hide Recovered, WalGrew;
  }

  /** A pass over an empty WAL blocks nothing. */
  lemma PassBlocksOverRecords(line: Line, v: View, p: Pass)
    requires Opens(line, v, p) && p.blocked.Some?
    ensures v.wal != []
  {
    if v.wal == [] { IdleKeepsWalEmpty(v, p.begun); }
  }

  lemma IdleKeepsWalEmpty(v: View, w: View)
    requires Advances(v, w, [], []) && v.wal == []
    ensures w.wal == [] && w.tally.recoveryOwned == v.tally.recoveryOwned
    ensures w.settled == v.settled && w.handed == v.handed && v.accepted <= w.accepted && w.handedOver == v.handedOver
    ensures w.pending == v.pending
  {
    WalEventsCount(w.wal);
  }

  /** The WAL has room for everything in hand. */
  lemma RoomForMore(v: View, events: seq<Event>, rest: seq<Event>, flushSize: int, limit: int)
    requires Sound(v, flushSize, limit) && v.inHand == events + rest
    ensures Total(v.wal) + |events| <= limit
  {
  }

  /** The oldest event of the channel moves on to pending. */
  function Received(v: View): View
    requires v.channel != []
  {
    v.(pending := v.pending + [v.channel[0]], channel := v.channel[1..])
  }

  lemma ReceivingIsSound(v: View, flushSize: int, limit: int)
    requires Sound(v, flushSize, limit) && v.channel != []
    ensures Sound(Received(v), flushSize, limit)
  {
    var front := v.settled + v.inHand;
    assert v.channel == [v.channel[0]] + v.channel[1..];
    ConcatAssociates(front + v.pending, [v.channel[0]], v.channel[1..]);
    ConcatAssociates(front, v.pending, [v.channel[0]]);
  }

  /** A process that starts with this WAL owes nothing but the events it recovered. */
  lemma StartIsSound(wal: seq<Record>, t: Tally, flushSize: int, limit: int)
    requires AllValid(wal) && Total(wal) <= limit
    requires t == Tally(0, 0, 0, 0, 0, 0, Total(wal), 0, 0)
    ensures Sound(View([], [], [], [], [], [], [], [], t, wal, false), flushSize, limit)
  {
    WalEventsCount(wal);
  }

  // ---- Shutdown ----

  /** From here on new events go into the WAL behind records of an earlier process. */
  lemma HandingOverIsSound(v: View, flushSize: int, limit: int)
    requires Sound(v, flushSize, limit)
    ensures Sound(v.(handedOver := true), flushSize, limit)
  {
  }

  /** Nothing of these events was sent: each is retained or lost. */
  ghost predicate Unsent(fates: seq<Fate>) {
    forall i :: 0 <= i < |fates| ==> fates[i] != Sent
  }

  /** What persist does to the WAL, by the fate of its events. */
  lemma StoredWal(refusal: Option<Error>, before: seq<Record>, after: seq<Record>, payload: BatchPayload,
                  err: Option<Error>)
    requires Stored(refusal, before, after, RecordOf(payload), err)
    requires AllValid(before) && AllValid(after)
    ensures WalFollows(before, after, payload.events, if err.None? || IsDurable(err.value) then Kept else Lost)
    ensures before <= after
    ensures err.Some? && !IsDurable(err.value) && refusal.None? ==> Unwritten(err.value)
  {
    if err.None? || IsDurable(err.value) {
      assert RecordOf(payload).(pausedUntilMS := 0) == RecordOf(payload);
      AppendedWal(before, after, payload, 0);
    }
  }

  /** The events of the bodies these puts did not get into the WAL, in order. */
  function Missing(log: seq<Step>): seq<Event> {
    if log == [] then []
    else
      var last := log[|log| - 1];
      Missing(log[..|log| - 1])
      + if last.Missed? && last.body.Encoded? then last.body.payload.events else []
  }

  lemma {:induction false} MissingJoins(a: seq<Step>, b: seq<Step>)
    ensures Missing(a + b) == Missing(a) + Missing(b)
    decreases |b|
  {
    if b == [] {
      assert a + b == a;
    } else {
      var n := |b| - 1;
      MissingJoins(a, b[..n]);
      assert (a + b)[..|a + b| - 1] == a + b[..n] && (a + b)[|a + b| - 1] == b[n];
    }
  }

  /** One chunk of a hand-over: the error of its put and what that entered into the journal. */
  datatype Transfer = Transfer(events: seq<Event>, err: Option<Error>, log: seq<Step>)

  /** What becomes of events that were to be retained. */
  function FateOfPut(err: Option<Error>): Fate {
    if err.None? || IsDurable(err.value) then Kept else Lost
  }

  /** The chunk is in the WAL, or its own write failed before it was, or there is no WAL. Nothing is
      posted. */
  ghost predicate Transferred(enabled: bool, t: Transfer) {
    && t.events != []
    && if !enabled then t.err == Some(Plain("durable persistence is unavailable")) && t.log == []
       else if t.err.Some? && Unwritten(t.err.value) then
         |t.log| == 1 && t.log[0].Missed? && t.log[0].body.Encoded? && t.log[0].body.payload.events == t.events
       else
         t.log == [] && (t.err.None? || (t.err.value.Durable? && Unsynced(t.err.value.cause)))
  }

  /** The fate of a transferred chunk, by its error. */
  lemma TransferredFate(enabled: bool, t: Transfer)
    requires Transferred(enabled, t)
    ensures FateOfPut(t.err) == Lost <==> !enabled || (t.err.Some? && Unwritten(t.err.value))
    ensures FateOfPut(t.err) != Sent
  {
    if enabled && t.err.Some? && FileFailure(t.err.value) { FileFailureFacts(t.err.value); }
  }

  /** The events, the fates and the entries of a sequence of transfers, and the cause remembered
      after them. */
  function EventsMoved(moved: seq<Transfer>): seq<Event> {
    if moved == [] then [] else EventsMoved(moved[..|moved| - 1]) + moved[|moved| - 1].events
  }

  function FatesMoved(moved: seq<Transfer>): seq<Fate> {
    if moved == [] then []
    else FatesMoved(moved[..|moved| - 1]) + Repeat(FateOfPut(moved[|moved| - 1].err), |moved[|moved| - 1].events|)
  }

  function LogMoved(moved: seq<Transfer>): seq<Step> {
    if moved == [] then [] else LogMoved(moved[..|moved| - 1]) + moved[|moved| - 1].log
  }

  function CauseMoved(moved: seq<Transfer>, before: Option<Error>): Option<Error> {
    if moved == [] then before
    else
      var n := |moved| - 1;
      if moved[n].err.Some? then moved[n].err else CauseMoved(moved[..n], before)
  }

  lemma OneMoreTransfer(moved: seq<Transfer>, t: Transfer, before: Option<Error>)
    ensures EventsMoved(moved + [t]) == EventsMoved(moved) + t.events
    ensures FatesMoved(moved + [t]) == FatesMoved(moved) + Repeat(FateOfPut(t.err), |t.events|)
    ensures LogMoved(moved + [t]) == LogMoved(moved) + t.log
    ensures CauseMoved(moved + [t], before) == if t.err.Some? then t.err else CauseMoved(moved, before)
  {
    assert (moved + [t])[..|moved + [t]| - 1] == moved;
  }

  lemma NoTransfer(before: Option<Error>)
    ensures EventsMoved([]) == [] && FatesMoved([]) == [] && LogMoved([]) == [] && CauseMoved([], before) == before
  {
  }

  /** Without a WAL a chunk is lost. */
  lemma NoDurability()
    ensures FateOfPut(Some(Plain("durable persistence is unavailable"))) == Lost
  {
  }

  /** Chunks of flushSize events were handed over; only when nothing waits may the last be smaller. */
  ghost predicate MovedInChunks(enabled: bool, flushSize: int, moved: seq<Transfer>, waiting: bool) {
    forall i :: 0 <= i < |moved| ==>
      && Transferred(enabled, moved[i])
      && (|moved[i].events| == flushSize || (i == |moved| - 1 && !waiting && |moved[i].events| < flushSize))
  }

  lemma NothingMoved(enabled: bool, flushSize: int, waiting: bool)
    ensures MovedInChunks(enabled, flushSize, [], waiting)
  {
  }

  lemma OneMoreMoved(enabled: bool, flushSize: int, moved: seq<Transfer>, t: Transfer, waiting: bool)
    requires MovedInChunks(enabled, flushSize, moved, true) && Transferred(enabled, t)
    requires |t.events| == flushSize || (!waiting && |t.events| < flushSize)
    ensures MovedInChunks(enabled, flushSize, moved + [t], waiting)
  {
    hide Transferred;
  }

  lemma FewerMoved(enabled: bool, flushSize: int, moved: seq<Transfer>, waiting: bool)
    requires MovedInChunks(enabled, flushSize, moved, waiting) && moved != []
    ensures MovedInChunks(enabled, flushSize, moved[..|moved| - 1], true) && Transferred(enabled, moved[|moved| - 1])
  {
    hide Transferred;
  }

  /** What a hand-over makes of these events: none is sent and nothing is posted, and lost are
      exactly those of the batches whose own write failed (all of them if there is no WAL). */
  ghost predicate HandedIn(enabled: bool, events: seq<Event>, fates: seq<Fate>, log: seq<Step>) {
    && |events| == |fates| && Unsent(fates)
    && (forall i :: 0 <= i < |log| ==> log[i].Missed?)
    && Select(events, fates, Lost) == (if enabled then Missing(log) else events)
    && (!enabled ==> log == [])
  }

  lemma HandedInTwice(enabled: bool, e: seq<Event>, f: seq<Fate>, l: seq<Step>, d: seq<Event>, g: seq<Fate>,
                      m: seq<Step>)
    requires HandedIn(enabled, e, f, l) && HandedIn(enabled, d, g, m)
    ensures HandedIn(enabled, e + d, f + g, l + m)
  {
    hide Select, Missing;
    SelectJoins(e, f, d, g, Lost);
    MissingJoins(l, m);
  }

  lemma TransferIsHandedIn(enabled: bool, t: Transfer)
    requires Transferred(enabled, t)
    ensures HandedIn(enabled, t.events, Repeat(FateOfPut(t.err), |t.events|), t.log)
  {
    hide Select, FateOfPut;
    TransferredFate(enabled, t);
    SelectRepeated(t.events, FateOfPut(t.err), Lost);
    if t.log != [] {
      assert t.log[..0] == [] && Missing(t.log[..0]) == [];
      assert Missing(t.log) == Missing(t.log[..0]) + t.events;
    }
  }

  /** A hand-over in chunks, as a whole. */
  lemma {:induction false} HandOverAccounts(enabled: bool, flushSize: int, moved: seq<Transfer>, waiting: bool)
    requires MovedInChunks(enabled, flushSize, moved, waiting)
    ensures HandedIn(enabled, EventsMoved(moved), FatesMoved(moved), LogMoved(moved))
    decreases |moved|
  {
    hide MovedInChunks, Transferred, FateOfPut;
    if moved != [] {
      var n := |moved| - 1;
      var last := moved[n];
      FewerMoved(enabled, flushSize, moved, waiting);
      HandOverAccounts(enabled, flushSize, moved[..n], true);
      TransferIsHandedIn(enabled, last);
      HandedInTwice(enabled, EventsMoved(moved[..n]), FatesMoved(moved[..n]), LogMoved(moved[..n]), last.events,
                    Repeat(FateOfPut(last.err), |last.events|), last.log);
    }
  }

  lemma TransferIsJustified(enabled: bool, t: Transfer, before: seq<Step>)
    requires Transferred(enabled, t)
    ensures Justified(enabled, true, t.events, Repeat(FateOfPut(t.err), |t.events|), before + t.log)
  {
    hide AcceptedIn, RejectedIn, PostedIn, MissedIn, FateOfPut;
    TransferredFate(enabled, t);
    if enabled && FateOfPut(t.err) == Lost {
      forall i | 0 <= i < |t.events| ensures MissedIn(before + t.log, t.events[i]) {
        OneMissed(t.events, t.log, i);
        MissedStays(before, t.log, t.events[i]);
      }
    }
  }

  lemma OneMissed(events: seq<Event>, log: seq<Step>, i: nat)
    requires |log| == 1 && log[0].Missed? && log[0].body.Encoded? && log[0].body.payload.events == events
    requires i < |events|
    ensures MissedIn(log, events[i])
  {
    assert log[0].body.payload.events[i] == events[i];
  }

  lemma StoredIsTransferred(refusal: Option<Error>, before: seq<Record>, after: seq<Record>, payload: BatchPayload,
                            err: Option<Error>)
    requires Stored(refusal, before, after, RecordOf(payload), err) && refusal.None? && payload.events != []
    ensures Transferred(true, Transfer(payload.events, err, Misses(Encoded(payload), err)))
  {
    if err.Some? && FileFailure(err.value) { FileFailureFacts(err.value); }
  }

  /** What was documented stays so at the hand-over. */
  lemma HandingOverDocumented(enabled: bool, settled: seq<Event>, fates: seq<Fate>, outcomes: seq<Fate>, log: seq<Step>)
    requires Documented(enabled, false, settled, fates, outcomes, log)
    ensures Documented(enabled, true, settled, fates, outcomes, log)
  {
    hide Justified, Attested, Select;
    JustifiedLengths(enabled, false, settled, fates, log);
    JustifiedAtHandOver(enabled, settled, fates, log);
  }

  lemma NothingWorked(v: View)
    requires AllValid(v.wal)
    ensures Works(v, v, [], [])
  {
  }

  /** Works does not look at where the unsettled events wait. */
  lemma WorkedSinceDrain(v: View, w: View, e: seq<Event>, f: seq<Fate>)
    requires Works(Drained(v), w, e, f) || Works(Drained(v).(handedOver := true), w, e, f)
    ensures Works(v, w, e, f)
  {
  }

  /** After shutdown nothing is waiting, and the counters account for every event: delivered,
      lost, or in the WAL for a restart. */
  lemma NothingLeft(v: View, flushSize: int, limit: int)
    requires Sound(v, flushSize, limit)
    ensures v.tally.unsent == |v.channel| + |v.pending| + |v.inHand|
    ensures v.channel == [] && v.pending == [] && v.inHand == [] ==>
      v.settled == v.accepted && v.tally.enqueued == |v.accepted|
      && |v.accepted| == v.tally.delivered + v.tally.durableCurrent + (v.tally.failed - v.tally.recoveryFailed)
    ensures v.channel == [] && v.pending == [] && v.inHand == [] && v.tally.failed == 0 && Total(v.wal) == 0 ==>
      v.tally.delivered == v.tally.enqueued == |v.accepted|
  {
  }

  lemma CountsAreNatural(v: View, flushSize: int, limit: int)
    requires Sound(v, flushSize, limit)
    ensures v.tally.failed >= 0 && v.tally.rejected >= 0 && Total(v.wal) >= 0
  {
  }

  /** The count a shutdown deadline reports never needs its clamp and is exact: the events
      still in the WAL, of earlier processes or this one, and those awaiting an outcome. */
  lemma DeadlineCountIsExact(v: View, flushSize: int, limit: int)
    requires Sound(v, flushSize, limit)
    ensures v.tally.enqueued - v.tally.delivered - (v.tally.failed - v.tally.recoveryFailed)
      == v.tally.unsent + v.tally.durableCurrent >= 0
    ensures v.tally.recoveryOwned + v.tally.unsent + v.tally.durableCurrent
      == Total(v.wal) + |v.channel| + |v.pending| + |v.inHand|
  {
  }

  // ---- The turns of the loop ----

  /** What one turn of the loop did: the pass its cycle opened with, the chunks it sent and, at a
      hand-over, the chunks it moved into the WAL. */
  datatype Work = Work(pass: Option<Pass>, runs: seq<Delivery>, moved: seq<Transfer>)

  const NO_WORK := Work(None, [], [])

  /** The entries it made in the journal, in order. */
  function EntriesOf(work: Work): seq<Step> {
    (if work.pass.Some? then work.pass.value.posts else []) + LogIn(work.runs) + LogMoved(work.moved)
  }

  /** The cause remembered after a pass. */
  function CauseOfPass(pass: Pass, before: Option<Error>): Option<Error> {
    if pass.reported.Some? then pass.reported else if pass.blocked.Some? then pass.blocked else before
  }

  /** The cause remembered after a turn of the loop: the last error it met. */
  function CauseOfWork(work: Work, before: Option<Error>): Option<Error> {
    var opening := if work.pass.Some? then CauseOfPass(work.pass.value, before) else before;
    CauseMoved(work.moved, CauseIn(work.runs, opening))
  }

  /** A flush or a tick: unless recovery is blocked everything accepted before it is sent in
      chunks of flushSize, and the first error is returned after every chunk has had its turn. */
  ghost predicate Cycled(line: Line, flushSize: int, v: View, w: View, err: Option<Error>, work: Work) {
    && work.pass.Some? && Opens(line, v, work.pass.value) && work.moved == []
    && var p := work.pass.value;
       if p.blocked.Some? then err == p.blocked && w == p.ready && w.settled == v.settled && work.runs == []
       else
         && w.pending == [] && v.accepted <= w.settled
         && w.settled == v.settled + EventsIn(work.runs) && w.fates == v.fates + FatesIn(work.runs)
         && SentInChunks(line, flushSize, work.runs, false)
         && err == (if p.reported.Some? then p.reported else FirstErrorIn(work.runs))
  }

  /** The oldest event came off the channel. If it filled a chunk, exactly flushSize events were
      sent, unless recovery was blocked. */
  ghost predicate Took(line: Line, flushSize: nat, v: View, w: View, work: Work)
    requires v.channel != []
  {
    var waiting := v.pending + [v.channel[0]];
    && work.moved == []
    && (work.pass.Some? <==> |waiting| >= flushSize)
    && (work.pass.Some? ==> Opens(line, Received(v), work.pass.value))
    && if work.pass.Some? && work.pass.value.blocked.None? then
         && |work.runs| == 1 && Performed(line, work.runs[0]) && work.runs[0].tree.events == waiting[..flushSize]
         && w.pending == waiting[flushSize..] && w.settled == v.settled + waiting[..flushSize]
         && w.fates == v.fates + Fates(work.runs[0].tree)
         && w.handed == v.handed + [Handout(waiting[..flushSize], SizeReached, 0)]
       else
         && work.runs == [] && w.pending == waiting && w.settled == v.settled && w.fates == v.fates
         && w.handed == v.handed
  }

  /** The stop was taken: everything left is sent in chunks, or handed over to the WAL when
      recovery is blocked. */
  ghost predicate Finished(line: Line, flushSize: int, v: View, w: View, work: Work) {
    && work.pass.Some? && Opens(line, v, work.pass.value)
    && w.channel == [] && w.pending == [] && w.settled == w.accepted == v.accepted
    && var p := work.pass.value;
       if p.blocked.None? then
         !w.handedOver && work.moved == []
         && Draining(line, flushSize, Drained(p.ready), w, work.runs)
       else
         w.handedOver && line.enabled && work.runs == [] && p.ready.wal <= w.wal
         && EventsMoved(work.moved) == p.ready.pending + p.ready.channel
         && Works(p.ready, w, EventsMoved(work.moved), FatesMoved(work.moved))
         && MovedInChunks(true, flushSize, work.moved, false)
         && HandedIn(true, EventsMoved(work.moved), FatesMoved(work.moved), LogMoved(work.moved))
  }

  /** What a blocked cycle and an idle turn enter and remember. */
  lemma EntriesOfPass(pass: Pass, log: seq<Step>, cause: Option<Error>)
    ensures EntriesOf(NO_WORK) == [] && log + [] == log && CauseOfWork(NO_WORK, cause) == cause
    ensures EntriesOf(Work(Some(pass), [], [])) == pass.posts
    ensures CauseOfWork(Work(Some(pass), [], []), cause) == CauseOfPass(pass, cause)
  {
    assert [] + [] + LogMoved([]) == [];
    assert pass.posts + LogIn([]) + LogMoved([]) == pass.posts;
  }

  lemma EntriesOfCycle(pass: Pass, runs: seq<Delivery>, log: seq<Step>, cause: Option<Error>)
    ensures log + EntriesOf(Work(Some(pass), runs, [])) == log + pass.posts + LogIn(runs)
    ensures CauseOfWork(Work(Some(pass), runs, []), cause) == CauseIn(runs, CauseOfPass(pass, cause))
  {
    hide LogIn, CauseIn, CauseOfPass;
    ConcatAssociates(log, pass.posts, LogIn(runs));
    assert pass.posts + LogIn(runs) + LogMoved([]) == pass.posts + LogIn(runs);
  }

  lemma EntriesOfHandOver(pass: Pass, moved: seq<Transfer>, log: seq<Step>, cause: Option<Error>)
    ensures log + EntriesOf(Work(Some(pass), [], moved)) == log + pass.posts + LogMoved(moved)
    ensures CauseOfWork(Work(Some(pass), [], moved), cause) == CauseMoved(moved, CauseOfPass(pass, cause))
  {
    hide LogMoved, CauseMoved, CauseOfPass;
    ConcatAssociates(log, pass.posts, LogMoved(moved));
    assert pass.posts + LogIn([]) == pass.posts;
  }

  /** A pass that got through on accepted posts alone loses nothing. */
  lemma AcceptedPass(line: Line, v: View, p: Pass)
    requires Opens(line, v, p) && p.blocked.None? && JudgedWire({}, p.posts)
    ensures p.reported.None? && p.ready.tally.failed == v.tally.failed
    ensures p.ready.tally.recoveryFailed == v.tally.recoveryFailed && p.ready.tally.rejected == v.tally.rejected
    ensures p.ready.fates == v.fates && p.ready.wal == []
  {
    hide Recovered, RightAnswer;
    RecoveryReports(p.begun.wal, p.ready.wal, p.marks, p.begun.tally, p.ready.tally, p.posts, p.reported);
    PassLosesSpoiledRecords(p.begun.wal, p.ready.wal, p.marks, p.begun.tally, p.ready.tally, p.posts, p.reported,
                            {});
    NothingSpoiled(p.begun.wal[..|p.marks|]);
  }

  /** A drain at stop that found the WAL empty and was accepted throughout. */
  lemma AcceptedFinish(line: Line, flushSize: int, v: View, w: View, runs: seq<Delivery>)
    requires Draining(line, flushSize, v, w, runs) && w.pending == [] && v.wal == []
    requires JudgedWire({}, LogIn(runs)) && (line.enabled ==> AllUnhindered(runs))
    ensures Flawless(v, w) && w.tally.rejected == v.tally.rejected
  {
    hide JudgedWire, AllUnhindered, LogIn, EventsIn, FatesIn, SentInChunks, Flawless;
    DrainedAll(line, flushSize, v, w, runs);
  }

  /** A shutdown that recovery does not block, against an endpoint that accepts every post and
      with no write of the WAL failing, delivers everything: no event is lost by it and the WAL is
      empty. If none was lost or refused earlier either, Shutdown returns nil (see WaitDone). */
  lemma CleanShutdown(line: Line, flushSize: int, limit: int, v: View, w: View, work: Work)
    requires Sound(v, flushSize, limit) && Sound(w, flushSize, limit) && w.inHand == []
    requires Finished(line, flushSize, v, w, work) && work.pass.value.blocked.None?
    requires JudgedWire({}, EntriesOf(work)) && (line.enabled ==> AllUnhindered(work.runs))
    ensures w.wal == [] && w.tally.failed == v.tally.failed && w.tally.rejected == v.tally.rejected
    ensures v.fates <= w.fates && forall i :: |v.fates| <= i < |w.fates| ==> w.fates[i] == Sent
    ensures w.tally.failed == 0 ==> w.tally.delivered == w.tally.enqueued == |w.accepted|
  {
    hide Sound, Opens, JudgedWire, AllUnhindered, LogIn, Draining;
    var p := work.pass.value;
    JudgedInParts({}, p.posts + LogIn(work.runs), LogMoved(work.moved));
    JudgedInParts({}, p.posts, LogIn(work.runs));
    AcceptedPass(line, v, p);
    AcceptedFinish(line, flushSize, Drained(p.ready), w, work.runs);
    NothingLeft(w, flushSize, limit);
  }

  // ---- What a flush does not say ----

  /** One batch of one event, posted once and answered at once. */
  function OnePayload(e: Event, id: string): BatchPayload {
    BatchPayload(id, 0, [e])
  }

  function OnePost(ctx: Context, e: Event, id: string, status: int): seq<Step> {
    [Posted(Encoded(OnePayload(e, id)), Reply(status, None), ctx)]
  }

  lemma OneAnswerRuns(e: Event, answer: Option<Error>, posts: seq<Step>, line: Line)
    requires Backed(line, [e], answer, posts) && (line.enabled ==> Unrefused(answer))
    ensures Performed(line, Delivery(Leaf([e], answer), posts)) && Fates(Leaf([e], answer)) == [FateOf(answer)]
  {
    hide Backed, Unrefused, Ran, Performed;
    RanOnce([e], MAX_SPLIT_SENDS, answer, None, posts, line);
    RanPerforms(Leaf([e], answer), [e], MAX_SPLIT_SENDS - 1, answer, None, if answer.Some? then answer else None, posts,
                line);
  }

  lemma RejectionBacks(e: Event, id: string, line: Line)
    ensures var answer := PostError(Reply(400, None));
      Backed(line, [e], answer, OnePost(line.ctx, e, id, 400)) && Unrefused(answer) && FateOf(answer) == Lost
    ensures !AcceptedIn(OnePost(line.ctx, e, id, 400), e)
  {
  }

  /** A tick over an empty WAL with one event queued. */
  lemma OneChunkCycle(flushSize: int, w: View, e: Event, d: Delivery, line: Line)
    requires flushSize >= 1 && line.ctx.Background? && Performed(line, d) && d.tree.events == [e]
    requires w.pending == [] && w.settled == [e] && w.fates == Fates(d.tree)
    ensures Cycled(line, flushSize, OneAdmitted(e), w, FirstError(d.tree),
                   Work(Some(IdlePass(OneAdmitted(e))), [d], []))
  {
    hide Performed, Opens, FirstError;
    IdlePassOpens(line, OneAdmitted(e));
    OneRun(d);
    assert [d][..0] == [] && [] + w.settled == w.settled && [] + w.fates == w.fates;
  }

  /** A flush with nothing to do. */
  lemma IdleCycle(flushSize: int, v: View, line: Line)
    requires v.wal == [] && Coupled(v.tally, 0) && v.pending == [] && v.accepted == v.settled
    requires |v.fates| == |v.settled|
    ensures Cycled(line, flushSize, v, v, None, Work(Some(IdlePass(v)), [], [])) && Flushed(v, v)
  {
    hide Opens;
    IdlePassOpens(line, v);
    NoRuns();
    assert v.settled + [] == v.settled && v.fates + [] == v.fates;
  }

  /** The run that belies the documentation, for any configuration: a process starts, one event
      is admitted, a tick sends it alone and the endpoint answers 400; then a flush finds the WAL
      empty and nothing to send, and replies nil. The event was enqueued before and was never
      accepted. */
  lemma FlushIsSilentOnEarlierLoss(line: Line, ctx: Context, e: Event, id: string, flushSize: int, limit: int)
    requires 1 <= flushSize <= limit && line.ctx.Background?
    ensures Sound(StartView(), flushSize, limit) && Sound(OneInHand(e), flushSize, limit)
    ensures Sound(OneLost(e), flushSize, limit)
    ensures var answer, w := PostError(Reply(400, None)), OneLost(e);
      var first := Work(Some(IdlePass(OneAdmitted(e))), [Delivery(Leaf([e], answer), OnePost(line.ctx, e, id, 400))],
                        []);
      && Cycled(line, flushSize, OneAdmitted(e), w, answer, first)
      && Drained(w) == w && Cycled(line.(ctx := ctx), flushSize, w, w, None, Work(Some(IdlePass(w)), [], []))
    ensures OneLost(e).accepted == [e] && !AcceptedIn(OnePost(line.ctx, e, id, 400), e)
  {
    hide Sound, Performed, Cycled, Backed, OneInHand, OneLost, AcceptedIn;
    OneInHandIsSound(e, flushSize, limit);
    OneLostIsSound(e, flushSize, limit);
    OneInHandIs(e);
    RejectionBacks(e, id, line);
    var answer := PostError(Reply(400, None));
    OneAnswerRuns(e, answer, OnePost(line.ctx, e, id, 400), line);
    OneChunkCycle(flushSize, OneLost(e), e, Delivery(Leaf([e], answer), OnePost(line.ctx, e, id, 400)), line);
    IdleCycle(flushSize, OneLost(e), line.(ctx := ctx));
  }

  /** The event accepted, but its record not taken out of the WAL: the write failed before its
      commit point. */
  function StillThere(): Error {
    Durable(Mutation(false, Plain("write failed")))
  }

  function OneKept(e: Event, id: string): View {
    SettledAs(OneInHand(e), [e], [], Kept, [RecordOf(OnePayload(e, id))])
  }

  /** The WAL holds one record of one event, retained by this process. The next pass sends it
      again, and the endpoint, which has the batch, answers 409. */
  predicate OneRetained(v: View, r: Record) {
    && v.wal == [r] && ValidRecord(r) && r.eventCount == 1 && r.pausedUntilMS == 0
    && v.tally.recoveryOwned == 0 && v.tally.durableCurrent == 1 && !v.handedOver
  }

  function AfterConflict(v: View): View {
    v.(wal := [], tally := Resolved(v.tally, 1, 1), outcomes := v.outcomes + [Lost])
  }

  function ConflictPass(v: View, r: Record): Pass {
    Pass(v, AfterConflict(v), [Turn(0, 0, r, [Reply(409, None)], [], 0, PostError(Reply(409, None)))], [true],
         [Posted(r.body, Reply(409, None), Background)],
         Some(Recovery(1, false, Joined(Status(409), Terminal(409)), true)), None)
  }

  lemma OneRetainedIs(e: Event, id: string)
    requires id != ""
    ensures var v := OneKept(e, id);
      && OneRetained(v, RecordOf(OnePayload(e, id))) && v.wal == [RecordOf(OnePayload(e, id))]
      && v.channel == [] && v.pending == [] && v.accepted == v.settled == [e] && v.fates == [Kept] && v.outcomes == []
      && v.tally.failed == v.tally.recoveryFailed == 0
  {
    hide OneKept;
    OneKeptIs(e, id);
    OneRecordFollows(e, id);
  }

  lemma OneKeptIs(e: Event, id: string)
    ensures var v := OneKept(e, id);
      && v.channel == [] && v.pending == [] && v.inHand == [] && v.accepted == v.settled == [e] && v.fates == [Kept]
      && v.outcomes == [] && v.wal == [RecordOf(OnePayload(e, id))] && !v.handedOver
      && v.tally == NoTally().(enqueued := 1, durableCurrent := 1)
  {
    hide OneInHand, RecordOf, OnePayload, SettledAs;
    OneInHandIs(e);
    SettlingOneKept(OneInHand(e), e, [RecordOf(OnePayload(e, id))]);
  }

  lemma SettlingOneKept(v: View, e: Event, wal: seq<Record>)
    requires v.settled == [] && v.fates == []
    ensures SettledAs(v, [e], [], Kept, wal) == v.(inHand := [], settled := [e], fates := [Kept], wal := wal,
      tally := v.tally.(unsent := v.tally.unsent - 1, durableCurrent := v.tally.durableCurrent + 1))
  {
    assert [] + [e] == [e] && [] + Repeat(Kept, 1) == [Kept];
  }

  lemma AcceptanceBacks(e: Event, id: string, line: Line)
    requires line.enabled && id != ""
    ensures var answer := Some(StillThere());
      Backed(line, [e], answer, OnePost(line.ctx, e, id, 200)) && Unrefused(answer) && FateOf(answer) == Kept
    ensures Dispatched(true, None, [], [RecordOf(OnePayload(e, id))], RecordOf(OnePayload(e, id)), [Reply(200, None)],
                       Some(StillThere()), 0)
    ensures AcceptedIn(OnePost(line.ctx, e, id, 200), e)
  {
    assert !IsDelivered(Plain("write failed")) && !IsDelivered(Mutation(false, Plain("write failed")));
    assert FindTerminal(Mutation(false, Plain("write failed"))).None?;
    assert FindRecovery(Mutation(false, Plain("write failed"))).None?;
    var post := OnePost(line.ctx, e, id, 200)[0];
    assert post.body.payload.events == [e] && e in post.body.payload.events;
  }

  lemma OneRecordFollows(e: Event, id: string)
    requires id != ""
    ensures ValidRecord(RecordOf(OnePayload(e, id))) && AllValid([RecordOf(OnePayload(e, id))])
    ensures WalFollows([], [RecordOf(OnePayload(e, id))], [e], Kept)
    ensures Total([RecordOf(OnePayload(e, id))]) == 1
  {
    var r := RecordOf(OnePayload(e, id));
    WalEventsOfOne(r);
    assert [r][1..] == [] && [] + [e] == [e];
  }

  lemma OneKeptIsSound(e: Event, id: string, flushSize: int, limit: int)
    requires 1 <= flushSize <= limit && id != ""
    ensures Sound(OneKept(e, id), flushSize, limit)
  {
    hide Sound, WalFollows, SettledAs, RecordOf, OnePayload, OneInHand, Advances;
    OneInHandIsSound(e, flushSize, limit);
    OneInHandIs(e);
    OneRecordFollows(e, id);
    assert [e] + [] == [e];
    SettlingIsSound(OneInHand(e), [e], [], Kept, [RecordOf(OnePayload(e, id))], flushSize, limit);
  }

  lemma ConflictRecovers(v: View, r: Record)
    requires OneRetained(v, r)
    ensures var p := ConflictPass(v, r);
      Recovered(v.wal, [], p.marks, v.tally, p.ready.tally, p.posts, p.reported)
  {
    hide WorkedOff, LostIn;
    var p := ConflictPass(v, r);
    OneRecordWorkedOff(Background, r, Reply(409, None), p.posts, v.tally);
    assert [r][..1] == [r] && [r][1..] == [];
  }

  lemma ConflictOutcomes(v: View, r: Record)
    requires OneRetained(v, r)
    ensures v.wal[..1] == v.wal && AllValid(v.wal) && MoreOutcomes(v, v.wal[..1], [true]) == v.outcomes + [Lost]
  {
    assert [r][..1] == [r] && [r][..0] == [] && [true][..0] == [];
    assert OutcomesOf([r], [true]) == OutcomesOf([], []) + Repeat(Lost, 1);
    assert [] + Repeat(Lost, 1) == [Lost];
  }

  lemma ConflictOpens(line: Line, v: View, r: Record, flushSize: int, limit: int)
    requires OneRetained(v, r) && Sound(v, flushSize, limit) && line.ctx.Background?
    ensures Opens(line, v, ConflictPass(v, r)) && Sound(AfterConflict(v), flushSize, limit)
  {
    hide Sound, Recovered, Advances, MoreOutcomes, Resolved, Opened, Course;
    var p := ConflictPass(v, r);
    ConflictRecovers(v, r);
    ConflictOutcomes(v, r);
    StandsStill(v);
    RecoveryIsSound(v, [], p.marks, p.ready.tally, p.posts, p.reported, flushSize, limit);
    OneRefusalCourse(line.ctx, line.maxRetries, r, 0, Reply(409, None));
    RecoveryOpens(line, p, p.reported, flushSize, limit);
  }

  lemma ConflictCycle(line: Line, v: View, r: Record, flushSize: int)
    requires line.ctx.Background? && Opens(line, v, ConflictPass(v, r))
    requires v.pending == [] && v.accepted == v.settled
    ensures Cycled(line, flushSize, v, AfterConflict(v), ConflictPass(v, r).reported,
                   Work(Some(ConflictPass(v, r)), [], []))
  {
    hide Opens, Resolved;
    NoRuns();
    assert v.settled + [] == v.settled && v.fates + [] == v.fates;
  }

  /** What a tick did that posted the event, got a 2xx and could not take its record out. */
  function StuckTick(line: Line, e: Event, id: string): Work {
    Work(Some(IdlePass(OneAdmitted(e))), [Delivery(Leaf([e], Some(StillThere())), OnePost(line.ctx, e, id, 200))], [])
  }

  lemma StuckTickRetains(line: Line, e: Event, id: string, flushSize: int)
    requires flushSize >= 1 && line.ctx.Background? && line.enabled && id != ""
    ensures Cycled(line, flushSize, OneAdmitted(e), OneKept(e, id), Some(StillThere()), StuckTick(line, e, id))
    ensures AcceptedIn(EntriesOf(StuckTick(line, e, id)), e)
  {
    hide Sound, Performed, Backed, OneInHand, OneKept, AcceptedIn, Opens, Cycled, StillThere, OnePost;
    var answer := Some(StillThere());
    OneKeptIs(e, id);
    AcceptanceBacks(e, id, line);
    OneAnswerRuns(e, answer, OnePost(line.ctx, e, id, 200), line);
    OneChunkCycle(flushSize, OneKept(e, id), e, Delivery(Leaf([e], answer), OnePost(line.ctx, e, id, 200)), line);
    OneRun(Delivery(Leaf([e], answer), OnePost(line.ctx, e, id, 200)));
    assert [] + OnePost(line.ctx, e, id, 200) + [] == OnePost(line.ctx, e, id, 200);
  }

  /** Two cycles from a view with one record left: the conflict, and a flush with nothing to do. */
  lemma ConflictThenFlush(line: Line, ctx: Context, v: View, r: Record, flushSize: int, limit: int)
    requires line.ctx.Background? && OneRetained(v, r) && Sound(v, flushSize, limit)
    requires v.channel == [] && v.pending == [] && v.accepted == v.settled && |v.fates| == |v.settled|
    ensures var w := AfterConflict(v);
      && Sound(w, flushSize, limit)
      && Cycled(line, flushSize, v, w, ConflictPass(v, r).reported, Work(Some(ConflictPass(v, r)), [], []))
      && Drained(w) == w && Cycled(line.(ctx := ctx), flushSize, w, w, None, Work(Some(IdlePass(w)), [], []))
      && Flushed(w, w) && w.tally.failed == v.tally.failed + 1 && w.tally.recoveryFailed == v.tally.recoveryFailed
      && w.settled == v.settled && w.fates == v.fates && w.outcomes == v.outcomes + [Lost]
  {
    hide Sound, Opens, Cycled, Flushed;
    ConflictOpens(line, v, r, flushSize, limit);
    ConflictCycle(line, v, r, flushSize);
    DrainedTwice(AfterConflict(v));
    IdleCycle(flushSize, AfterConflict(v), line.(ctx := ctx));
  }

  /** Why the promise is no equivalence: an event may be accepted and still be counted as lost. A
      tick posts it and gets a 2xx, but the record cannot be taken out of the WAL; the next tick
      posts it again and gets 409, which counts it as lost and leaves the WAL empty; a flush after
      that replies nil. This process has a loss on its count, and the event was accepted. */
  lemma AcceptedThoughCountedLost(line: Line, ctx: Context, e: Event, id: string, flushSize: int, limit: int)
    requires 1 <= flushSize <= limit && line.ctx.Background? && line.enabled && id != ""
    ensures var v, w, r := OneKept(e, id), AfterConflict(OneKept(e, id)), RecordOf(OnePayload(e, id));
      && Sound(v, flushSize, limit) && Sound(w, flushSize, limit)
      && Dispatched(true, None, [], v.wal, r, [Reply(200, None)], Some(StillThere()), 0)
      && Cycled(line, flushSize, OneAdmitted(e), v, Some(StillThere()), StuckTick(line, e, id))
      && Cycled(line, flushSize, v, w, ConflictPass(v, r).reported, Work(Some(ConflictPass(v, r)), [], []))
      && Drained(w) == w && Cycled(line.(ctx := ctx), flushSize, w, w, None, Work(Some(IdlePass(w)), [], []))
      && Flushed(w, w) && w.tally.failed - w.tally.recoveryFailed == 1
      && w.settled == [e] && w.fates == [Kept] && w.outcomes == [Lost]
    ensures AcceptedIn(EntriesOf(StuckTick(line, e, id)), e)
  {
    hide *;
    OneRetainedIs(e, id);
    OneKeptIsSound(e, id, flushSize, limit);
    AcceptanceBacks(e, id, line);
    StuckTickRetains(line, e, id, flushSize);
    ConflictThenFlush(line, ctx, OneKept(e, id), RecordOf(OnePayload(e, id)), flushSize, limit);
  }
}
