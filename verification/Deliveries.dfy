/** How a run of deliver shows on the wire: which posts carried which events, what the
    endpoint answered, and which cause is remembered. */
module Deliveries {
  import opened Sequences
  import opened Outcomes
  import opened Records
  import opened WriteAhead
  import opened Splitting
  import opened Tallies
  import opened Transports

  /** Some post carried this event and the endpoint accepted it. */
  ghost predicate AcceptedIn(posts: seq<Step>, e: Event) {
    exists j :: 0 <= j < |posts| && posts[j].Posted? && Accepts(posts[j].reply)
                && posts[j].body.Encoded? && e in posts[j].body.payload.events
  }

  /** Some post carried this event, whatever the answer. */
  ghost predicate PostedIn(log: seq<Step>, e: Event) {
    exists j :: 0 <= j < |log| && log[j].Posted? && log[j].body.Encoded? && e in log[j].body.payload.events
  }

  /** A put of a batch with this event failed before its commit point. */
  ghost predicate MissedIn(log: seq<Step>, e: Event) {
    exists j :: 0 <= j < |log| && log[j].Missed? && log[j].body.Encoded? && e in log[j].body.payload.events
  }

  /** Some post carried this event and the endpoint rejected it for good. */
  ghost predicate RejectedIn(log: seq<Step>, e: Event) {
    exists j :: 0 <= j < |log| && log[j].Posted? && Rejects(log[j].reply)
                && log[j].body.Encoded? && e in log[j].body.payload.events
  }

  /** Why an event of this process may be lost: it was rejected for good, by itself or in a batch
      too large to be split further; its write-ahead failed; or there is no WAL, and it was posted
      in vain (or `over`: handed over at shutdown). */
  ghost predicate LossIsDue(enabled: bool, over: bool, log: seq<Step>, e: Event) {
    RejectedIn(log, e) || if enabled then MissedIn(log, e) else PostedIn(log, e) || over
  }

  /** Every one of these events met its fate for a reason the journal shows. */
  ghost predicate Justified(enabled: bool, over: bool, events: seq<Event>, fates: seq<Fate>, log: seq<Step>) {
    && |events| == |fates|
    && forall i :: 0 <= i < |events| ==>
         && (fates[i] == Sent ==> AcceptedIn(log, events[i]))
         && (fates[i] == Lost ==> LossIsDue(enabled, over, log, events[i]))
         && (fates[i] == Kept ==> enabled)
  }

  lemma AcceptedStays(posts: seq<Step>, more: seq<Step>, e: Event)
    requires AcceptedIn(posts, e) || AcceptedIn(more, e)
    ensures AcceptedIn(posts + more, e)
  {
    if AcceptedIn(posts, e) {
      var j :| 0 <= j < |posts| && posts[j].Posted? && Accepts(posts[j].reply)
               && posts[j].body.Encoded? && e in posts[j].body.payload.events;
      assert (posts + more)[j] == posts[j];
    } else {
      var j :| 0 <= j < |more| && more[j].Posted? && Accepts(more[j].reply)
               && more[j].body.Encoded? && e in more[j].body.payload.events;
      assert (posts + more)[|posts| + j] == more[j];
    }
  }

  lemma RejectedStays(posts: seq<Step>, more: seq<Step>, e: Event)
    requires RejectedIn(posts, e) || RejectedIn(more, e)
    ensures RejectedIn(posts + more, e)
  {
    if RejectedIn(posts, e) {
      var j :| 0 <= j < |posts| && posts[j].Posted? && Rejects(posts[j].reply)
               && posts[j].body.Encoded? && e in posts[j].body.payload.events;
      assert (posts + more)[j] == posts[j];
    } else {
      var j :| 0 <= j < |more| && more[j].Posted? && Rejects(more[j].reply)
               && more[j].body.Encoded? && e in more[j].body.payload.events;
      assert (posts + more)[|posts| + j] == more[j];
    }
  }

  lemma PostedStays(posts: seq<Step>, more: seq<Step>, e: Event)
    requires PostedIn(posts, e) || PostedIn(more, e)
    ensures PostedIn(posts + more, e)
  {
    if PostedIn(posts, e) {
      var j :| 0 <= j < |posts| && posts[j].Posted? && posts[j].body.Encoded? && e in posts[j].body.payload.events;
      assert (posts + more)[j] == posts[j];
    } else {
      var j :| 0 <= j < |more| && more[j].Posted? && more[j].body.Encoded? && e in more[j].body.payload.events;
      assert (posts + more)[|posts| + j] == more[j];
    }
  }

  lemma MissedStays(log: seq<Step>, more: seq<Step>, e: Event)
    requires MissedIn(log, e) || MissedIn(more, e)
    ensures MissedIn(log + more, e)
  {
    if MissedIn(log, e) {
      var j :| 0 <= j < |log| && log[j].Missed? && log[j].body.Encoded? && e in log[j].body.payload.events;
      assert (log + more)[j] == log[j];
    } else {
      var j :| 0 <= j < |more| && more[j].Missed? && more[j].body.Encoded? && e in more[j].body.payload.events;
      assert (log + more)[|log| + j] == more[j];
    }
  }

  lemma DueStays(enabled: bool, over: bool, log: seq<Step>, more: seq<Step>, e: Event)
    requires LossIsDue(enabled, over, log, e) || LossIsDue(enabled, over, more, e)
    ensures LossIsDue(enabled, over, log + more, e)
  {
    if RejectedIn(log, e) || RejectedIn(more, e) {
      RejectedStays(log, more, e);
    } else if enabled {
      MissedStays(log, more, e);
    } else if !over {
      PostedStays(log, more, e);
    }
  }

  lemma JustifiedStays(enabled: bool, over: bool, events: seq<Event>, fates: seq<Fate>, log: seq<Step>, more: seq<Step>)
    requires Justified(enabled, over, events, fates, log) || Justified(enabled, over, events, fates, more)
    ensures Justified(enabled, over, events, fates, log + more)
  {
    hide AcceptedIn, LossIsDue;
    forall i | 0 <= i < |events|
      ensures fates[i] == Sent ==> AcceptedIn(log + more, events[i])
      ensures fates[i] == Lost ==> LossIsDue(enabled, over, log + more, events[i])
    {
      if fates[i] == Sent { AcceptedStays(log, more, events[i]); }
      if fates[i] == Lost { DueStays(enabled, over, log, more, events[i]); }
    }
  }

  lemma JustifiedJoins(enabled: bool, over: bool, e: seq<Event>, f: seq<Fate>, d: seq<Event>, g: seq<Fate>,
                       log: seq<Step>)
    requires Justified(enabled, over, e, f, log) && Justified(enabled, over, d, g, log)
    ensures Justified(enabled, over, e + d, f + g, log)
  {
    hide AcceptedIn, LossIsDue;
  }

  /** At the hand-over of a shutdown what was justified stays so. */
  lemma JustifiedAtHandOver(enabled: bool, events: seq<Event>, fates: seq<Fate>, log: seq<Step>)
    requires Justified(enabled, false, events, fates, log)
    ensures Justified(enabled, true, events, fates, log)
  {
    hide AcceptedIn, RejectedIn, MissedIn, PostedIn;
  }

  /** With a WAL the hand-over is no reason for a loss. */
  lemma JustifiedWithWal(over: bool, events: seq<Event>, fates: seq<Fate>, log: seq<Step>)
    requires Justified(true, over, events, fates, log)
    ensures Justified(true, false, events, fates, log)
  {
    hide AcceptedIn, RejectedIn, MissedIn, PostedIn;
  }

  /** How a chunk is sent: with a WAL or without one, under a context, with so many retries. */
  datatype Line = Line(enabled: bool, ctx: Context, maxRetries: nat)

  /** No more posts than retries allow, and under a context that never ends no fewer unless the
      last answer was final. */
  ghost predicate Persevered(line: Line, posts: seq<Step>)
    requires posts != [] && posts[|posts| - 1].Posted?
  {
    && |posts| <= line.maxRetries + 1
    && (line.ctx.Background? && |posts| <= line.maxRetries ==> Final(posts[|posts| - 1].reply))
  }

  /** The error is the one the last answer leads to, bare or, with a WAL, as a durable one. */
  ghost predicate Tells(line: Line, posts: seq<Step>, answer: Option<Error>)
    requires posts != [] && posts[|posts| - 1].Posted?
  {
    var bare := Bare(line.enabled, answer);
    Concluded(posts[|posts| - 1].reply, bare, |posts| == line.maxRetries + 1,
              if bare.Some? && bare.value.RetryLater? then bare.value.untilMS else 0)
  }

  /** These are the entries of one batch of exactly these events, and the outcome is the one the
      last answer calls for. Without any post it is a write-ahead that failed, before its commit
      point and then remembered, or after it. */
  ghost predicate Backed(line: Line, events: seq<Event>, answer: Option<Error>, posts: seq<Step>) {
    && (forall i :: 0 <= i < |posts| ==>
          !posts[i].Moved? && posts[i].body.Encoded? && posts[i].body.payload.events == events)
    && (forall i :: 0 <= i < |posts| ==> posts[i].body == posts[0].body)
    && (if posts == [] then line.enabled && answer.Some? && answer.value.Durable? && FileFailure(answer.value.cause)
        else if posts[0].Missed? then |posts| == 1 && line.enabled && answer.Some? && FileFailure(answer.value)
        else
          && (forall i :: 0 <= i < |posts| ==> posts[i].Posted? && posts[i].ctx == line.ctx)
          && Persevered(line, posts) && Faithful(line.enabled, posts[|posts| - 1].reply, answer)
          && Tells(line, posts, answer))
    && (answer.Some? && IsDurable(answer.value) ==> line.enabled)
    && (FateOf(answer).Sent? ==>
          posts != [] && posts[|posts| - 1].Posted? && Accepts(posts[|posts| - 1].reply))
    && (answer.Some? && !IsDelivered(answer.value) && FindTerminal(answer.value).Some? ==>
          posts != [] && posts[|posts| - 1].Posted? && Rejects(posts[|posts| - 1].reply)
          && FindTerminal(answer.value) == Some(posts[|posts| - 1].reply.status) && !IsDurable(answer.value))
  }

  /** The entries of a whole run: each part that was sent made its own, left to right. */
  ghost predicate Told(line: Line, t: Split, posts: seq<Step>)
    decreases t
  {
    match t
    case Dropped(_) => posts == []
    case Leaf(events, answer) => Backed(line, events, answer, posts)
    case Halved(events, rejection, left, right) =>
      exists i, j :: 0 <= i <= j <= |posts| && Backed(line, events, Some(rejection), posts[..i])
                     && Told(line, left, posts[i..j]) && Told(line, right, posts[j..])
  }

  lemma ToldByOne(line: Line, t: Split, posts: seq<Step>)
    requires Told(line, t, posts)
    ensures t.Dropped? ==> posts == []
    ensures t.Leaf? ==> Backed(line, t.events, t.answer, posts)
  {
    hide Backed;
  }

  /** The entries of a halved part: its own, those of the left half, those of the right one. */
  lemma ToldByHalves(line: Line, t: Split, posts: seq<Step>) returns (own: seq<Step>, lp: seq<Step>, rp: seq<Step>)
    requires t.Halved? && Told(line, t, posts)
    ensures posts == own + lp + rp
    ensures Backed(line, t.events, Some(t.rejection), own) && Told(line, t.left, lp) && Told(line, t.right, rp)
  {
    hide Backed;
    var i, j :| 0 <= i <= j <= |posts| && Backed(line, t.events, Some(t.rejection), posts[..i])
                && Told(line, t.left, posts[i..j]) && Told(line, t.right, posts[j..]);
    own, lp, rp := posts[..i], posts[i..j], posts[j..];
  }

  /** Each of these events was in a batch rejected for good. */
  ghost predicate AllRejected(log: seq<Step>, events: seq<Event>) {
    forall i :: 0 <= i < |events| ==> RejectedIn(log, events[i])
  }

  lemma AllRejectedStays(log: seq<Step>, more: seq<Step>, events: seq<Event>)
    requires AllRejected(log, events) || AllRejected(more, events)
    ensures AllRejected(log + more, events)
  {
    hide RejectedIn;
    forall i | 0 <= i < |events| ensures RejectedIn(log + more, events[i]) {
      RejectedStays(log, more, events[i]);
    }
  }

  /** Whatever the endpoint answers, a run delivers only what some accepted batch carried and
      loses only what was rejected for good, missed its write-ahead, or was posted in vain
      without a WAL. Parts dropped for want of sends were rejected with the batch they are from,
      in `before` if the whole run is such a part. */
  lemma {:induction false} RunIsJustified(line: Line, t: Split, budget: nat, before: seq<Step>, posts: seq<Step>)
    requires RunOf(t, budget) && Told(line, t, posts)
    requires budget > 0 || AllRejected(before, t.events)
    ensures Justified(line.enabled, false, t.events, Fates(t), before + posts)
  {
    hide Justified, Backed, AllRejected, Told;
    match t
    case Dropped(events) =>
      ToldByOne(line, t, posts);
      DroppedIsJustified(line.enabled, false, events, before);
      assert before + posts == before;
    case Leaf(events, answer) =>
      ToldByOne(line, t, posts);
      BackedJustifies(line, false, events, answer, posts);
      JustifiedStays(line.enabled, false, events, Fates(t), before, posts);
    case Halved(events, rejection, left, right) =>
      var own, lp, rp := ToldByHalves(line, t, posts);
      var log := before + own;
      BackedRejects(line, events, Some(rejection), own);
      AllRejectedStays(before, own, events);
      HalvesRejected(log, events, left.events, right.events);
      AllRejectedStays(log, lp, right.events);
      RunIsJustified(line, left, budget - 1, log, lp);
      RunIsJustified(line, right, budget - 1 - Sends(left), log + lp, rp);
      HalvesJustified(line.enabled, events, left, right, log + lp, rp);
      assert before + (own + lp + rp) == log + lp + rp;
  }

  lemma HalvesJustified(enabled: bool, events: seq<Event>, left: Split, right: Split, log: seq<Step>, more: seq<Step>)
    requires Justified(enabled, false, left.events, Fates(left), log)
    requires Justified(enabled, false, right.events, Fates(right), log + more)
    requires left.events == events[..|events| / 2] && right.events == events[|events| / 2..]
    ensures Justified(enabled, false, events, Fates(left) + Fates(right), log + more)
  {
    hide Justified, Fates;
    JustifiedStays(enabled, false, left.events, Fates(left), log, more);
    JustifiedJoins(enabled, false, left.events, Fates(left), right.events, Fates(right), log + more);
    assert events == left.events + right.events;
  }

  lemma HalvesRejected(log: seq<Step>, events: seq<Event>, left: seq<Event>, right: seq<Event>)
    requires AllRejected(log, events) && left == events[..|events| / 2] && right == events[|events| / 2..]
    ensures AllRejected(log, left) && AllRejected(log, right)
  {
    hide RejectedIn;
  }

  lemma DroppedIsJustified(enabled: bool, over: bool, events: seq<Event>, log: seq<Step>)
    requires AllRejected(log, events)
    ensures Justified(enabled, over, events, Repeat(Lost, |events|), log)
  {
    hide RejectedIn, MissedIn, PostedIn;
  }

  lemma BackedRejects(line: Line, events: seq<Event>, answer: Option<Error>, posts: seq<Step>)
    requires Backed(line, events, answer, posts) && Halves(events, answer)
    ensures AllRejected(posts, events)
  {
    var last := |posts| - 1;
    forall i | 0 <= i < |events| ensures RejectedIn(posts, events[i]) {
      assert posts[last].body.payload.events[i] == events[i];
    }
  }

  lemma BackedJustifies(line: Line, over: bool, events: seq<Event>, answer: Option<Error>, posts: seq<Step>)
    requires Backed(line, events, answer, posts)
    ensures Justified(line.enabled, over, events, Repeat(FateOf(answer), |events|), posts)
  {
    forall i | 0 <= i < |events|
      ensures FateOf(answer) == Sent ==> AcceptedIn(posts, events[i])
      ensures FateOf(answer) == Lost ==> LossIsDue(line.enabled, over, posts, events[i])
    {
      EntryJustifies(line, over, events, answer, posts, i);
    }
  }

  lemma EntryJustifies(line: Line, over: bool, events: seq<Event>, answer: Option<Error>, posts: seq<Step>, i: nat)
    requires Backed(line, events, answer, posts) && i < |events|
    ensures FateOf(answer) == Sent ==> AcceptedIn(posts, events[i])
    ensures FateOf(answer) == Lost ==> LossIsDue(line.enabled, over, posts, events[i])
  {
    if posts != [] {
      var last := |posts| - 1;
      assert posts[last].body.payload.events[i] == events[i];
    }
  }

  /** What send enters into the journal, read as backing of its outcome. */
  lemma DispatchedBacks(line: Line, before: seq<Record>, after: seq<Record>, payload: BatchPayload,
                        replies: seq<Reply>, err: Option<Error>, kept: int, clock: int)
    requires Dispatched(line.enabled, None, before, after, RecordOf(payload), replies, err, kept)
    requires Reported(line.enabled, line.maxRetries, replies, err, kept, clock)
    requires |replies| <= line.maxRetries + 1
    requires line.ctx.Background? && 1 <= |replies| <= line.maxRetries ==> Final(replies[|replies| - 1])
    ensures Backed(line, payload.events, err, SendLog(line.ctx, Encoded(payload), replies, err))
    ensures line.enabled ==> Unrefused(err)
  {
  }

  /** Of all answers a 400 alone makes deliver halve a batch, and only one of two events or more. */
  lemma HalvedOn400Alone(status: int, suggested: Option<int>, events: seq<Event>)
    ensures Halves(events, PostError(Reply(status, suggested))) <==> status == 400 && |events| >= 2
    ensures !Halves(events, PostError(NoReply))
  {
  }

  /** The same of a whole run: a part that was sent is halved if and only if it holds at least two
      events and its last answer was 400, unless the record could not be taken out of the WAL. */
  lemma HalvedOnItsOwn400(line: Line, t: Split, budget: nat, posts: seq<Step>)
    requires RunOf(t, budget) && Told(line, t, posts)
    ensures (t.Leaf? && posts != [] && posts[|posts| - 1].Posted? && posts[|posts| - 1].reply.Reply?
             && posts[|posts| - 1].reply.status == 400) ==>
      |t.events| == 1 || (line.enabled && t.answer.Some? && StillLogged(t.answer.value))
    ensures t.Halved? ==> |t.events| >= 2 && OwnAnswerIs(t.events, posts, 400)
  {
    if t.Halved? {
      var own, lp, rp := ToldByHalves(line, t, posts);
      var last := own[|own| - 1];
      assert posts[|own| - 1] == last;
    }
  }

  /** Some entry is a post of exactly these events with an answer of that status. */
  ghost predicate OwnAnswerIs(events: seq<Event>, posts: seq<Step>, status: int) {
    exists i :: 0 <= i < |posts| && posts[i].Posted? && posts[i].body.Encoded? && posts[i].body.payload.events == events
                && posts[i].reply.Reply? && posts[i].reply.status == status
  }

  // ---- Isolation, from the endpoint's answers to the fates ----

  /** The right answer to a batch: 400 if it holds a bad event, a 2xx if not. */
  predicate RightAnswer(bad: set<Event>, events: seq<Event>, reply: Reply) {
    if HasBad(events, bad) then reply.Reply? && reply.status == 400 else Accepts(reply)
  }

  /** Every one of these posts got the right answer. */
  ghost predicate JudgedWire(bad: set<Event>, posts: seq<Step>) {
    forall i :: 0 <= i < |posts| && posts[i].Posted? && posts[i].body.Encoded? ==>
      RightAnswer(bad, posts[i].body.payload.events, posts[i].reply)
  }

  lemma JudgedInParts(bad: set<Event>, posts: seq<Step>, more: seq<Step>)
    requires JudgedWire(bad, posts + more)
    ensures JudgedWire(bad, posts) && JudgedWire(bad, more)
  {
    hide RightAnswer;
    forall i | 0 <= i < |more| && more[i].Posted? && more[i].body.Encoded?
      ensures RightAnswer(bad, more[i].body.payload.events, more[i].reply)
    {
      assert (posts + more)[|posts| + i] == more[i];
    }
    forall i | 0 <= i < |posts| && posts[i].Posted? && posts[i].body.Encoded?
      ensures RightAnswer(bad, posts[i].body.payload.events, posts[i].reply)
    {
      assert (posts + more)[i] == posts[i];
    }
  }

  /** A write of the WAL that failed decided this outcome, not the endpoint. */
  predicate Hindered(answer: Option<Error>) {
    answer.Some? && (FileFailure(answer.value) || IsDurable(answer.value))
  }

  predicate Unhindered(t: Split) {
    match t
    case Dropped(_) => true
    case Leaf(_, answer) => !Hindered(answer)
    case Halved(_, _, left, right) => Unhindered(left) && Unhindered(right)
  }

  /** The outcome of a send whose posts were answered rightly. */
  lemma BackedIsJudged(line: Line, events: seq<Event>, answer: Option<Error>, posts: seq<Step>, bad: set<Event>)
    requires Backed(line, events, answer, posts) && JudgedWire(bad, posts)
    requires line.enabled ==> !Hindered(answer) || Halves(events, answer)
    ensures Judges(bad, events, answer)
  {
    if posts != [] {
      assert RightAnswer(bad, posts[|posts| - 1].body.payload.events, posts[|posts| - 1].reply);
    }
  }

  lemma {:induction false} JudgedOnTheWire(line: Line, t: Split, budget: nat, posts: seq<Step>, bad: set<Event>)
    requires RunOf(t, budget) && Told(line, t, posts) && JudgedWire(bad, posts)
    requires line.enabled ==> Unhindered(t)
    ensures Judged(t, bad)
  {
    hide Backed, Judges, JudgedWire, Hindered, Halves, Told;
    match t
    case Dropped(_) =>
    case Leaf(events, answer) =>
      ToldByOne(line, t, posts);
      BackedIsJudged(line, events, answer, posts, bad);
    case Halved(events, rejection, left, right) =>
      var own, lp, rp := ToldByHalves(line, t, posts);
      JudgedInParts(bad, own + lp, rp);
      JudgedInParts(bad, own, lp);
      BackedIsJudged(line, events, Some(rejection), own, bad);
      JudgedOnTheWire(line, left, budget - 1, lp, bad);
      JudgedOnTheWire(line, right, budget - 1 - Sends(left), rp, bad);
  }

  /** What a run that went on the wire makes of a chunk, for whatever events are bad: if every
      post got the right answer and no write of the WAL failed, a bad event is lost, and a good
      one delivered if and only if the sends up to it fit the budget. */
  ghost predicate Isolates(line: Line, t: Split, budget: nat, posts: seq<Step>) {
    forall bad :: JudgedWire(bad, posts) && (line.enabled ==> Unhindered(t)) ==>
      Separated(t.events, Fates(t), bad, budget)
  }

  lemma RunIsolates(line: Line, t: Split, budget: nat, posts: seq<Step>)
    requires RunOf(t, budget) && Told(line, t, posts)
    ensures Isolates(line, t, budget, posts)
  {
    hide RunOf, Told, JudgedWire, Separated, Judged;
    forall bad | JudgedWire(bad, posts) && (line.enabled ==> Unhindered(t)) ensures Separated(t.events, Fates(t), bad,
        budget) {
      JudgedOnTheWire(line, t, budget, posts, bad);
      RunSeparates(t, budget, bad);
    }
  }

  // ---- Recovered batches are never split ----

  /** Every final answer among these posts is the right one. */
  ghost predicate FinallyJudged(bad: set<Event>, posts: seq<Step>) {
    forall i :: 0 <= i < |posts| && posts[i].Posted? && posts[i].body.Encoded? && Final(posts[i].reply) ==>
      RightAnswer(bad, posts[i].body.payload.events, posts[i].reply)
  }

  /** The events of the records that hold a bad event. */
  function SpoiledIn(records: seq<Record>, bad: set<Event>): int
    requires AllValid(records)
  {
    if records == [] then 0
    else
      var n := |records| - 1;
      SpoiledIn(records[..n], bad) + if HasBad(records[n].body.payload.events, bad) then records[n].eventCount else 0
  }

  lemma {:induction false} NothingSpoiled(records: seq<Record>)
    requires AllValid(records)
    ensures SpoiledIn(records, {}) == 0
  {
    if records != [] {
      NothingSpoiled(records[..|records| - 1]);
      assert !HasBad(records[|records| - 1].body.payload.events, {});
    }
  }

  /** A pass over an endpoint that judges rightly loses a record it removes if and only if the
      record holds a bad event, and then whole: good events are lost with the bad one, however
      few sends their isolation would need. */
  lemma PassLosesSpoiledRecords(queue: seq<Record>, after: seq<Record>, marks: seq<bool>, t0: Tally, t1: Tally,
                                posts: seq<Step>, err: Option<Error>, bad: set<Event>)
    requires Recovered(queue, after, marks, t0, t1, posts, err) && AllValid(queue) && FinallyJudged(bad, posts)
    ensures forall i :: 0 <= i < |marks| ==> (marks[i] <==> HasBad(queue[i].body.payload.events, bad))
    ensures LostIn(queue[..|marks|], marks) == SpoiledIn(queue[..|marks|], bad)
    ensures t1.failed == t0.failed + SpoiledIn(queue[..|marks|], bad)
  {
    hide RightAnswer, SameButHeadPause, HasBad;
    forall i | 0 <= i < |marks| ensures marks[i] <==> HasBad(queue[i].body.payload.events, bad) {
      MarkIsVerdict(posts, queue[i], marks[i], bad);
    }
    LostIsSpoiled(queue[..|marks|], marks, bad);
  }

  /** One post of a record, answered 400. */
  function RejectedOnce(ctx: Context, record: Record): seq<Step> {
    [Posted(record.body, Reply(400, None), ctx)]
  }

  lemma PairNeedsThree(good: Event, spoilt: Event)
    requires good != spoilt
    ensures HasBad([good, spoilt], {spoilt}) && Need([good, spoilt], {spoilt}) == 3
  {
    var pair := [good, spoilt];
    assert pair[..1] == [good] && pair[1..] == [spoilt] && pair[1] in {spoilt};
  }

  lemma OneRecordWorkedOff(ctx: Context, record: Record, reply: Reply, posts: seq<Step>, t: Tally)
    requires ValidRecord(record) && posts == [Posted(record.body, reply, ctx)] && Rejects(reply)
    requires t.recoveryOwned == 0 && t.durableCurrent == record.eventCount
    ensures LostIn([record], [true]) == Total([record]) == record.eventCount
    ensures WorkedOff([record], [true], record.eventCount, t, Resolved(t, record.eventCount, record.eventCount), posts)
  {
    assert [record][..0] == [] && [record][..1] == [record] && [record][1..] == [] && [true][..0] == [];
    assert posts[0].Posted? && posts[0].body == record.body && Rejects(posts[0].reply);
  }

  /** A pass in which a good event is lost with a bad one although a split would need three sends:
      one retained record of the two, answered 400. */
  lemma GoodEventLostInRecovery(line: Line, record: Record, start: int, good: Event, spoilt: Event)
    requires ValidRecord(record) && !PauseRuns(record, start) && !Over(line.ctx, start)
    requires record.body.payload.events == [good, spoilt] && good != spoilt
    ensures JudgedWire({spoilt}, RejectedOnce(line.ctx, record)) && Need([good, spoilt], {spoilt}) == 3
    ensures var before := Tally(2, 0, 0, 0, 0, 0, 0, 0, 2); var why := Joined(Status(400), Terminal(400));
      && Recovered([record], [], [true], before, before.(failed := 2, durableCurrent := 0),
                   RejectedOnce(line.ctx, record),
                   Some(Recovery(2, false, why, true)))
      && Course(line.ctx, line.maxRetries, [record], [],
                [Turn(start, start, record, [Reply(400, None)], [], 0, Some(why))], [true],
                RejectedOnce(line.ctx, record), Some(Recovery(2, false, why, true)))
  {
    hide WorkedOff, Need, HasBad, LostIn, Course, Recovered;
    OneRefusalCourse(line.ctx, line.maxRetries, record, start, Reply(400, None));
    PairNeedsThree(good, spoilt);
    PairIsLost(line.ctx, record);
  }

  lemma PairIsLost(ctx: Context, record: Record)
    requires ValidRecord(record) && record.eventCount == 2
    ensures var before := Tally(2, 0, 0, 0, 0, 0, 0, 0, 2);
      Recovered([record], [], [true], before, before.(failed := 2, durableCurrent := 0), RejectedOnce(ctx, record),
                Some(Recovery(2, false, Joined(Status(400), Terminal(400)), true)))
  {
    hide WorkedOff, LostIn;
    OneRecordWorkedOff(ctx, record, Reply(400, None), RejectedOnce(ctx, record), Tally(2, 0, 0, 0, 0, 0, 0, 0, 2));
    assert [record][..1] == [record] && [record][1..] == [];
  }

  lemma MarkIsVerdict(posts: seq<Step>, record: Record, rejected: bool, bad: set<Event>)
    requires ValidRecord(record) && Witnessed(posts, record.body, rejected) && FinallyJudged(bad, posts)
    ensures rejected <==> HasBad(record.body.payload.events, bad)
  {
    hide HasBad;
    var i :| 0 <= i < |posts| && posts[i].Posted? && posts[i].body == record.body
             && (if rejected then Rejects(posts[i].reply) else Accepts(posts[i].reply));
    assert RightAnswer(bad, posts[i].body.payload.events, posts[i].reply);
  }

  lemma {:induction false} LostIsSpoiled(records: seq<Record>, marks: seq<bool>, bad: set<Event>)
    requires AllValid(records) && |marks| == |records|
    requires forall i :: 0 <= i < |records| ==> (marks[i] <==> HasBad(records[i].body.payload.events, bad))
    ensures LostIn(records, marks) == SpoiledIn(records, bad)
  {
    hide HasBad;
    if records != [] {
      var n := |records| - 1;
      LostIsSpoiled(records[..n], marks[..n], bad);
    }
  }

  // ---- What recovery makes of retained events ----

  /** Each of these events was in a batch the endpoint accepted, or rejected, as its outcome
      says. */
  ghost predicate Attested(events: seq<Event>, outcomes: seq<Fate>, posts: seq<Step>) {
    && |events| == |outcomes|
    && forall i :: 0 <= i < |events| ==>
         && outcomes[i] != Kept
         && (outcomes[i] == Sent ==> AcceptedIn(posts, events[i]))
         && (outcomes[i] == Lost ==> RejectedIn(posts, events[i]))
  }

  lemma AttestedStays(events: seq<Event>, outcomes: seq<Fate>, posts: seq<Step>, more: seq<Step>)
    requires Attested(events, outcomes, posts)
    ensures Attested(events, outcomes, posts + more)
  {
    forall i | 0 <= i < |events|
      ensures outcomes[i].Sent? ==> AcceptedIn(posts + more, events[i])
      ensures outcomes[i].Lost? ==> RejectedIn(posts + more, events[i])
    {
      if outcomes[i].Sent? { AcceptedStays(posts, more, events[i]); } else { RejectedStays(posts, more, events[i]); }
    }
  }

  lemma AttestedAfter(events: seq<Event>, outcomes: seq<Fate>, before: seq<Step>, posts: seq<Step>)
    requires Attested(events, outcomes, posts)
    ensures Attested(events, outcomes, before + posts)
  {
    forall i | 0 <= i < |events|
      ensures outcomes[i].Sent? ==> AcceptedIn(before + posts, events[i])
      ensures outcomes[i].Lost? ==> RejectedIn(before + posts, events[i])
    {
      if outcomes[i].Sent? { AcceptedStays(before, posts, events[i]); } else { RejectedStays(before, posts,
          events[i]); }
    }
  }

  lemma AttestedJoins(e: seq<Event>, f: seq<Fate>, d: seq<Event>, g: seq<Fate>, posts: seq<Step>)
    requires Attested(e, f, posts) && Attested(d, g, posts)
    ensures Attested(e + d, f + g, posts)
  {
  }

  /** The outcome of every event of the records a pass removed, in order. */
  function OutcomesOf(records: seq<Record>, marks: seq<bool>): seq<Fate>
    requires AllValid(records) && |marks| == |records|
  {
    if records == [] then []
    else
      var n := |records| - 1;
      OutcomesOf(records[..n], marks[..n]) + Repeat(if marks[n] then Lost else Sent, records[n].eventCount)
  }

  lemma {:induction false} OutcomesAddUp(records: seq<Record>, marks: seq<bool>)
    requires AllValid(records) && |marks| == |records|
    ensures |OutcomesOf(records, marks)| == Total(records)
    ensures Count(OutcomesOf(records, marks), Lost) == LostIn(records, marks)
    ensures Count(OutcomesOf(records, marks), Sent) == Total(records) - LostIn(records, marks)
    ensures forall i :: 0 <= i < Total(records) ==> OutcomesOf(records, marks)[i] != Kept
  {
    if records != [] {
      var n := |records| - 1;
      OutcomesAddUp(records[..n], marks[..n]);
      var fate, last := if marks[n] then Lost else Sent, records[n].eventCount;
      assert records == records[..n] + [records[n]];
      TotalConcat(records[..n], [records[n]]);
      CountJoins(OutcomesOf(records[..n], marks[..n]), Repeat(fate, last), Lost);
      CountJoins(OutcomesOf(records[..n], marks[..n]), Repeat(fate, last), Sent);
      CountRepeated(fate, last, Lost);
      CountRepeated(fate, last, Sent);
    }
  }

  lemma {:induction false} PassAttests(records: seq<Record>, marks: seq<bool>, posts: seq<Step>)
    requires AllValid(records) && |marks| == |records|
    requires forall i :: 0 <= i < |records| ==> Witnessed(posts, records[i].body, marks[i])
    ensures Attested(WalEvents(records), OutcomesOf(records, marks), posts)
  {
    hide Attested, Witnessed, Repeat;
    if records == [] {
      NothingToAttest(posts);
    } else {
      var n := |records| - 1;
      PassAttests(records[..n], marks[..n], posts);
      RecordAttests(records[n], marks[n], posts);
      assert records == records[..n] + [records[n]];
      WalEventsConcat(records[..n], [records[n]]);
      WalEventsOfOne(records[n]);
      AttestedJoins(WalEvents(records[..n]), OutcomesOf(records[..n], marks[..n]), records[n].body.payload.events,
                    Repeat(if marks[n] then Lost else Sent, records[n].eventCount), posts);
    }
  }

  lemma NothingToAttest(posts: seq<Step>)
    ensures Attested([], [], posts)
  {
  }

  lemma WalEventsOfOne(r: Record)
    requires ValidRecord(r)
    ensures WalEvents([r]) == r.body.payload.events
  {
    assert WalEvents([r]) == r.body.payload.events + WalEvents([r][1..]);
  }

  lemma RecordAttests(record: Record, rejected: bool, posts: seq<Step>)
    requires ValidRecord(record) && Witnessed(posts, record.body, rejected)
    ensures Attested(record.body.payload.events, Repeat(if rejected then Lost else Sent, record.eventCount), posts)
  {
    var j :| 0 <= j < |posts| && posts[j].Posted? && posts[j].body == record.body
             && (if rejected then Rejects(posts[j].reply) else Accepts(posts[j].reply));
    var events := record.body.payload.events;
    forall i | 0 <= i < |events|
      ensures if rejected then RejectedIn(posts, events[i]) else AcceptedIn(posts, events[i])
    {
      assert events[i] in posts[j].body.payload.events;
    }
  }

  /** The answer is not a refusal of the WAL to take the batch. */
  predicate Unrefused(answer: Option<Error>) {
    answer.Some? ==> !answer.value.LimitExceeded? && !answer.value.InvalidRecord? && !answer.value.Collision?
  }

  predicate NeverRefused(t: Split) {
    match t
    case Dropped(_) => true
    case Leaf(_, answer) => Unrefused(answer)
    case Halved(_, rejection, left, right) => Unrefused(Some(rejection)) && NeverRefused(left) && NeverRefused(right)
  }

  /** The cause remembered after a run: that of its rightmost part with an error. */
  function CauseAfter(t: Split, before: Option<Error>): Option<Error> {
    match t
    case Dropped(_) => Some(SplitLimit)
    case Leaf(_, answer) => if answer.Some? then answer else before
    case Halved(_, _, left, right) => CauseAfter(right, CauseAfter(left, before))
  }

  /** All that one run of deliver shows. */
  ghost predicate Ran(t: Split, events: seq<Event>, budget: int, left: int, err: Option<Error>,
                      before: Option<Error>, cause: Option<Error>, posts: seq<Step>, line: Line)
  {
    && budget >= 0 && t.events == events && RunOf(t, budget) && left == budget - Sends(t) >= 0
    && err == FirstError(t) && cause == CauseAfter(t, before)
    && Told(line, t, posts) && (line.enabled ==> NeverRefused(t))
    && Isolates(line, t, budget, posts)
  }

  lemma RanDry(events: seq<Event>, before: Option<Error>, line: Line)
    requires |events| >= 1
    ensures Ran(Dropped(events), events, 0, 0, Some(SplitLimit), before, Some(SplitLimit), [], line)
  {
    RunIsolates(line, Dropped(events), 0, []);
  }

  lemma RanOnce(events: seq<Event>, budget: int, answer: Option<Error>, before: Option<Error>, posts: seq<Step>,
                line: Line)
    requires |events| >= 1 && budget > 0 && !Halves(events, answer)
    requires Backed(line, events, answer, posts) && (line.enabled ==> Unrefused(answer))
    ensures Ran(Leaf(events, answer), events, budget, budget - 1, answer, before,
                if answer.Some? then answer else before, posts, line)
  {
    hide Isolates;
    RunIsolates(line, Leaf(events, answer), budget, posts);
  }

  /** A rejected chunk and the runs of its halves make one run. */
  lemma RanInHalves(events: seq<Event>, rejection: Error, budget: int, l: Split, mid: int, leftErr: Option<Error>,
                    r: Split, end: int, rightErr: Option<Error>,
                    before: Option<Error>, between: Option<Error>, after: Option<Error>,
                    own: seq<Step>, lp: seq<Step>, rp: seq<Step>, line: Line)
    requires budget > 0 && Halves(events, Some(rejection)) && (line.enabled ==> Unrefused(Some(rejection)))
    requires Backed(line, events, Some(rejection), own)
    requires Ran(l, events[..|events| / 2], budget - 1, mid, leftErr, before, between, lp, line)
    requires Ran(r, events[|events| / 2..], mid, end, rightErr, between, after, rp, line)
    ensures Ran(Halved(events, rejection, l, r), events, budget, end, if leftErr.Some? then leftErr else rightErr,
                before, after, own + lp + rp, line)
    ensures Fates(Halved(events, rejection, l, r)) == Fates(l) + Fates(r)
    ensures events == events[..|events| / 2] + events[|events| / 2..]
  {
    hide Told, Backed, Isolates;
    ToldInHalves(line, events, rejection, l, r, own, lp, rp);
    RunIsolates(line, Halved(events, rejection, l, r), budget, own + lp + rp);
  }

  lemma ToldInHalves(line: Line, events: seq<Event>, rejection: Error, l: Split, r: Split, own: seq<Step>,
                     lp: seq<Step>, rp: seq<Step>)
    requires Backed(line, events, Some(rejection), own) && Told(line, l, lp) && Told(line, r, rp)
    ensures Told(line, Halved(events, rejection, l, r), own + lp + rp)
  {
    hide Backed;
    var posts, i, j := own + lp + rp, |own|, |own + lp|;
    assert posts[..i] == own && posts[i..j] == lp && posts[j..] == rp;
  }

  // ---- A queue sent chunk by chunk ----

  /** The run of deliver over one chunk, with what it entered into the journal. */
  datatype Delivery = Delivery(tree: Split, log: seq<Step>)

  /** The chunk had its own 64 sends, and its entries are those of its run. */
  ghost predicate Performed(line: Line, d: Delivery) {
    && RunOf(d.tree, MAX_SPLIT_SENDS) && Told(line, d.tree, d.log)
    && (line.enabled ==> NeverRefused(d.tree))
    && Isolates(line, d.tree, MAX_SPLIT_SENDS, d.log)
  }

  lemma RanPerforms(t: Split, events: seq<Event>, left: int, err: Option<Error>, before: Option<Error>,
                    cause: Option<Error>, posts: seq<Step>, line: Line)
    requires Ran(t, events, MAX_SPLIT_SENDS, left, err, before, cause, posts, line)
    ensures Performed(line, Delivery(t, posts)) && t.events == events
    ensures err == FirstError(t) && cause == CauseAfter(t, before)
    ensures RunOf(t, MAX_SPLIT_SENDS) && Sends(t) <= MAX_SPLIT_SENDS
  {
    EveryEventSettledOnce(t, MAX_SPLIT_SENDS);
  }

  /** The events, the fates, the entries and the first error of a sequence of runs. */
  function EventsIn(runs: seq<Delivery>): seq<Event> {
    if runs == [] then [] else EventsIn(runs[..|runs| - 1]) + runs[|runs| - 1].tree.events
  }

  function FatesIn(runs: seq<Delivery>): seq<Fate> {
    if runs == [] then [] else FatesIn(runs[..|runs| - 1]) + Fates(runs[|runs| - 1].tree)
  }

  function LogIn(runs: seq<Delivery>): seq<Step> {
    if runs == [] then [] else LogIn(runs[..|runs| - 1]) + runs[|runs| - 1].log
  }

  function FirstErrorIn(runs: seq<Delivery>): Option<Error> {
    if runs == [] then None
    else
      var n := |runs| - 1;
      if FirstErrorIn(runs[..n]).Some? then FirstErrorIn(runs[..n]) else FirstError(runs[n].tree)
  }

  /** The cause remembered after these runs. */
  function CauseIn(runs: seq<Delivery>, before: Option<Error>): Option<Error> {
    if runs == [] then before else CauseAfter(runs[|runs| - 1].tree, CauseIn(runs[..|runs| - 1], before))
  }

  /** Chunks of flushSize events, one after the other, whatever became of the ones before; only
      when nothing waits behind it may the last be smaller. */
  ghost predicate SentInChunks(line: Line, flushSize: int, runs: seq<Delivery>, waiting: bool) {
    forall i :: 0 <= i < |runs| ==>
      && Performed(line, runs[i])
      && (|runs[i].tree.events| == flushSize
          || (i == |runs| - 1 && !waiting && |runs[i].tree.events| < flushSize))
  }

  lemma NoCause(before: Option<Error>)
    ensures CauseIn([], before) == before
  {
  }

  lemma OneMoreCause(runs: seq<Delivery>, d: Delivery, before: Option<Error>)
    ensures CauseIn(runs + [d], before) == CauseAfter(d.tree, CauseIn(runs, before))
  {
    assert (runs + [d])[..|runs + [d]| - 1] == runs;
  }

  lemma OneMoreRun(runs: seq<Delivery>, d: Delivery)
    ensures EventsIn(runs + [d]) == EventsIn(runs) + d.tree.events
    ensures FatesIn(runs + [d]) == FatesIn(runs) + Fates(d.tree)
    ensures LogIn(runs + [d]) == LogIn(runs) + d.log
    ensures FirstErrorIn(runs + [d]) == if FirstErrorIn(runs).Some? then FirstErrorIn(runs) else FirstError(d.tree)
  {
    assert (runs + [d])[..|runs + [d]| - 1] == runs;
  }

  lemma NoRuns()
    ensures EventsIn([]) == [] && FatesIn([]) == [] && LogIn([]) == [] && FirstErrorIn([]) == None
  {
  }

  lemma OneRun(d: Delivery)
    ensures EventsIn([d]) == d.tree.events && FatesIn([d]) == Fates(d.tree) && LogIn([d]) == d.log
    ensures FirstErrorIn([d]) == FirstError(d.tree)
  {
    assert [d][..0] == [] && [d][0] == d;
  }

  lemma OneMoreChunk(line: Line, flushSize: int, runs: seq<Delivery>, d: Delivery, waiting: bool)
    requires SentInChunks(line, flushSize, runs, true) && Performed(line, d)
    requires |d.tree.events| == flushSize || (!waiting && |d.tree.events| < flushSize)
    ensures SentInChunks(line, flushSize, runs + [d], waiting)
  {
    hide Performed;
  }

  /** All but the last run. */
  lemma FewerChunks(line: Line, flushSize: int, runs: seq<Delivery>, waiting: bool)
    requires SentInChunks(line, flushSize, runs, waiting) && runs != []
    ensures SentInChunks(line, flushSize, runs[..|runs| - 1], true) && Performed(line, runs[|runs| - 1])
  {
    hide Performed;
  }

  lemma {:induction false} NoErrorMeansAllSent(line: Line, flushSize: int, runs: seq<Delivery>, waiting: bool)
    requires SentInChunks(line, flushSize, runs, waiting) && FirstErrorIn(runs).None?
    ensures All(FatesIn(runs), Sent)
    decreases |runs|
  {
    hide SentInChunks, Fates, FirstError;
    if runs != [] {
      var n := |runs| - 1;
      FewerChunks(line, flushSize, runs, waiting);
      NoErrorMeansAllSent(line, flushSize, runs[..n], true);
      NilMeansAllSent(runs[n].tree, MAX_SPLIT_SENDS);
    }
  }

  /** Whatever the endpoint answers: of a queue sent chunk by chunk exactly these entries account
      for every loss. */
  lemma {:induction false} DrainIsJustified(line: Line, flushSize: int, runs: seq<Delivery>, waiting: bool)
    requires SentInChunks(line, flushSize, runs, waiting)
    ensures Justified(line.enabled, false, EventsIn(runs), FatesIn(runs), LogIn(runs))
    decreases |runs|
  {
    hide SentInChunks, Fates, Justified;
    if runs == [] {
      NothingToJustify(line.enabled, false, []);
    } else {
      var n := |runs| - 1;
      var last := runs[n];
      FewerChunks(line, flushSize, runs, waiting);
      DrainIsJustified(line, flushSize, runs[..n], true);
      RunIsJustified(line, last.tree, MAX_SPLIT_SENDS, LogIn(runs[..n]), last.log);
      JustifiedStays(line.enabled, false, EventsIn(runs[..n]), FatesIn(runs[..n]), LogIn(runs[..n]), last.log);
      JustifiedJoins(line.enabled, false, EventsIn(runs[..n]), FatesIn(runs[..n]), last.tree.events, Fates(last.tree),
                     LogIn(runs));
    }
  }

  lemma NothingToJustify(enabled: bool, over: bool, log: seq<Step>)
    ensures Justified(enabled, over, [], [], log)
  {
  }

  ghost predicate AllUnhindered(runs: seq<Delivery>) {
    forall i :: 0 <= i < |runs| ==> Unhindered(runs[i].tree)
  }

  /** A queue sent to an endpoint that accepts every post, with no write of the WAL failing, is
      delivered whole. */
  lemma {:induction false} AcceptedDrain(line: Line, flushSize: int, runs: seq<Delivery>, waiting: bool)
    requires SentInChunks(line, flushSize, runs, waiting) && JudgedWire({}, LogIn(runs))
    requires line.enabled ==> AllUnhindered(runs)
    ensures All(FatesIn(runs), Sent)
    decreases |runs|
  {
    hide SentInChunks, Fates, JudgedWire, Unhindered;
    if runs != [] {
      var n := |runs| - 1;
      FewerChunks(line, flushSize, runs, waiting);
      JudgedInParts({}, LogIn(runs[..n]), runs[n].log);
      AcceptedDrain(line, flushSize, runs[..n], true);
      AcceptedRun(line, runs[n]);
    }
  }

  lemma AcceptedRun(line: Line, d: Delivery)
    requires Performed(line, d) && JudgedWire({}, d.log) && (line.enabled ==> Unhindered(d.tree))
    ensures All(Fates(d.tree), Sent)
  {
    hide RunOf, Told, JudgedWire, Unhindered, NeverRefused;
    assert Separated(d.tree.events, Fates(d.tree), {}, MAX_SPLIT_SENDS);
    assert !HasBad(d.tree.events, {});
  }
}
