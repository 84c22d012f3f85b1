/** The journal of a delivery run: every request posted and every state the WAL passed
    through, and the write-ahead law that ties the two together. */
module WriteAhead {
  import opened Outcomes
  import opened Records
  import opened Disk
  import RetryTiming

  /** The answer to one POST: none at all, or a status with what its Retry-After header
      suggests. */
  datatype Reply = NoReply | Reply(status: int, suggested: Option<int>)

  predicate Accepts(reply: Reply) {
    reply.Reply? && 200 <= reply.status < 300
  }

  /** A terminal 4xx. */
  predicate Rejects(reply: Reply) {
    reply.Reply? && 400 <= reply.status < 500 && reply.status != 429
  }

  /** The answer ends the batch's life: it was taken or refused for good. */
  predicate Final(reply: Reply) {
    Accepts(reply) || Rejects(reply)
  }

  /** The wait a reply asks for, within its bounds; only a 429 asks for one. */
  function HintOf(reply: Reply): Option<int> {
    if reply.Reply? && reply.status == 429 && reply.suggested.Some?
    then Some(RetryTiming.BoundedRetryAfter(reply.suggested.value)) else None
  }

  /** The error of transport.post. */
  function PostError(reply: Reply): (err: Option<Error>)
    ensures err.None? <==> Accepts(reply)
    ensures err.Some? ==> FindTerminal(err.value) == (if Rejects(reply) then Some(reply.status) else None)
    ensures err.Some? ==> !IsDelivered(err.value) && !IsDurable(err.value) && FindRecovery(err.value).None?
    ensures err.Some? ==> FindMutation(err.value).None?
  {
    match reply
    case NoReply => Some(Wrapped(Plain("POST failed")))
    case Reply(status, _) =>
      if Accepts(reply) then None
      else if Rejects(reply) then Some(Joined(Status(status), Terminal(status)))
      else Some(Status(status))
  }

  /** The answers by their status: accepted are 200 to 299, rejected for good 400 to 499 without
      429, and a 429 alone asks for a wait, which is kept between nothing and a minute. */
  lemma AnswersAreClassed(status: int, suggested: Option<int>)
    ensures var reply := Reply(status, suggested); var err := PostError(reply);
      && (Accepts(reply) <==> 200 <= status <= 299) && (err.None? <==> 200 <= status <= 299)
      && (Rejects(reply) <==> 400 <= status <= 499 && status != 429)
      && (err.Some? ==>
            (FindTerminal(err.value) == if 400 <= status <= 499 && status != 429 then Some(status) else None))
      && HintOf(reply) == (
           if status == 429 && suggested.Some? then
             Some(if suggested.value < 0 then 0
                  else if suggested.value > 60_000_000_000 then 60_000_000_000 else suggested.value)
           else None)
    ensures !Final(NoReply) && PostError(NoReply).Some? && HintOf(NoReply).None?
  {
  }

  /** The caller's context: a background context never ends, any other from some time (ns) on. */
  datatype Context = Background | Cancellable(ends: int)

  predicate Over(ctx: Context, time: int) {
    ctx.Cancellable? && time >= ctx.ends
  }

  /** One entry of the journal: a post with its answer and the context it was made under; a put of
      a new body whose write failed before its commit point; a change of the disk. */
  datatype Step = Posted(body: Body, reply: Reply, ctx: Context) | Missed(body: Body) | Moved(disk: Disk)

  /** The disk after a journal that began with `origin`. */
  ghost function DiskAfter(origin: Disk, steps: seq<Step>): Disk {
    if steps == [] then origin
    else
      var last := steps[|steps| - 1];
      if last.Moved? then last.disk else DiskAfter(origin, steps[..|steps| - 1])
  }

  ghost function WalAfter(origin: Disk, steps: seq<Step>): seq<Record> {
    Reload(DiskAfter(origin, steps).file)
  }

  /** The body was posted and that very post got a final answer. */
  ghost predicate Answered(steps: seq<Step>, body: Body) {
    exists i :: 0 <= i < |steps| && steps[i].Posted? && steps[i].body == body && Final(steps[i].reply)
  }

  /** A post carries a body that is in the WAL at that moment, and a change of the WAL loses
      only bodies that were answered. */
  ghost predicate Lawful(origin: Disk, past: seq<Step>, step: Step) {
    match step
    case Posted(body, _, _) => Holds(WalAfter(origin, past), body)
    case Missed(_) => true
    case Moved(disk) => NothingForgotten(past, WalAfter(origin, past), Reload(disk.file))
  }

  ghost predicate NothingForgotten(past: seq<Step>, before: seq<Record>, after: seq<Record>) {
    forall i :: 0 <= i < |before| ==> Holds(after, before[i].body) || Answered(past, before[i].body)
  }

  ghost predicate Law(origin: Disk, steps: seq<Step>) {
    steps == [] ||
    (var n := |steps| - 1; Law(origin, steps[..n]) && Lawful(origin, steps[..n], steps[n]))
  }

  lemma AnsweredStays(steps: seq<Step>, more: seq<Step>, body: Body)
    requires Answered(steps, body)
    ensures Answered(steps + more, body)
  {
    var i :| 0 <= i < |steps| && steps[i].Posted? && steps[i].body == body && Final(steps[i].reply);
    assert (steps + more)[i] == steps[i];
  }

  lemma {:induction false} LawOfPrefix(origin: Disk, steps: seq<Step>, k: nat)
    requires Law(origin, steps) && k <= |steps|
    ensures Law(origin, steps[..k])
    decreases |steps|
  {
    if k == |steps| {
      assert steps[..k] == steps;
    } else {
      var shorter := steps[..|steps| - 1];
      LawOfPrefix(origin, shorter, k);
      assert shorter[..k] == steps[..k];
    }
  }

  /** The body had its final answer, or a restart now finds it byte for byte. */
  ghost predicate Safe(origin: Disk, steps: seq<Step>, body: Body) {
    Answered(steps, body) || Holds(WalAfter(origin, steps), body)
  }

  lemma LawfulStepKeepsSafe(origin: Disk, past: seq<Step>, step: Step, body: Body)
    requires Lawful(origin, past, step)
    requires Safe(origin, past, body) || (step.Posted? && step.body == body)
    ensures Safe(origin, past + [step], body)
  {
    assert (past + [step])[..|past|] == past;
    if Answered(past, body) {
      AnsweredStays(past, [step], body);
    } else if step.Moved? {
      var wal := WalAfter(origin, past);
      var r :| 0 <= r < |wal| && wal[r].body == body;
      assert Holds(Reload(step.disk.file), wal[r].body);
    }
  }

  lemma {:induction false} PostedStaysSafe(origin: Disk, steps: seq<Step>, i: nat)
    requires Law(origin, steps)
    requires i < |steps| && steps[i].Posted?
    ensures Safe(origin, steps, steps[i].body)
    decreases |steps|
  {
    var past, last := steps[..|steps| - 1], steps[|steps| - 1];
    assert steps == past + [last];
    if i < |past| {
      assert past[i] == steps[i];
      PostedStaysSafe(origin, past, i);
    }
    LawfulStepKeepsSafe(origin, past, last, steps[i].body);
  }

  /** At-least-once across a crash: stop a lawful run at any point `k` after a batch was
      posted. Either that batch had its final answer, or a restart finds its body in the WAL
      byte for byte. */
  lemma NoPostedBatchIsForgotten(origin: Disk, steps: seq<Step>, i: nat, k: nat)
    requires Law(origin, steps)
    requires i < k <= |steps| && steps[i].Posted?
    ensures Safe(origin, steps[..k], steps[i].body)
  {
    LawOfPrefix(origin, steps, k);
    assert steps[..k][i] == steps[i];
    PostedStaysSafe(origin, steps[..k], i);
  }

  /** A rewrite of the WAL: steps under the old content first, then steps under the new. */
  ghost predicate Rewrite(before: seq<Step>, after: seq<Step>, old_: File, new_: File) {
    && |before| <= |after| && after[..|before|] == before
    && (forall i :: |before| <= i < |after| ==>
          after[i].Moved? && (after[i].disk.file == old_ || after[i].disk.file == new_))
    && (forall i, j :: |before| <= i < j < |after| && after[i].disk.file != old_ ==> after[j].disk.file == new_)
  }

  /** Within a rewrite one step leaves the content alone or changes it from old to new. */
  lemma MoveIsLawful(origin: Disk, before: seq<Step>, past: seq<Step>, step: Step, new_: File)
    requires |before| <= |past| && past[..|before|] == before && step.Moved?
    requires NothingForgotten(before, WalAfter(origin, before), Reload(new_))
    requires step.disk.file == DiskAfter(origin, past).file
      || (DiskAfter(origin, past).file == DiskAfter(origin, before).file && step.disk.file == new_)
    ensures Lawful(origin, past, step)
  {
    var wal, next := WalAfter(origin, past), Reload(step.disk.file);
    forall i | 0 <= i < |wal|
      ensures Holds(next, wal[i].body) || Answered(past, wal[i].body)
    {
      if step.disk.file == DiskAfter(origin, past).file {
        assert next[i].body == wal[i].body;
      } else if Answered(before, wal[i].body) {
        AnsweredStays(before, past[|before|..], wal[i].body);
        assert past == before + past[|before|..];
      }
    }
  }

  lemma LawExtends(origin: Disk, steps: seq<Step>, step: Step)
    requires Law(origin, steps) && Lawful(origin, steps, step)
    ensures Law(origin, steps + [step])
  {
    assert (steps + [step])[..|steps|] == steps;
  }

  /** A rewrite without its last step is one, and that step changes the content at most once. */
  lemma RewriteBefore(origin: Disk, before: seq<Step>, past: seq<Step>, step: Step, new_: File)
    requires |before| <= |past| && Rewrite(before, past + [step], DiskAfter(origin, before).file, new_)
    ensures Rewrite(before, past, DiskAfter(origin, before).file, new_) && past[..|before|] == before
    ensures step.Moved?
    ensures step.disk.file == DiskAfter(origin, past).file
      || (DiskAfter(origin, past).file == DiskAfter(origin, before).file && step.disk.file == new_)
  {
    var after := past + [step];
    assert forall i :: 0 <= i < |past| ==> after[i] == past[i];
    assert past[..|before|] == after[..|before|];
    assert after[|past|] == step;
    if |past| == |before| {
      assert past == before;
    } else {
      assert DiskAfter(origin, past) == past[|past| - 1].disk;
    }
  }

  /** A rewrite whose new content forgets nothing keeps the law. */
  lemma {:induction false} RewriteIsLawful(origin: Disk, before: seq<Step>, after: seq<Step>, new_: File)
    requires Law(origin, before)
    requires Rewrite(before, after, DiskAfter(origin, before).file, new_)
    requires NothingForgotten(before, WalAfter(origin, before), Reload(new_))
    ensures Law(origin, after)
    decreases |after|
  {
    hide Law, Lawful, NothingForgotten, DiskAfter, WalAfter;
    if |before| == |after| {
      assert after == before;
    } else {
      var past, last := after[..|after| - 1], after[|after| - 1];
      assert after == past + [last];
      RewriteBefore(origin, before, past, last, new_);
      RewriteIsLawful(origin, before, past, new_);
      MoveIsLawful(origin, before, past, last, new_);
      LawExtends(origin, past, last);
    }
  }

  /** The posts of a journal and the puts that missed, oldest first. */
  ghost function Log(steps: seq<Step>): seq<Step> {
    if steps == [] then []
    else
      var n := |steps| - 1;
      if !steps[n].Moved? then Log(steps[..n]) + [steps[n]] else Log(steps[..n])
  }

  /** Rewriting the WAL posts nothing. */
  lemma {:induction false} RewritePostsNothing(before: seq<Step>, after: seq<Step>, old_: File, new_: File)
    requires Rewrite(before, after, old_, new_)
    ensures Log(after) == Log(before)
    decreases |after|
  {
    if |before| == |after| {
      assert after == before;
    } else {
      var past := after[..|after| - 1];
      assert past[..|before|] == after[..|before|];
      RewritePostsNothing(before, past, old_, new_);
    }
  }

  lemma PostAppended(origin: Disk, steps: seq<Step>, body: Body, reply: Reply, ctx: Context)
    ensures DiskAfter(origin, steps + [Posted(body, reply, ctx)]) == DiskAfter(origin, steps)
    ensures Log(steps + [Posted(body, reply, ctx)]) == Log(steps) + [Posted(body, reply, ctx)]
    ensures Final(reply) ==> Answered(steps + [Posted(body, reply, ctx)], body)
    ensures Law(origin, steps) && Holds(WalAfter(origin, steps), body) ==>
      Law(origin, steps + [Posted(body, reply, ctx)])
  {
    var more := steps + [Posted(body, reply, ctx)];
    assert more[..|more| - 1] == steps;
    if Final(reply) { assert more[|steps|] == Posted(body, reply, ctx); }
  }

  lemma MissAppended(origin: Disk, steps: seq<Step>, body: Body)
    ensures DiskAfter(origin, steps + [Missed(body)]) == DiskAfter(origin, steps)
    ensures Log(steps + [Missed(body)]) == Log(steps) + [Missed(body)]
    ensures Law(origin, steps) ==> Law(origin, steps + [Missed(body)])
  {
    var more := steps + [Missed(body)];
    assert more[..|more| - 1] == steps;
  }

  /** Taking an answered record out of the WAL keeps the law. */
  lemma AcknowledgeIsLawful(origin: Disk, before: seq<Step>, after: seq<Step>, new_: File, k: nat)
    requires Law(origin, before)
    requires Rewrite(before, after, DiskAfter(origin, before).file, new_)
    requires k < |WalAfter(origin, before)| && Answered(before, WalAfter(origin, before)[k].body)
    requires Reload(new_) == WalAfter(origin, before)
      || Reload(new_) == WalAfter(origin, before)[..k] + WalAfter(origin, before)[k + 1..]
    ensures Law(origin, after)
  {
    var wal, next := WalAfter(origin, before), Reload(new_);
    forall i | 0 <= i < |wal|
      ensures Holds(next, wal[i].body) || Answered(before, wal[i].body)
    {
      if next == wal || i < k {
        assert next[i] == wal[i];
      } else if i > k {
        assert next[i - 1] == wal[i];
      }
    }
    RewriteIsLawful(origin, before, after, new_);
  }

  /** A rewrite that keeps every body keeps the law. */
  lemma KeepingBodiesIsLawful(origin: Disk, before: seq<Step>, after: seq<Step>, new_: File)
    requires Law(origin, before)
    requires Rewrite(before, after, DiskAfter(origin, before).file, new_)
    requires |WalAfter(origin, before)| <= |Reload(new_)|
    requires forall i :: 0 <= i < |WalAfter(origin, before)| ==>
      Reload(new_)[i].body == WalAfter(origin, before)[i].body
    ensures Law(origin, after)
  {
    var wal, next := WalAfter(origin, before), Reload(new_);
    forall i | 0 <= i < |wal| ensures Holds(next, wal[i].body) { assert next[i].body == wal[i].body; }
    RewriteIsLawful(origin, before, after, new_);
  }

  /** Changing a pause keeps the law. */
  lemma PauseIsLawful(origin: Disk, before: seq<Step>, after: seq<Step>, new_: File, id: string, untilMS: int)
    requires Law(origin, before)
    requires Rewrite(before, after, DiskAfter(origin, before).file, new_)
    requires Reload(new_) == WalAfter(origin, before) || Reload(new_) == Paused(WalAfter(origin, before), id, untilMS)
    ensures Law(origin, after)
  {
    KeepingBodiesIsLawful(origin, before, after, new_);
  }

  /** Appending a record keeps the law. */
  lemma AppendIsLawful(origin: Disk, before: seq<Step>, after: seq<Step>, new_: File, r: Record)
    requires Law(origin, before)
    requires Rewrite(before, after, DiskAfter(origin, before).file, new_)
    requires Reload(new_) == WalAfter(origin, before) || Reload(new_) == WalAfter(origin, before) + [r]
    ensures Law(origin, after)
  {
    KeepingBodiesIsLawful(origin, before, after, new_);
  }
}
