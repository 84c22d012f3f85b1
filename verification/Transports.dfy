/** The transport: one batch through write-ahead, retries and acknowledgement, and the
    recovery of what earlier sends left in the WAL. */
module Transports {
  import opened Sequences
  import opened Outcomes
  import opened Records
  import opened Disk
  import opened WriteAhead
  import opened BatchStore
  import opened Tallies
  import RetryTiming

  /** How a wait between two attempts comes about: the hint of the last answer if it had one,
      otherwise the jittered schedule. */
  ghost predicate WaitFollows(reply: Reply, attempt: nat, wait: int)
    requires attempt >= 1
  {
    if HintOf(reply).Some? then wait == HintOf(reply).value
    else RetryTiming.Jittered(RetryTiming.BackoffDelay(attempt), wait)
  }

  /** A wait between two attempts: the time at which it began, how long it was to be, and the time
      at which it was over; `late` if its timer had fired before the select was reached. */
  datatype Nap = Nap(began: int, wait: int, woke: int, late: bool)

  /** Nothing ended the wait early: the context lasted to its end. (Of a timer and a context that
      are both ready the select takes either.) */
  predicate SleptThrough(ctx: Context, nap: Nap) {
    ctx.Background? || ctx.ends >= nap.began + nap.wait || nap.late
  }

  ghost predicate AllSlept(ctx: Context, naps: seq<Nap>) {
    forall i :: 0 <= i < |naps| ==> SleptThrough(ctx, naps[i])
  }

  lemma AllSleptGrows(ctx: Context, naps: seq<Nap>, nap: Nap)
    requires AllSlept(ctx, naps)
    ensures SleptThrough(ctx, nap) ==> AllSlept(ctx, naps + [nap])
    ensures (naps + [nap])[..|naps|] == naps
  {
  }

  /** Answers that settle nothing, and the waits they led to. */
  ghost predicate Unsettled(replies: seq<Reply>, naps: seq<Nap>) {
    && |naps| <= |replies|
    && (forall i :: 0 <= i < |replies| ==> !Final(replies[i]))
    && (forall i :: 0 <= i < |naps| ==> WaitFollows(replies[i], i + 1, naps[i].wait))
  }

  /** At most maxRetries + 1 posts, every one but the last without a final answer; each wait decided
      by the answer just before it; and the context alone ends a wait without another post, at the
      latest when it has ended before the wait is over. */
  ghost predicate Attempts(ctx: Context, maxRetries: nat, replies: seq<Reply>, naps: seq<Nap>) {
    && 1 <= |replies| <= maxRetries + 1
    && |replies| - 1 <= |naps| <= |replies|
    && (Unsettled(replies, naps)
        || (|naps| == |replies| - 1 && Unsettled(replies[..|replies| - 1], naps)))
    && AllSlept(ctx, naps[..|replies| - 1])
    && (|naps| == |replies| ==> Over(ctx, naps[|naps| - 1].woke))
  }

  lemma UnsettledGrows(replies: seq<Reply>, naps: seq<Nap>, reply: Reply)
    requires Unsettled(replies, naps)
    ensures !Final(reply) ==> Unsettled(replies + [reply], naps)
    ensures (replies + [reply])[..|replies|] == replies
  {
  }

  lemma WaitAppended(replies: seq<Reply>, naps: seq<Nap>, nap: Nap)
    requires Unsettled(replies, naps) && |replies| == |naps| + 1
    requires WaitFollows(replies[|naps|], |naps| + 1, nap.wait)
    ensures Unsettled(replies, naps + [nap])
  {
  }

  /** The pause (ms) stored when attempts run out at time `clock` (ns): the hint of the last
      answer, if it had one. */
  function PauseUntil(hint: Option<int>, clock: int): (untilMS: int)
    ensures hint.None? ==> untilMS == 0
    ensures hint.Some? ==> untilMS * 1_000_000 <= clock + hint.value < (untilMS + 1) * 1_000_000
  {
    if hint.Some? then (clock + hint.value) / 1_000_000 else 0
  }

  /** The pause fits what the last answer asked for at time `clock`: as long as a 429 wants it, but
      a minute at most, to the millisecond; none after any other answer. */
  predicate PauseFits(last: Reply, untilMS: int, clock: int) {
    if last.Reply? && last.status == 429 && last.suggested.Some? then
      var wanted := last.suggested.value;
      var wait := if wanted < 0 then 0 else if wanted > 60_000_000_000 then 60_000_000_000 else wanted;
      untilMS * 1_000_000 <= clock + wait < (untilMS + 1) * 1_000_000
    else untilMS == 0
  }

  lemma PauseUntilFits(last: Reply, clock: int)
    ensures PauseFits(last, PauseUntil(HintOf(last), clock), clock)
  {
  }

  /** Posts of one body with these answers, in journal form. */
  function PostsOf(ctx: Context, body: Body, replies: seq<Reply>): (posts: seq<Step>)
    ensures |posts| == |replies|
    ensures forall i :: 0 <= i < |replies| ==> posts[i] == Posted(body, replies[i], ctx)
  {
    seq(|replies|, i requires 0 <= i < |replies| => Posted(body, replies[i], ctx))
  }

  lemma PostsOfGrows(ctx: Context, body: Body, replies: seq<Reply>, reply: Reply)
    ensures PostsOf(ctx, body, replies + [reply]) == PostsOf(ctx, body, replies) + [Posted(body, reply, ctx)]
  {
  }

  /** A write of the WAL that failed after its commit point: it took effect, unsynced. */
  predicate Unsynced(e: Error) {
    FileFailure(e) && e.committed
  }

  /** One that failed before it, and had no effect. */
  predicate Unwritten(e: Error) {
    FileFailure(e) && !e.committed
  }

  /** The error of sendRecord, by the last answer. Once that is final only taking the record out
      can add to it; attempts that ran out are told with the last failure and the pause. */
  ghost predicate Concluded(last: Reply, err: Option<Error>, exhausted: bool, untilMS: int) {
    if Accepts(last) then
      err.None? || (err.value.Delivered? && Unsynced(err.value.cause)) || Unwritten(err.value)
    else if Rejects(last) then
      && err.Some?
      && (err == PostError(last)
          || (err.value.Joined? && Some(err.value.first) == PostError(last) && Unsynced(err.value.second))
          || Unwritten(err.value))
    else if exhausted then
      err.Some? && (FileFailure(err.value) || err == Some(RetryLater(Wrapped(PostError(last).value), untilMS)))
    else
      err == Some(Wrapped(Cancelled))
  }

  /** What errors.As finds in that error, by its kind and by the last answer. */
  lemma ConcludedFacts(last: Reply, err: Option<Error>, exhausted: bool, untilMS: int)
    requires Concluded(last, err, exhausted, untilMS)
    ensures err.None? ==> Accepts(last)
    ensures err.Some? ==> !IsDurable(err.value) && FindRecovery(err.value).None?
    ensures err.Some? && IsDelivered(err.value) ==> Accepts(last) && FindTerminal(err.value).None?
    ensures err.Some? && FindTerminal(err.value).Some? ==>
      Rejects(last) && FindTerminal(err.value) == Some(last.status) && !IsDelivered(err.value)
    ensures Accepts(last) ==> err.None? || IsDelivered(err.value) || Unwritten(err.value)
    ensures Rejects(last) ==> err.Some? && (FindTerminal(err.value).Some? || Unwritten(err.value))
    ensures !Final(last) ==> err.Some? && !IsDelivered(err.value) && FindTerminal(err.value).None?
    ensures err.Some? && Unwritten(err.value) ==> !IsDelivered(err.value) && FindTerminal(err.value).None?
  {
    if err.Some? {
      if FileFailure(err.value) { FileFailureFacts(err.value); }
      if err.value.Delivered? && FileFailure(err.value.cause) { FileFailureFacts(err.value.cause); }
      if err.value.Joined? && FileFailure(err.value.second) { FileFailureFacts(err.value.second); }
      if err.value.RetryLater? && err.value.cause.Wrapped? {
        WrappingKeepsFindings(err.value.cause.cause, err.value.untilMS);
      }
      if err.value == Wrapped(Cancelled) {
        assert FindTerminal(Cancelled).None? && !IsDelivered(Cancelled) && !IsDurable(Cancelled);
        assert FindRecovery(Cancelled).None?;
      }
    }
  }

  /** The outcome of sendRecord and what it did to the WAL: after a final answer the record is gone,
      after the last attempt it is paused, unless the write had no effect; otherwise it stays. */
  ghost predicate Settled(before: seq<Record>, after: seq<Record>, id: string, last: Reply,
                          err: Option<Error>, exhausted: bool, untilMS: int)
  {
    && Concluded(last, err, exhausted, untilMS)
    && (err.Some? && Unwritten(err.value) ==> HasId(before, id))
    && after == (
      if (err.Some? && Unwritten(err.value)) || (!Final(last) && !exhausted) then before
      else if Final(last) then Without(before, id)
      else Paused(before, id, untilMS))
  }

  /** What the outcome says of the WAL, read by the kind of the error. */
  lemma SettledFacts(before: seq<Record>, after: seq<Record>, id: string, last: Reply, err: Option<Error>,
                     exhausted: bool, untilMS: int)
    requires Settled(before, after, id, last, err, exhausted, untilMS)
    ensures err.None? || IsDelivered(err.value) || FindTerminal(err.value).Some? ==> after == Without(before, id)
    ensures err.Some? && !IsDelivered(err.value) && FindTerminal(err.value).None? ==>
      after == before || (!Final(last) && exhausted && after == Paused(before, id, untilMS))
    ensures Final(last) && err.Some? && Unwritten(err.value) ==> after == before
  {
    hide Without, Paused, HasId;
    ConcludedFacts(last, err, exhausted, untilMS);
  }

  /** All that one sendRecord promises about its answers, its naps, its error and the WAL. */
  ghost predicate Conducted(ctx: Context, maxRetries: nat, before: seq<Record>, after: seq<Record>, id: string,
                            replies: seq<Reply>, naps: seq<Nap>, err: Option<Error>, clock: int)
  {
    && Attempts(ctx, maxRetries, replies, naps)
    && Settled(before, after, id, replies[|replies| - 1], err,
               |replies| == maxRetries + 1, PauseUntil(HintOf(replies[|replies| - 1]), clock))
    && (err.Some? && err.value.RetryLater? ==> PauseFits(replies[|replies| - 1], err.value.untilMS, clock))
  }

  lemma EndedDuringWait(ctx: Context, maxRetries: nat, wal: seq<Record>, id: string, replies: seq<Reply>,
                        past: seq<Nap>, nap: Nap, clock: int)
    requires Unsettled(replies, past + [nap]) && 1 <= |replies| == |past| + 1 <= maxRetries
    requires AllSlept(ctx, past) && Over(ctx, nap.woke)
    ensures Conducted(ctx, maxRetries, wal, wal, id, replies, past + [nap], Some(Wrapped(Cancelled)), clock)
  {
    assert (past + [nap])[..|past|] == past;
  }

  lemma EndedByAnswer(ctx: Context, maxRetries: nat, before: seq<Record>, after: seq<Record>, id: string,
                      past: seq<Reply>, naps: seq<Nap>, reply: Reply, err: Option<Error>, clock: int)
    requires Unsettled(past, naps) && |past| == |naps| <= maxRetries && Final(reply) && AllSlept(ctx, naps)
    requires Settled(before, after, id, reply, err, false, 0)
    ensures Conducted(ctx, maxRetries, before, after, id, past + [reply], naps, err, clock)
  {
    assert (past + [reply])[..|past|] == past && naps[..|naps|] == naps;
  }

  lemma EndedByExhaustion(ctx: Context, maxRetries: nat, before: seq<Record>, after: seq<Record>, id: string,
                          replies: seq<Reply>, naps: seq<Nap>, err: Option<Error>, clock: int)
    requires Unsettled(replies, naps) && |replies| == maxRetries + 1 == |naps| + 1 && AllSlept(ctx, naps)
    requires Settled(before, after, id, replies[maxRetries], err, true, PauseUntil(HintOf(replies[maxRetries]), clock))
    ensures Conducted(ctx, maxRetries, before, after, id, replies, naps, err, clock)
  {
    PauseUntilFits(replies[maxRetries], clock);
    assert naps[..|naps|] == naps;
  }

  /** The outcome of send agrees with the WAL. `kept` is the pause of a retained record. */
  ghost predicate Classified(enabled: bool, before: seq<Record>, after: seq<Record>, record: Record,
                             replies: seq<Reply>, err: Option<Error>, kept: int)
  {
    && (err.None? ==> replies != [] && Accepts(replies[|replies| - 1]) && after == before)
    && (err.Some? && IsDelivered(err.value) ==>
          && replies != [] && Accepts(replies[|replies| - 1]) && after == before
          && FindTerminal(err.value).None? && !IsDurable(err.value))
    && (err.Some? && FindTerminal(err.value).Some? ==>
          && replies != [] && Rejects(replies[|replies| - 1]) && after == before
          && FindTerminal(err.value) == Some(replies[|replies| - 1].status) && !IsDurable(err.value))
    && (err.Some? && IsDurable(err.value) ==> enabled && after == before + [record.(pausedUntilMS := kept)])
    && (err.Some? && !IsDelivered(err.value) && FindTerminal(err.value).None? && !IsDurable(err.value) ==>
          after == before && (enabled ==> replies == []))
    && (err.Some? ==> FindRecovery(err.value).None?)
    && (if replies == [] then err.Some? else Faithful(enabled, replies[|replies| - 1], err))
  }

  /** Read from the last answer: an accepted batch is reported as such, a rejected one too,
      unless the record could not be taken out of the WAL; any other is retained there. */
  ghost predicate Faithful(enabled: bool, last: Reply, err: Option<Error>) {
    if Accepts(last) then err.None? || IsDelivered(err.value) || (enabled && StillLogged(err.value))
    else if Rejects(last) then err.Some? && (FindTerminal(err.value).Some? || (enabled && StillLogged(err.value)))
    else err.Some? && !IsDelivered(err.value) && FindTerminal(err.value).None? && (enabled ==> err.value.Durable?)
  }

  /** A durable error over a write that failed before its commit point. */
  ghost predicate StillLogged(e: Error) {
    e.Durable? && FileFailure(e.cause) && !e.cause.committed
  }

  /** All that one send of a fresh batch promises: the classification, and that without any
      post the error is a refusal of put or a failure to write. */
  ghost predicate Dispatched(enabled: bool, refusal: Option<Error>, before: seq<Record>, after: seq<Record>,
                             record: Record,
                             replies: seq<Reply>, err: Option<Error>, kept: int)
  {
    && Classified(enabled, before, after, record, replies, err, kept)
    && (enabled && refusal.Some? ==> err == refusal && replies == [])
    && (err.Some? && replies == [] && !IsDurable(err.value) ==> FileFailure(err.value) || err == refusal)
    && (replies == [] ==> enabled && (err == refusal || PutFailed(err)))
  }

  /** The error of a send that ended with its put. */
  ghost predicate PutFailed(err: Option<Error>) {
    && err.Some?
    && ((FileFailure(err.value) && !err.value.committed) || (err.value.Durable? && FileFailure(err.value.cause)))
  }

  /** What a put of this body enters into the journal: a write that failed before its commit
      point is remembered. */
  function Misses(body: Body, err: Option<Error>): seq<Step> {
    if err.Some? && FileFailure(err.value) && !err.value.committed then [Missed(body)] else []
  }

  /** What a send of this body enters: its posts, or the put it did not get past. */
  function SendLog(ctx: Context, body: Body, replies: seq<Reply>, err: Option<Error>): seq<Step> {
    if replies == [] then Misses(body, err) else PostsOf(ctx, body, replies)
  }

  lemma SendLogs(ctx: Context, body: Body, putErr: Option<Error>, replies: seq<Reply>, err: Option<Error>)
    ensures putErr.Some? ==>
      SendLog(ctx, body, [], Some(PutOutcome(putErr.value))) == Misses(body, Some(PutOutcome(putErr.value)))
    ensures replies != [] ==> SendLog(ctx, body, replies, err) == PostsOf(ctx, body, replies)
    ensures Misses(body, None) == []
  {
  }

  lemma MissesOfPut(body: Body, putErr: Error)
    requires FileFailure(putErr) || putErr.InvalidRecord? || putErr.LimitExceeded?
    ensures Misses(body, Some(PutOutcome(putErr))) == Misses(body, Some(putErr))
  {
    if FileFailure(putErr) { FileFailureFacts(putErr); }
  }

  /** The outcome of persist: retained with this very body, or refused and not in the WAL. */
  ghost predicate Stored(refusal: Option<Error>, before: seq<Record>, after: seq<Record>, record: Record,
                         err: Option<Error>) {
    if err.None? || IsDurable(err.value) then
      after == before + [record] && refusal.None? && (err.None? || (err.value.Durable? && Unsynced(err.value.cause)))
    else after == before && (Unwritten(err.value) || err == refusal)
  }

  /** The error send makes of one of put. */
  function PutOutcome(putErr: Error): Error {
    if Committed(putErr) then Durable(putErr) else putErr
  }

  /** The error send makes of one of sendRecord when there is a WAL. */
  function WalOutcome(err: Option<Error>): Option<Error> {
    if err.Some? && !IsDelivered(err.value) && FindTerminal(err.value).None? then Some(Durable(err.value)) else err
  }

  lemma DispatchedByPut(refusal: Option<Error>, before: seq<Record>, after: seq<Record>, record: Record, putErr: Error)
    requires FileFailure(putErr) || Some(putErr) == refusal
    requires refusal.Some? ==> Some(putErr) == refusal && (putErr.InvalidRecord? || putErr.LimitExceeded?)
    requires after == if Committed(putErr) then before + [record] else before
    ensures Dispatched(true, refusal, before, after, record, [], Some(PutOutcome(putErr)), record.pausedUntilMS)
  {
    RefusedFindings(putErr);
    assert record.(pausedUntilMS := record.pausedUntilMS) == record;
  }

  lemma DispatchedWithWal(ctx: Context, maxRetries: nat, before: seq<Record>, after: seq<Record>, record: Record,
                          replies: seq<Reply>, naps: seq<Nap>, err: Option<Error>, clock: int)
    returns (kept: int)
    requires DistinctIds(before + [record]) && record.pausedUntilMS == 0
    requires Conducted(ctx, maxRetries, before + [record], after, record.batchId, replies, naps, err, clock)
    ensures Dispatched(true, None, before, after, record, replies, WalOutcome(err), kept)
    ensures Reported(true, maxRetries, replies, WalOutcome(err), kept, clock)
  {
    var last := LastOf(replies);
    var untilMS, exhausted := PauseUntil(HintOf(last), clock), |replies| == maxRetries + 1;
    ConcludedFacts(last, err, exhausted, untilMS);
    SettledFacts(before + [record], after, record.batchId, last, err, exhausted, untilMS);
    LastTakenOrPaused(before, record, untilMS);
    PauseUntilFits(last, clock);
    kept := if exhausted && !Final(last) && !Unwritten(err.value) then untilMS else 0;
    assert record.(pausedUntilMS := 0) == record;
  }

  lemma DispatchedWithoutWal(ctx: Context, maxRetries: nat, refusal: Option<Error>, record: Record, replies: seq<Reply>,
                             naps: seq<Nap>, err: Option<Error>, clock: int, kept: int)
    requires Conducted(ctx, maxRetries, [], [], record.batchId, replies, naps, err, clock)
    ensures Dispatched(false, refusal, [], [], record, replies, err, kept)
    ensures Reported(false, maxRetries, replies, err, kept, clock)
  {
    var untilMS := PauseUntil(HintOf(replies[|replies| - 1]), clock);
    ConcludedFacts(replies[|replies| - 1], err, |replies| == maxRetries + 1, untilMS);
    SettledFacts([], [], record.batchId, replies[|replies| - 1], err, |replies| == maxRetries + 1, untilMS);
  }

  lemma DispatchedAfterPosts(ctx: Context, enabled: bool, maxRetries: nat, refusal: Option<Error>, before: seq<Record>,
                             written: seq<Record>, after: seq<Record>, record: Record, replies: seq<Reply>,
                             naps: seq<Nap>, err: Option<Error>, clock: int)
    returns (kept: int)
    requires Conducted(ctx, maxRetries, written, after, record.batchId, replies, naps, err, clock)
    requires record.pausedUntilMS == 0
    requires enabled ==> refusal.None? && written == before + [record] && DistinctIds(written)
    requires !enabled ==> before == [] && written == [] && after == []
    ensures var outcome := if enabled then WalOutcome(err) else err;
      && Dispatched(enabled, refusal, before, after, record, replies, outcome, kept)
      && Reported(enabled, maxRetries, replies, outcome, kept, clock)
  {
    hide *;
    kept := 0;
    if enabled {
      kept := DispatchedWithWal(ctx, maxRetries, before, after, record, replies, naps, err, clock);
    } else {
      DispatchedWithoutWal(ctx, maxRetries, refusal, record, replies, naps, err, clock, kept);
    }
  }

  /** The error of sendRecord in the one send makes of it. */
  function Bare(enabled: bool, err: Option<Error>): Option<Error> {
    if enabled && err.Some? && err.value.Durable? then Some(err.value.cause) else err
  }

  /** What send reports once it has posted: the error by the last answer, and of a batch it leaves in
      the WAL the pause. */
  ghost predicate Reported(enabled: bool, maxRetries: nat, replies: seq<Reply>, err: Option<Error>, kept: int,
                           clock: int)
  {
    replies != [] ==>
      var last, bare := LastOf(replies), Bare(enabled, err);
      var exhausted := |replies| == maxRetries + 1;
      && Concluded(last, bare, exhausted, PauseUntil(HintOf(last), clock))
      && (enabled && err.Some? && err.value.Durable? ==>
            if exhausted && !Final(last) && !Unwritten(bare.value) then PauseFits(last, kept, clock) else kept == 0)
  }

  lemma NothingReported(enabled: bool, maxRetries: nat, err: Option<Error>, kept: int, clock: int)
    ensures Reported(enabled, maxRetries, [], err, kept, clock)
  {
  }

  lemma AttemptsAreBounded(ctx: Context, maxRetries: nat, before: seq<Record>, after: seq<Record>, id: string,
                           replies: seq<Reply>, naps: seq<Nap>, err: Option<Error>, clock: int)
    requires Conducted(ctx, maxRetries, before, after, id, replies, naps, err, clock)
    ensures 1 <= |replies| <= maxRetries + 1
  {
  }

  lemma TookEffectWhenNone(err: Option<Error>)
    ensures err.None? ==> TookEffect(err)
    ensures err.Some? ==> (TookEffect(err) <==> Committed(err.value))
  {
  }

  /** time.UnixMilli, in nanoseconds. */
  function Deadline(ms: int): int {
    ms * 1_000_000
  }

  /** The latest pause recovery honours: one minute from now, in milliseconds. */
  function LatestPause(now: int): int {
    (now + RetryTiming.MAX_RETRY_AFTER) / 1_000_000
  }

  lemma LatestPauseBound(now: int)
    ensures Deadline(LatestPause(now)) <= now + RetryTiming.MAX_RETRY_AFTER
  {
  }

  predicate SameButPause(a: Record, b: Record) {
    a == b.(pausedUntilMS := a.pausedUntilMS)
  }

  /** `after` is `rest` except that its head may have another pause. */
  ghost predicate SameButHeadPause(after: seq<Record>, rest: seq<Record>) {
    |after| == |rest| && (rest != [] ==> SameButPause(after[0], rest[0]) && after[1..] == rest[1..])
  }

  /** Among these posts one of the body was answered in this way. */
  ghost predicate Witnessed(posts: seq<Step>, body: Body, rejected: bool) {
    exists i :: 0 <= i < |posts| && posts[i].Posted? && posts[i].body == body
                && (if rejected then Rejects(posts[i].reply) else Accepts(posts[i].reply))
  }

  // ---- One turn of recover ----

  /** The pause of the record still runs at this time (ns). */
  predicate PauseRuns(record: Record, time: int) {
    record.pausedUntilMS > 0 && record.pausedUntilMS * 1_000_000 > time
  }

  /** It ends more than a minute from then. */
  predicate PausedTooLong(record: Record, time: int) {
    record.pausedUntilMS > 0 && record.pausedUntilMS * 1_000_000 > time + 60_000_000_000
  }

  /** The record with a pause that is too long cut down to a minute from then, to the millisecond. */
  predicate CutDown(record: Record, cut: Record, time: int) {
    if PausedTooLong(record, time) then
      && SameButPause(cut, record)
      && cut.pausedUntilMS * 1_000_000 <= time + 60_000_000_000 < (cut.pausedUntilMS + 1) * 1_000_000
    else cut == record
  }

  /** The record is not sent at this time: the context ended before, or the write that cuts down its
      pause failed, or its pause, cut down, still runs. `stood` is how it stands in the WAL then. */
  predicate HeldBack(ctx: Context, record: Record, stood: Record, looked: int, time: int, stop: Error) {
    if Over(ctx, looked) then stop == Cancelled && stood == record
    else HeldByPause(record, stood, time, stop)
  }

  predicate HeldByPause(record: Record, stood: Record, time: int, stop: Error) {
    || (FileFailure(stop) && PausedTooLong(record, time)
        && if stop.committed then CutDown(record, stood, time) else stood == record)
    || (CutDown(record, stood, time) && PauseRuns(stood, time) && stop == Deferred(stood.pausedUntilMS))
  }

  /** What one turn met with: the time at which it looked at the context, and that at which it
      looked at the pause; how the record stood then; the answers to its posts (none if it was held
      back) and the waits between them; the time at which these ran out; and its error. */
  datatype Turn = Turn(looked: int, start: int, stood: Record, replies: seq<Reply>, naps: seq<Nap>, end: int,
                       result: Option<Error>)

  function LastOf(replies: seq<Reply>): Reply
    requires replies != []
  {
    replies[|replies| - 1]
  }

  /** The record is held back, or its pause is over and it is posted, as often as it takes. */
  ghost predicate Played(ctx: Context, maxRetries: nat, record: Record, t: Turn) {
    if t.replies == [] then
      t.result.Some? && HeldBack(ctx, record, t.stood, t.looked, t.start, t.result.value)
    else
      && !Over(ctx, t.looked)
      && CutDown(record, t.stood, t.start) && !PauseRuns(t.stood, t.start)
      && Attempts(ctx, maxRetries, t.replies, t.naps)
      && Concluded(LastOf(t.replies), t.result, |t.replies| == maxRetries + 1,
                   PauseUntil(HintOf(LastOf(t.replies)), t.end))
  }

  /** The record left the WAL in this turn: it had a final answer, and taking it out took effect. */
  predicate Done(t: Turn) {
    t.replies != [] && Final(LastOf(t.replies)) && !(t.result.Some? && Unwritten(t.result.value))
  }

  /** It left as rejected for good. */
  predicate Refused(t: Turn) {
    Done(t) && Rejects(LastOf(t.replies))
  }

  /** The error that ends the pass with this turn; a rejection does not. */
  function StopOf(t: Turn): Option<Error> {
    if Refused(t) then None else t.result
  }

  /** How the record stands after a turn that left it in the WAL. */
  function StandsAs(maxRetries: nat, t: Turn): Record {
    if t.replies != [] && |t.replies| == maxRetries + 1 && !Final(LastOf(t.replies))
       && !(t.result.Some? && Unwritten(t.result.value))
    then t.stood.(pausedUntilMS := PauseUntil(HintOf(LastOf(t.replies)), t.end))
    else t.stood
  }

  /** What a turn does to the WAL and the counters. */
  ghost predicate Booked(maxRetries: nat, record: Record, rest: seq<Record>, after: seq<Record>, t: Turn, t0: Tally,
                         t1: Tally)
  {
    if Done(t) then
      after == rest && t1 == Resolved(t0, record.eventCount, if Refused(t) then record.eventCount else 0)
    else
      after == [StandsAs(maxRetries, t)] + rest && t1 == t0
  }

  /** All of one turn of recover. */
  ghost predicate Turned(ctx: Context, maxRetries: nat, record: Record, rest: seq<Record>, after: seq<Record>, t: Turn,
                         t0: Tally, t1: Tally)
  {
    Played(ctx, maxRetries, record, t) && Booked(maxRetries, record, rest, after, t, t0, t1)
  }

  /** A turn read for the account of a pass. */
  lemma TurnedFacts(ctx: Context, maxRetries: nat, record: Record, rest: seq<Record>, after: seq<Record>, t: Turn,
                    t0: Tally, t1: Tally)
    requires Turned(ctx, maxRetries, record, rest, after, t, t0, t1)
    ensures Done(t) ==> after == rest && Witnessed(PostsOf(ctx, record.body, t.replies), record.body, Refused(t))
    ensures !Done(t) ==> StopOf(t).Some? && !IsDelivered(StopOf(t).value)
    ensures !Done(t) ==> SameButHeadPause(after, [record] + rest)
    ensures StopOf(t).Some? ==> FindRecovery(StopOf(t).value).None? && (Done(t) <==> IsDelivered(StopOf(t).value))
    ensures Refused(t) ==> t.result.Some? && FindTerminal(t.result.value).Some? && FindRecovery(t.result.value).None?
  {
    if t.replies != [] {
      var last, until := LastOf(t.replies), PauseUntil(HintOf(LastOf(t.replies)), t.end);
      ConcludedFacts(last, t.result, |t.replies| == maxRetries + 1, until);
      assert PostsOf(ctx, record.body, t.replies)[|t.replies| - 1] == Posted(record.body, last, ctx);
    } else if FileFailure(t.result.value) {
      FileFailureFacts(t.result.value);
    }
    assert ([record] + rest)[1..] == rest;
    if !Done(t) { assert after[1..] == rest; }
  }

  /** The events of the records a recovery pass found rejected. */
  function LostIn(records: seq<Record>, marks: seq<bool>): int
    requires |marks| == |records|
  {
    if records == [] then 0
    else
      var n := |records| - 1;
      LostIn(records[..n], marks[..n]) + if marks[n] then records[n].eventCount else 0
  }

  /** A recovery pass that has worked off the oldest |marks| records of `queue`: each was
      answered, rejected ones make up the loss, and the counters followed. */
  ghost predicate WorkedOff(queue: seq<Record>, marks: seq<bool>, lost: int, t0: Tally, t1: Tally, posts: seq<Step>) {
    var k := |marks|;
    && k <= |queue|
    && lost == LostIn(queue[..k], marks)
    && t1 == Resolved(t0, Total(queue[..k]), lost)
    && Coupled(t0, Total(queue))
    && AllWitnessed(queue, marks, posts)
  }

  ghost predicate AllWitnessed(queue: seq<Record>, marks: seq<bool>, posts: seq<Step>)
    requires |marks| <= |queue|
  {
    forall i :: 0 <= i < |marks| ==> Witnessed(posts, queue[i].body, marks[i])
  }

  lemma AllWitnessedGrows(queue: seq<Record>, marks: seq<bool>, posts: seq<Step>, more: seq<Step>, rejected: bool)
    requires |marks| < |queue| && AllWitnessed(queue, marks, posts)
    requires Witnessed(more, queue[|marks|].body, rejected)
    ensures AllWitnessed(queue, marks + [rejected], posts + more)
  {
    forall i | 0 <= i < |marks| + 1 ensures Witnessed(posts + more, queue[i].body, (marks + [rejected])[i]) {
      WitnessedStays(posts, more, queue[i].body, (marks + [rejected])[i]);
    }
  }

  lemma TotalOfPrefix(queue: seq<Record>, k: nat)
    requires AllValid(queue) && k < |queue|
    ensures Total(queue[..k + 1]) == Total(queue[..k]) + queue[k].eventCount
    ensures 0 <= Total(queue[..k]) && Total(queue[..k + 1]) <= Total(queue) && queue[k].eventCount > 0
  {
    hide Total, WalEvents;
    assert queue[..k + 1] == queue[..k] + [queue[k]];
    TotalConcat(queue[..k], [queue[k]]);
    TotalOfOne(queue[k]);
    assert queue == queue[..k + 1] + queue[k + 1..];
    TotalConcat(queue[..k + 1], queue[k + 1..]);
    WalEventsCount(queue[..k]);
    WalEventsCount(queue[k + 1..]);
  }

  /** The error of a pass that did not get through. */
  predicate Blocking(err: Option<Error>) {
    err.Some? && (FindRecovery(err.value).None? || FindRecovery(err.value).value.blocked)
  }

  /** What a pass does to the WAL and the counters, and how its error tells the losses. */
  ghost predicate Recovered(queue: seq<Record>, after: seq<Record>, marks: seq<bool>, t0: Tally, t1: Tally,
                            posts: seq<Step>, err: Option<Error>)
  {
    && |marks| <= |queue|
    && SameButHeadPause(after, queue[|marks|..])
    && var lost := LostIn(queue[..|marks|], marks);
    && WorkedOff(queue, marks, lost, t0, t1, posts)
    && (err.None? ==> after == [] && lost == 0)
    && (Blocking(err) ==> queue != [])
    && (err.Some? ==>
          match FindRecovery(err.value)
          case None => lost == 0
          case Some(outcome) => outcome.lost == lost > 0 && outcome.reported && (!outcome.blocked ==> after == []))
  }

  // ---- The turns of a pass ----

  /** The posts of these turns, oldest record first. */
  function PostsOfTurns(ctx: Context, queue: seq<Record>, turns: seq<Turn>): seq<Step>
    requires |turns| <= |queue|
  {
    if turns == [] then []
    else
      var n := |turns| - 1;
      PostsOfTurns(ctx, queue, turns[..n]) + PostsOf(ctx, queue[n].body, turns[n].replies)
  }

  /** The error of the last of these turns that found its record rejected. */
  function LastRefusal(turns: seq<Turn>): Option<Error> {
    if turns == [] then None
    else
      var n := |turns| - 1;
      if Refused(turns[n]) then turns[n].result else LastRefusal(turns[..n])
  }

  /** Every one of these turns went through, one record after the other, and the pass goes on. */
  ghost predicate WentThrough(ctx: Context, maxRetries: nat, queue: seq<Record>, turns: seq<Turn>, marks: seq<bool>,
                              posts: seq<Step>)
  {
    && |marks| == |turns| <= |queue|
    && (forall i :: 0 <= i < |turns| ==>
          Played(ctx, maxRetries, queue[i], turns[i]) && Done(turns[i]) && StopOf(turns[i]).None?
          && (marks[i] <==> Refused(turns[i])))
    && posts == PostsOfTurns(ctx, queue, turns)
  }

  /** The whole course of a pass: turn after turn on the oldest record left, until one has an error
      that is no rejection, or nothing is left. Whatever ended it, and the losses before, are in
      the error; without such an end it is the last rejection, if there was one. */
  ghost predicate Course(ctx: Context, maxRetries: nat, queue: seq<Record>, after: seq<Record>, turns: seq<Turn>,
                         marks: seq<bool>, posts: seq<Step>, err: Option<Error>)
  {
    && |marks| <= |queue|
    && var lost := LostIn(queue[..|marks|], marks);
       if turns != [] && StopOf(turns[|turns| - 1]).Some? then
         var n := |turns| - 1;
         var last := turns[n];
         && n < |queue| && Played(ctx, maxRetries, queue[n], last) && n <= |marks|
         && WentThrough(ctx, maxRetries, queue, turns[..n], marks[..n], PostsOfTurns(ctx, queue, turns[..n]))
         && posts == PostsOfTurns(ctx, queue, turns)
         && (if Done(last) then marks == marks[..n] + [false] && after == queue[n + 1..]
             else |marks| == n && after == [StandsAs(maxRetries, last)] + queue[n + 1..])
         && err == Some(if lost > 0 then Recovery(lost, true, StopOf(last).value, true) else StopOf(last).value)
       else
         && |turns| == |queue| && after == []
         && WentThrough(ctx, maxRetries, queue, turns, marks, posts)
         && (lost > 0 <==> LastRefusal(turns).Some?)
         && err == (if lost > 0 then Some(Recovery(lost, false, LastRefusal(turns).value, true)) else None)
  }

  /** recoveryResult in production wiring. */
  function RecoveryResult(lost: int, blocked: bool, cause: Option<Error>): Option<Error>
    requires lost > 0 ==> cause.Some?
  {
    if lost > 0 then Some(Recovery(lost, blocked, cause.value, true)) else cause
  }

  lemma WitnessedStays(posts: seq<Step>, more: seq<Step>, body: Body, rejected: bool)
    requires Witnessed(posts, body, rejected) || Witnessed(more, body, rejected)
    ensures Witnessed(posts + more, body, rejected)
  {
    if Witnessed(posts, body, rejected) {
      var i :| 0 <= i < |posts| && posts[i].Posted? && posts[i].body == body
               && (if rejected then Rejects(posts[i].reply) else Accepts(posts[i].reply));
      assert (posts + more)[i] == posts[i];
    } else {
      var i :| 0 <= i < |more| && more[i].Posted? && more[i].body == body
               && (if rejected then Rejects(more[i].reply) else Accepts(more[i].reply));
      assert (posts + more)[|posts| + i] == more[i];
    }
  }

  /** One more record is worked off. */
  lemma WorkedOffGrows(queue: seq<Record>, marks: seq<bool>, lost: int, t0: Tally, t1: Tally, t2: Tally,
                       posts: seq<Step>, more: seq<Step>, rejected: bool)
    requires AllValid(queue) && |marks| < |queue|
    requires WorkedOff(queue, marks, lost, t0, t1, posts)
    requires t2 == Resolved(t1, queue[|marks|].eventCount, if rejected then queue[|marks|].eventCount else 0)
    requires Witnessed(more, queue[|marks|].body, rejected)
    ensures WorkedOff(queue, marks + [rejected], lost + if rejected then queue[|marks|].eventCount else 0, t0, t2,
                      posts + more)
  {
    var k, record := |marks|, queue[|marks|];
    TotalOfPrefix(queue, k);
    assert queue[..k + 1][..k] == queue[..k] && (marks + [rejected])[..k] == marks;
    ResolvedTwice(t0, Total(queue), Total(queue[..k]), lost, record.eventCount,
                  if rejected then record.eventCount else 0);
    AllWitnessedGrows(queue, marks, posts, more, rejected);
  }

  /** The pass ends with the error of a turn that left its record in the WAL. */
  lemma RecoveredUpTo(queue: seq<Record>, after: seq<Record>, marks: seq<bool>, lost: int, t0: Tally, t1: Tally,
                      posts: seq<Step>, cause: Error)
    requires AllValid(queue) && |marks| < |queue| && WorkedOff(queue, marks, lost, t0, t1, posts)
    requires SameButHeadPause(after, [queue[|marks|]] + queue[|marks| + 1..]) && FindRecovery(cause).None?
    ensures Recovered(queue, after, marks, t0, t1, posts, RecoveryResult(lost, true, Some(cause)))
  {
    assert queue[|marks|..] == [queue[|marks|]] + queue[|marks| + 1..];
    LostIsNatural(queue[..|marks|], marks);
  }

  /** The pass ends because the last record left the WAL with a sync warning only. */
  lemma RecoveredWithWarning(queue: seq<Record>, marks: seq<bool>, lost: int, t0: Tally, t1: Tally,
                             posts: seq<Step>, cause: Error)
    requires AllValid(queue) && 1 <= |marks| <= |queue| && WorkedOff(queue, marks, lost, t0, t1, posts)
    requires FindRecovery(cause).None?
    ensures Recovered(queue, queue[|marks|..], marks, t0, t1, posts, RecoveryResult(lost, true, Some(cause)))
  {
    LostIsNatural(queue[..|marks|], marks);
  }

  /** The pass got through the whole WAL. */
  lemma RecoveredAll(queue: seq<Record>, marks: seq<bool>, lost: int, t0: Tally, t1: Tally, posts: seq<Step>,
                     cause: Option<Error>)
    requires AllValid(queue) && |marks| == |queue| && WorkedOff(queue, marks, lost, t0, t1, posts)
    requires lost > 0 ==> cause.Some?
    requires lost == 0 ==> cause.None?
    ensures Recovered(queue, [], marks, t0, t1, posts, RecoveryResult(lost, false, cause))
  {
    LostIsNatural(queue[..|marks|], marks);
    assert queue[|marks|..] == [];
  }

  lemma {:induction false} LostIsNatural(records: seq<Record>, marks: seq<bool>)
    requires AllValid(records) && |marks| == |records|
    ensures LostIn(records, marks) >= 0
  {
    if records != [] { LostIsNatural(records[..|records| - 1], marks[..|records| - 1]); }
  }

  /** A record whose pause is over is posted, and one whose pause runs is not, unless the context
      has ended or a write fails. */
  lemma PostedIffPauseIsOver(ctx: Context, maxRetries: nat, record: Record, t: Turn)
    requires Played(ctx, maxRetries, record, t) && t.start >= 0 && !Over(ctx, t.looked)
    requires t.replies == [] ==> !FileFailure(t.result.value)
    ensures t.replies != [] <==> record.pausedUntilMS <= 0 || record.pausedUntilMS * 1_000_000 <= t.start
    ensures t.replies == [] ==> t.result.value.Deferred? && t.result.value.untilMS * 1_000_000 > t.start
  {
  }

  /** A pass over one record, posted once and rejected for good. */
  lemma OneRefusalCourse(ctx: Context, maxRetries: nat, record: Record, start: int, reply: Reply)
    requires ValidRecord(record) && !PauseRuns(record, start) && !Over(ctx, start) && Rejects(reply)
    ensures var t := Turn(start, start, record, [reply], [], 0, PostError(reply));
      Course(ctx, maxRetries, [record], [], [t], [true], [Posted(record.body, reply, ctx)],
             Some(Recovery(record.eventCount, false, PostError(reply).value, true)))
  {
    var t := Turn(start, start, record, [reply], [], 0, PostError(reply));
    assert [reply][..0] == [];
    assert [t][..0] == [] && [t][..1] == [t] && [record][..1] == [record] && [record][..0] == [] && [true][..0] == [];
    assert LostIn([record], [true]) == LostIn([], []) + record.eventCount;
    assert PostsOfTurns(ctx, [record], [t]) == [] + PostsOf(ctx, record.body, [reply]);
    assert PostsOf(ctx, record.body, [reply]) == [Posted(record.body, reply, ctx)];
    assert Done(t) && Refused(t) && LastRefusal([t]) == t.result;
  }

  /** A pass after `i` of its turns: `lost` and `lastTerminal` are what it remembers of them. */
  ghost predicate Underway(ctx: Context, maxRetries: nat, queue: seq<Record>, i: nat, turns: seq<Turn>,
                           marks: seq<bool>, lost: int, lastTerminal: Option<Error>, t0: Tally, t1: Tally,
                           posts: seq<Step>)
  {
    && AllValid(queue) && |turns| == i
    && WentThrough(ctx, maxRetries, queue, turns, marks, posts)
    && WorkedOff(queue, marks, lost, t0, t1, posts)
    && lastTerminal == LastRefusal(turns) && lost >= 0 && (lost > 0 <==> lastTerminal.Some?)
  }

  /** A pass that has ended. */
  ghost predicate PassEnded(ctx: Context, maxRetries: nat, queue: seq<Record>, after: seq<Record>, turns: seq<Turn>,
                        marks: seq<bool>, t0: Tally, t1: Tally, posts: seq<Step>, err: Option<Error>)
  {
    Recovered(queue, after, marks, t0, t1, posts, err)
    && Course(ctx, maxRetries, queue, after, turns, marks, posts, err)
  }

  lemma OneMoreTurn(ctx: Context, queue: seq<Record>, turns: seq<Turn>, t: Turn)
    requires |turns| < |queue|
    ensures PostsOfTurns(ctx, queue, turns + [t])
      == PostsOfTurns(ctx, queue, turns) + PostsOf(ctx, queue[|turns|].body, t.replies)
    ensures LastRefusal(turns + [t]) == if Refused(t) then t.result else LastRefusal(turns)
    ensures (turns + [t])[..|turns|] == turns && (turns + [t])[|turns|] == t
  {
    assert (turns + [t])[..|turns|] == turns;
  }

  /** One more turn that goes through. */
  lemma UnderwayGrows(ctx: Context, maxRetries: nat, queue: seq<Record>, turns: seq<Turn>, marks: seq<bool>, lost: int,
                      lastTerminal: Option<Error>, t0: Tally, t1: Tally, t2: Tally, after: seq<Record>, t: Turn,
                      posts: seq<Step>)
    requires Underway(ctx, maxRetries, queue, |turns|, turns, marks, lost, lastTerminal, t0, t1, posts)
    requires |turns| < |queue| && StopOf(t).None?
    requires Turned(ctx, maxRetries, queue[|turns|], queue[|turns| + 1..], after, t, t1, t2)
    ensures after == queue[|turns| + 1..]
    ensures var record := queue[|turns|];
      Underway(ctx, maxRetries, queue, |turns| + 1, turns + [t], marks + [Refused(t)],
               lost + (if Refused(t) then record.eventCount else 0), if Refused(t) then t.result else lastTerminal,
               t0, t2, posts + PostsOf(ctx, record.body, t.replies))
  {
    hide WorkedOff, Witnessed, Played, Resolved, PostsOfTurns, LastRefusal;
    var k, record := |turns|, queue[|turns|];
    TurnedFacts(ctx, maxRetries, record, queue[k + 1..], after, t, t1, t2);
    OneMoreTurn(ctx, queue, turns, t);
    WorkedOffGrows(queue, marks, lost, t0, t1, t2, posts, PostsOf(ctx, record.body, t.replies), Refused(t));
    assert ValidRecord(record);
  }

  /** A turn that ends the pass. */
  lemma UnderwayEnds(ctx: Context, maxRetries: nat, queue: seq<Record>, turns: seq<Turn>, marks: seq<bool>, lost: int,
                     lastTerminal: Option<Error>, t0: Tally, t1: Tally, t2: Tally, after: seq<Record>, t: Turn,
                     posts: seq<Step>)
    returns (marked: seq<bool>)
    requires Underway(ctx, maxRetries, queue, |turns|, turns, marks, lost, lastTerminal, t0, t1, posts)
    requires |turns| < |queue| && StopOf(t).Some?
    requires Turned(ctx, maxRetries, queue[|turns|], queue[|turns| + 1..], after, t, t1, t2)
    ensures PassEnded(ctx, maxRetries, queue, after, turns + [t], marked, t0, t2,
                      posts + PostsOf(ctx, queue[|turns|].body, t.replies), RecoveryResult(lost, true, StopOf(t)))
  {
    hide Witnessed, Played, Resolved, PostsOfTurns, LastRefusal, WorkedOff, Recovered, SameButHeadPause, WentThrough,
         Course, AllValid, Done, StandsAs;
    var k, record := |turns|, queue[|turns|];
    var more := PostsOf(ctx, record.body, t.replies);
    TurnedFacts(ctx, maxRetries, record, queue[k + 1..], after, t, t1, t2);
    ThroughLengths(ctx, maxRetries, queue, turns, marks, posts);
    if Done(t) {
      marked := marks + [false];
      WorkedOffGrows(queue, marks, lost, t0, t1, t2, posts, more, false);
      RecoveredWithWarning(queue, marked, lost, t0, t2, posts + more, StopOf(t).value);
    } else {
      marked := marks;
      MorePostsStayWorkedOff(queue, marks, lost, t0, t1, posts, more);
      RecoveredUpTo(queue, after, marks, lost, t0, t2, posts + more, StopOf(t).value);
    }
    WorkedOffLoss(queue, marked, lost, t0, t2, posts + more);
    CourseEnds(ctx, maxRetries, queue, after, turns, marks, marked, posts, t, lost);
  }

  lemma ThroughLengths(ctx: Context, maxRetries: nat, queue: seq<Record>, turns: seq<Turn>, marks: seq<bool>,
                       posts: seq<Step>)
    requires WentThrough(ctx, maxRetries, queue, turns, marks, posts)
    ensures |marks| == |turns|
  {
  }

  lemma CourseEnds(ctx: Context, maxRetries: nat, queue: seq<Record>, after: seq<Record>, turns: seq<Turn>,
                   marks: seq<bool>, marked: seq<bool>, posts: seq<Step>, t: Turn, lost: int)
    requires WentThrough(ctx, maxRetries, queue, turns, marks, posts) && |turns| < |queue| && StopOf(t).Some?
    requires Played(ctx, maxRetries, queue[|turns|], t)
    requires marked == if Done(t) then marks + [false] else marks
    requires after == if Done(t) then queue[|turns| + 1..] else [StandsAs(maxRetries, t)] + queue[|turns| + 1..]
    requires |marked| <= |queue| && lost == LostIn(queue[..|marked|], marked)
    ensures Course(ctx, maxRetries, queue, after, turns + [t], marked,
                   posts + PostsOf(ctx, queue[|turns|].body, t.replies), RecoveryResult(lost, true, StopOf(t)))
  {
    hide Played, PostsOfTurns, LostIn, StandsAs, Done;
    OneMoreTurn(ctx, queue, turns, t);
    assert marked[..|turns|] == marks;
  }

  lemma WorkedOffLoss(queue: seq<Record>, marks: seq<bool>, lost: int, t0: Tally, t1: Tally, posts: seq<Step>)
    requires WorkedOff(queue, marks, lost, t0, t1, posts)
    ensures |marks| <= |queue| && lost == LostIn(queue[..|marks|], marks)
  {
  }

  /** Nothing is left. */
  lemma UnderwayToTheEnd(ctx: Context, maxRetries: nat, queue: seq<Record>, turns: seq<Turn>, marks: seq<bool>,
                         lost: int, lastTerminal: Option<Error>, t0: Tally, t1: Tally, posts: seq<Step>)
    requires Underway(ctx, maxRetries, queue, |queue|, turns, marks, lost, lastTerminal, t0, t1, posts)
    ensures PassEnded(ctx, maxRetries, queue, [], turns, marks, t0, t1, posts,
                      RecoveryResult(lost, false, lastTerminal))
  {
    hide Played, Resolved, PostsOfTurns, LastRefusal, WorkedOff, Recovered;
    RecoveredAll(queue, marks, lost, t0, t1, posts, lastTerminal);
    WorkedOffLoss(queue, marks, lost, t0, t1, posts);
  }

  /** The oldest record alone is taken out or paused. */
  lemma HeadTakenOut(record: Record, rest: seq<Record>)
    ensures Without([record] + rest, record.batchId) == rest
  {
    assert ([record] + rest)[1..] == rest;
  }

  lemma HeadPaused(record: Record, rest: seq<Record>, untilMS: int)
    requires DistinctIds([record] + rest)
    ensures Paused([record] + rest, record.batchId, untilMS) == [record.(pausedUntilMS := untilMS)] + rest
  {
    var wal := [record] + rest;
    forall i | 0 < i < |wal| ensures wal[i].batchId != record.batchId { assert wal[0] == record; }
  }

  lemma HeadIsCarried(order: seq<string>, records: map<string, Record>, record: Record, rest: seq<Record>)
    requires Consistent(order, records) && Arrange(order, records) == [record] + rest
    ensures record.batchId in records && records[record.batchId] == record && ValidRecord(record)
    ensures DistinctIds([record] + rest)
    ensures Total([record] + rest) == record.eventCount + Total(rest) && Total(rest) >= 0
  {
    assert Arrange(order, records)[0] == records[order[0]];
    ArrangedFacts(order, records);
    assert ([record] + rest)[1..] == rest;
    assert AllValid(rest) by {
      forall i | 0 <= i < |rest| ensures ValidRecord(rest[i]) { assert ([record] + rest)[i + 1] == rest[i]; }
    }
    WalEventsCount(rest);
  }

  /** One sendRecord of the oldest record, as a turn of recovery. */
  lemma ConductedOnHead(ctx: Context, maxRetries: nat, record: Record, stood: Record, rest: seq<Record>,
                        after: seq<Record>, replies: seq<Reply>, naps: seq<Nap>, err: Option<Error>, looked: int,
                        start: int, clock: int)
    requires DistinctIds([stood] + rest) && CutDown(record, stood, start) && !PauseRuns(stood, start)
    requires !Over(ctx, looked)
    requires Conducted(ctx, maxRetries, [stood] + rest, after, stood.batchId, replies, naps, err, clock)
    ensures var t := Turn(looked, start, stood, replies, naps, clock, err);
      && Played(ctx, maxRetries, record, t)
      && after == (if Done(t) then rest else [StandsAs(maxRetries, t)] + rest)
      && Total(after) == (if Done(t) then 0 else stood.eventCount) + Total(rest)
      && (Refused(t) <==> err.Some? && FindTerminal(err.value).Some?)
      && (Done(t) && !Refused(t) <==> err.None? || IsDelivered(err.value))
  {
    hide Concluded, CutDown, DistinctIds, Total, Without, Paused;
    var last, untilMS := LastOf(replies), PauseUntil(HintOf(replies[|replies| - 1]), clock);
    ConcludedFacts(last, err, |replies| == maxRetries + 1, untilMS);
    HeadTakenOut(stood, rest);
    HeadPaused(stood, rest, untilMS);
    HeadCounts(stood, rest);
    HeadCounts(stood.(pausedUntilMS := untilMS), rest);
  }

  lemma HeldBackTurn(ctx: Context, maxRetries: nat, record: Record, stood: Record, rest: seq<Record>, stop: Error,
                     looked: int, time: int, tally: Tally)
    requires HeldBack(ctx, record, stood, looked, time, stop)
    ensures var t := Turn(looked, time, stood, [], [], 0, Some(stop));
      Turned(ctx, maxRetries, record, rest, [stood] + rest, t, tally, tally) && StopOf(t) == Some(stop) && !Refused(t)
  {
    hide HeldBack;
  }

  lemma HeadCounts(record: Record, rest: seq<Record>)
    ensures Total([record] + rest) == record.eventCount + Total(rest)
  {
    assert ([record] + rest)[1..] == rest;
  }

  class Transport {
    const maxRetries: nat
    const store: FileBatchStore
    const progress: Counters      // onRecoveryProgress, as New wires it

    constructor (maxRetries: nat, store: FileBatchStore, progress: Counters)
      ensures this.maxRetries == maxRetries && this.store == store && this.progress == progress
    {
      this.maxRetries, this.store, this.progress := maxRetries, store, progress;
    }

    /** Whether the context has ended by now. */
    method Ended(ctx: Context) returns (ended: bool, ghost time: int)
      ensures ended <==> Over(ctx, time)
    {
      var now: int := *;
      time := now;
      ended := Over(ctx, now);
    }

    /** sleepContext: the timer, or the end of the context if that comes first. */
    method SleepContext(ctx: Context, wait: int) returns (ended: bool, ghost nap: Nap)
      ensures nap.wait == wait
      ensures if ended then Over(ctx, nap.woke) else SleptThrough(ctx, nap)
    {
      var began: int, woke: int, late: bool := *, *, *;
      if ctx.Cancellable? && ctx.ends < began + wait && !late {
        return true, Nap(began, wait, ctx.ends, late);
      }
      if woke < began + wait { woke := began + wait; }
      ended := *;                                           // both may be ready by then
      if !Over(ctx, woke) { ended := false; }
      nap := Nap(began, wait, woke, late);
    }

    /** The endpoint answers anything or nothing; of a 429 the Retry-After header is read. */
    method Exchange() returns (reply: Reply, header: string, date: Option<int>, now: int)
      ensures reply.Reply? ==>
        reply.suggested == if reply.status == 429 then RetryTiming.ParseRetryAfter(header, date, now) else None
    {
      var answered: bool, status: int := *, *;
      header, date, now := *, *, *;
      if !answered { return NoReply, header, date, now; }
      var suggested := None;
      if status == 429 { suggested := RetryTiming.ParseRetryAfter(header, date, now); }
      reply := Reply(status, suggested);
    }

    method Answer() returns (reply: Reply)
    {
      var header, date, now;
      reply, header, date, now := Exchange();
    }

    /** post */
    method Post(ctx: Context, body: Body) returns (suggested: Option<int>, err: Option<Error>, ghost reply: Reply)
      requires store.Valid()
      modifies store`steps
      ensures store.Valid() && store.Wal() == old(store.Wal())
      ensures store.steps == old(store.steps) + [Posted(body, reply, ctx)]
      ensures err == PostError(reply)
      ensures suggested == if reply.Reply? && reply.status == 429 then reply.suggested else None
    {
      var answer := Answer();
      reply := answer;
      suggested, err := None, PostError(answer);
      if answer.Reply? && answer.status == 429 { suggested := answer.suggested; }
      PostAppended(store.origin, store.steps, body, reply, ctx);
      store.steps := store.steps + [Posted(body, reply, ctx)];
    }

    /** The journal so far obeys the write-ahead law (it has to only when there is a WAL). */
    ghost predicate Lawful()
      reads store
    {
      store.Enabled() ==> Law(store.origin, store.steps)
    }

    /** The record is in the WAL with this very body (or there is no WAL). */
    ghost predicate Carried(record: Record)
      reads store
    {
      store.Enabled() ==> record.batchId in store.records && store.records[record.batchId].body == record.body
    }

    /** store.acknowledge, seen from the WAL and the journal. */
    method Acknowledge(record: Record) returns (err: Option<Error>)
      requires store.Valid()
      modifies store
      ensures store.Valid()
      ensures err.Some? ==> FileFailure(err.value) && HasId(old(store.Wal()), record.batchId)
      ensures store.Wal() == if TookEffect(err) then Without(old(store.Wal()), record.batchId) else old(store.Wal())
      ensures Log(store.steps) == Log(old(store.steps)) && |old(store.steps)| <= |store.steps|
      ensures old(Lawful() && Carried(record) && Answered(store.steps, record.body)) ==> Lawful()
    {
      ghost var wal := store.Wal();
      ghost var origin, before, file := store.origin, store.steps, store.disk.file;
      ghost var carried := Lawful() && Carried(record) && Answered(store.steps, record.body);
      ghost var k := 0;
      ArrangedFacts(store.order, store.records);
      if store.Enabled() && record.batchId in store.records {
        k := PlaceOf(store.order, store.records, record.batchId);
      } else {
        WithoutAbsent(wal, record.batchId);
      }
      var faults: Faults := *;
      err := store.Acknowledge(record.batchId, faults);
      if store.Enabled() && record.batchId in old(store.records) {
        RewritePostsNothing(before, store.steps, file, store.disk.file);
        if carried { AcknowledgeIsLawful(origin, before, store.steps, store.disk.file, k); }
      }
    }

    /** store.pause, seen from the WAL and the journal. */
    method Pause(id: string, untilMS: int) returns (err: Option<Error>)
      requires store.Valid()
      modifies store
      ensures store.Valid()
      ensures err.Some? ==> FileFailure(err.value) && HasId(old(store.Wal()), id)
      ensures store.Wal() == if TookEffect(err) then Paused(old(store.Wal()), id, untilMS) else old(store.Wal())
      ensures Log(store.steps) == Log(old(store.steps)) && |old(store.steps)| <= |store.steps|
      ensures old(Lawful()) ==> Lawful()
    {
      ghost var wal := store.Wal();
      ghost var origin, before, file := store.origin, store.steps, store.disk.file;
      ghost var lawful := Lawful();
      ArrangedFacts(store.order, store.records);
      if !(store.Enabled() && id in store.records) {
        PausedAbsent(wal, id, untilMS);
      }
      var faults: Faults := *;
      err := store.Pause(id, untilMS, faults);
      if store.Enabled() && id in old(store.records) {
        RewritePostsNothing(before, store.steps, file, store.disk.file);
        if lawful { PauseIsLawful(origin, before, store.steps, store.disk.file, id, untilMS); }
      }
    }

    /** sendRecord after a 2xx: the record leaves the WAL. */
    method AfterAccept(record: Record, ghost last: Reply) returns (err: Option<Error>)
      requires store.Valid() && Accepts(last)
      modifies store
      ensures store.Valid() && Settled(old(store.Wal()), store.Wal(), record.batchId, last, err, false, 0)
      ensures Log(store.steps) == Log(old(store.steps)) && |old(store.steps)| <= |store.steps|
      ensures old(Lawful() && Carried(record) && Answered(store.steps, record.body)) ==> Lawful()
    {
      hide Mirrored, Consistent, Law, Log, Without, Paused, Total, Arrange;
      var storeErr := Acknowledge(record);
      if storeErr.Some? {
        FileFailureFacts(storeErr.value);
        if Committed(storeErr.value) { return Some(Delivered(storeErr.value)); }
        return storeErr;
      }
      return None;
    }

    /** sendRecord after a terminal 4xx: the record leaves the WAL too, and the error tells. */
    method AfterReject(record: Record, failure: Error, ghost last: Reply) returns (err: Option<Error>)
      requires store.Valid() && Rejects(last) && PostError(last) == Some(failure)
      modifies store
      ensures store.Valid() && Settled(old(store.Wal()), store.Wal(), record.batchId, last, err, false, 0)
      ensures err.Some?
      ensures Log(store.steps) == Log(old(store.steps)) && |old(store.steps)| <= |store.steps|
      ensures old(Lawful() && Carried(record) && Answered(store.steps, record.body)) ==> Lawful()
    {
      hide Mirrored, Consistent, Law, Log, Without, Paused, Total, Arrange;
      var storeErr := Acknowledge(record);
      if storeErr.Some? {
        FileFailureFacts(storeErr.value);
        if Committed(storeErr.value) { return Some(Joined(failure, storeErr.value)); }
        return storeErr;
      }
      return Some(failure);
    }

    /** sendRecord after its last attempt: the record stays, paused until the hint runs out. */
    method AfterExhaustion(record: Record, failure: Error, hint: Option<int>, ghost last: Reply)
      returns (err: Option<Error>, ghost clock: int)
      requires store.Valid() && !Final(last) && PostError(last) == Some(failure)
      modifies store
      ensures store.Valid()
      ensures Settled(old(store.Wal()), store.Wal(), record.batchId, last, err, true, PauseUntil(hint, clock))
      ensures err.Some? && !IsDelivered(err.value) && FindTerminal(err.value).None?
      ensures Log(store.steps) == Log(old(store.steps)) && |old(store.steps)| <= |store.steps|
      ensures old(Lawful()) ==> Lawful()
    {
      hide Mirrored, Consistent, Law, Log, Without, Paused, Total, Arrange;
      var now: int := *;
      clock := now;
      var untilMS := PauseUntil(hint, now);
      var storeErr := Pause(record.batchId, untilMS);
      if storeErr.Some? {
        FileFailureFacts(storeErr.value);
        return storeErr, clock;
      }
      WrappingKeepsFindings(failure, untilMS);
      return Some(RetryLater(Wrapped(failure), untilMS)), clock;
    }

    /** The wait before a retry; its context may end during it. */
    method Sleep(ctx: Context, attempt: nat, hint: Option<int>, ghost last: Reply)
      returns (ended: bool, ghost nap: Nap)
      requires attempt >= 1 && hint == HintOf(last)
      ensures WaitFollows(last, attempt, nap.wait)
      ensures if ended then Over(ctx, nap.woke) else SleptThrough(ctx, nap)
    {
      var delay := RetryTiming.DelayFor(attempt);
      if hint.Some? { delay := hint.value; }
      ended, nap := SleepContext(ctx, delay);
    }

    /** sendRecord */
    method SendRecord(ctx: Context, record: Record)
      returns (err: Option<Error>, ghost replies: seq<Reply>, ghost naps: seq<Nap>, ghost clock: int)
      requires store.Valid()
      modifies store
      ensures store.Valid()
      ensures Conducted(ctx, maxRetries, old(store.Wal()), store.Wal(), record.batchId, replies, naps, err, clock)
      ensures ctx.Background? && |replies| <= maxRetries ==> Final(replies[|replies| - 1])
      ensures Log(store.steps) == Log(old(store.steps)) + PostsOf(ctx, record.body, replies)
      ensures old(Lawful() && Carried(record)) ==> Lawful()
    {
      hide Mirrored, Consistent, Law, Log, Without, Paused, Total, Arrange, Settled, Conducted, Concluded, PauseFits,
           PauseUntil;
      replies, naps, clock := [], [], 0;
      ghost var wal, lawful := store.Wal(), Lawful() && Carried(record);
      var lastErr: Error, hint: Option<int> := Plain(""), None;
      assert Log(store.steps) + PostsOf(ctx, record.body, []) == Log(store.steps);
      for attempt := 0 to maxRetries + 1
        invariant store.Valid() && store.Wal() == wal
        invariant |replies| == attempt && |naps| == (if attempt == 0 then 0 else attempt - 1)
        invariant Unsettled(replies, naps) && AllSlept(ctx, naps)
        invariant attempt > 0 ==> Some(lastErr) == PostError(replies[attempt - 1])
        invariant attempt > 0 ==> hint == HintOf(replies[attempt - 1])
        invariant Log(store.steps) == Log(old(store.steps)) + PostsOf(ctx, record.body, replies)
        invariant lawful ==> Lawful() && Carried(record)
      {
        if attempt > 0 {
          var ended; ghost var nap;
          ended, nap := Sleep(ctx, attempt, hint, replies[attempt - 1]);
          WaitAppended(replies, naps, nap);
          AllSleptGrows(ctx, naps, nap);
          ghost var slept := naps;
          naps := slept + [nap];
          if ended {
            EndedDuringWait(ctx, maxRetries, wal, record.batchId, replies, slept, nap, clock);
            return Some(Wrapped(Cancelled)), replies, naps, clock;
          }
        }
        var suggested, failure; ghost var reply;
        suggested, failure, reply := Attempt(ctx, record, replies, lawful);
        ghost var past := replies;
        UnsettledGrows(past, naps, reply);
        replies := past + [reply];
        if failure.None? {
          err := AfterAccept(record, reply);
          EndedByAnswer(ctx, maxRetries, wal, store.Wal(), record.batchId, past, naps, reply, err, clock);
          return;
        }
        lastErr := failure.value;
        hint := if suggested.None? then None else Some(RetryTiming.BoundedRetryAfter(suggested.value));
        if FindTerminal(lastErr).Some? {
          err := AfterReject(record, lastErr, reply);
          EndedByAnswer(ctx, maxRetries, wal, store.Wal(), record.batchId, past, naps, reply, err, clock);
          return;
        }
      }
      err, clock := AfterExhaustion(record, lastErr, hint, replies[maxRetries]);
      EndedByExhaustion(ctx, maxRetries, wal, store.Wal(), record.batchId, replies, naps, err, clock);
    }

    /** One post of the record, entered into the journal. */
    method Attempt(ctx: Context, record: Record, ghost replies: seq<Reply>, ghost lawful: bool)
      returns (suggested: Option<int>, err: Option<Error>, ghost reply: Reply)
      requires store.Valid() && (lawful ==> Lawful() && Carried(record))
      modifies store`steps
      ensures store.Valid() && store.Wal() == old(store.Wal())
      ensures err == PostError(reply)
      ensures HintOf(reply) == if suggested.None? then None else Some(RetryTiming.BoundedRetryAfter(suggested.value))
      ensures forall before :: Log(old(store.steps)) == before + PostsOf(ctx, record.body, replies) ==>
        Log(store.steps) == before + PostsOf(ctx, record.body, replies + [reply])
      ensures lawful ==> Lawful() && Carried(record)
      ensures Final(reply) ==> Answered(store.steps, record.body)
    {
      hide Mirrored, Consistent, Law, Log, Without, Paused, Total, Arrange;
      ghost var before := store.steps;
      suggested, err, reply := Post(ctx, record.body);
      PostAppended(store.origin, before, record.body, reply, ctx);
      PostsOfGrows(ctx, record.body, replies, reply);
      if lawful && store.Enabled() { InWal(record); }
    }

    lemma InWal(record: Record)
      requires store.Valid() && store.Enabled() && Carried(record)
      ensures Holds(WalAfter(store.origin, store.steps), record.body)
    {
      var k := PlaceOf(store.order, store.records, record.batchId);
      assert store.Wal()[k].body == record.body;
    }

    /** The batch id is new to the WAL, as a random id is. */
    ghost predicate Fresh(payload: BatchPayload)
      reads store
    {
      store.Enabled() ==> payload.batchId !in store.records
    }

    /** store.put of a fresh record, seen from the WAL and the journal. */
    method PutRecord(record: Record) returns (err: Option<Error>)
      requires store.Valid()
      modifies store
      ensures store.Valid()
      ensures !store.Enabled() ==> err.None? && store.Wal() == [] && Log(store.steps) == Log(old(store.steps))
      ensures old(store.Enabled() && record.batchId !in store.records) ==>
        && store.Wal() == (if TookEffect(err) then old(store.Wal()) + [record] else old(store.Wal()))
        && (if old(store.Refusal(record)).Some? then err == old(store.Refusal(record))
            else err.Some? ==> FileFailure(err.value))
        && Log(store.steps) == Log(old(store.steps))
        && (old(Lawful()) ==> Lawful())
        && (TookEffect(err) ==> Carried(record))
    {
      hide Law, Log, Total, Survivors, Restartable, Lasting, Obeyed, Secured, WellFormed;
      ghost var origin, before, file := store.origin, store.steps, store.disk.file;
      ghost var fresh_, lawful := store.Enabled() && record.batchId !in store.records, Lawful();
      ghost var refused := store.Refusal(record).Some?;
      var faults: Faults := *;
      err := store.Put(record, faults);
      if fresh_ && !refused {
        RewritePostsNothing(before, store.steps, file, store.disk.file);
        if lawful { AppendIsLawful(origin, before, store.steps, store.disk.file, record); }
        if TookEffect(err) { LastIsCarried(store.order, store.records, record); }
      }
    }

    /** The same, with a write that failed before its commit point entered into the journal. */
    method Put(record: Record) returns (err: Option<Error>)
      requires store.Valid()
      modifies store
      ensures store.Valid()
      ensures !store.Enabled() ==> err.None? && store.Wal() == [] && Log(store.steps) == Log(old(store.steps))
      ensures old(store.Enabled() && record.batchId !in store.records) ==>
        && store.Wal() == (if TookEffect(err) then old(store.Wal()) + [record] else old(store.Wal()))
        && (if old(store.Refusal(record)).Some? then err == old(store.Refusal(record))
            else err.Some? ==> FileFailure(err.value))
        && Log(store.steps) == Log(old(store.steps)) + Misses(record.body, err)
        && (old(Lawful()) ==> Lawful())
        && (TookEffect(err) ==> Carried(record))
    {
      hide Log, Law, Consistent, Total, Restartable, AllValid;
      ghost var fresh_ := store.Enabled() && record.batchId !in store.records;
      err := PutRecord(record);
      if fresh_ && Misses(record.body, err) != [] {
        FileFailureFacts(err.value);
        MissAppended(store.origin, store.steps, record.body);
        store.steps := store.steps + [Missed(record.body)];
      }
    }

    /** send: write ahead, post with retries, and classify the outcome. */
    method Send(ctx: Context, payload: BatchPayload)
      returns (err: Option<Error>, ghost replies: seq<Reply>, ghost kept: int, ghost clock: int)
      requires store.Valid()
      modifies store
      ensures store.Valid()
      ensures |replies| <= maxRetries + 1
      ensures ctx.Background? && 1 <= |replies| <= maxRetries ==> Final(replies[|replies| - 1])
      ensures old(Fresh(payload)) ==> Dispatched(store.Enabled(), old(store.Refusal(RecordOf(payload))),
        old(store.Wal()), store.Wal(), RecordOf(payload), replies, err, kept)
      ensures old(Fresh(payload)) ==> Reported(store.Enabled(), maxRetries, replies, err, kept, clock)
      ensures old(Fresh(payload)) ==>
        Log(store.steps) == Log(old(store.steps)) + SendLog(ctx, Encoded(payload), replies, err)
      ensures old(Fresh(payload) && Lawful()) ==> Lawful()
    {
      hide *;
      ghost var wal, refusal, fresh_ := store.Wal(), store.Refusal(RecordOf(payload)), Fresh(payload);
      var record := RecordOf(payload);
      store.Facts();
      PayloadIsFresh(payload);
      var putErr := Put(record);
      TookEffectWhenNone(putErr);
      NothingToObey();
      SendLogs(ctx, Encoded(payload), putErr, [], None);
      if putErr.Some? {
        if fresh_ { MissesOfPut(Encoded(payload), putErr.value); }
        if fresh_ { DispatchedByPut(refusal, wal, store.Wal(), record, putErr.value); }
        NothingReported(store.Enabled(), maxRetries, Some(PutOutcome(putErr.value)), record.pausedUntilMS, 0);
        return Some(PutOutcome(putErr.value)), [], record.pausedUntilMS, 0;
      }
      err, replies, kept, clock := SendWritten(ctx, payload, wal, refusal, fresh_);
      NothingToObey();
      SendLogs(ctx, Encoded(payload), None, replies, err);
    }

    /** send once its record is written ahead (`before` is the WAL without it), or there is no WAL. */
    method SendWritten(ctx: Context, payload: BatchPayload, ghost before: seq<Record>, ghost refusal: Option<Error>,
                       ghost fresh_: bool)
      returns (err: Option<Error>, ghost replies: seq<Reply>, ghost kept: int, ghost clock: int)
      requires store.Valid()
      requires fresh_ ==> if store.Enabled() then store.Wal() == before + [RecordOf(payload)] && refusal.None?
        else store.Wal() == before
      modifies store
      ensures store.Valid()
      ensures 1 <= |replies| <= maxRetries + 1
      ensures ctx.Background? && |replies| <= maxRetries ==> Final(replies[|replies| - 1])
      ensures fresh_ ==>
        Dispatched(store.Enabled(), refusal, before, store.Wal(), RecordOf(payload), replies, err, kept)
      ensures fresh_ ==> Reported(store.Enabled(), maxRetries, replies, err, kept, clock)
      ensures Log(store.steps) == Log(old(store.steps)) + PostsOf(ctx, Encoded(payload), replies)
      ensures old(Lawful() && Carried(RecordOf(payload))) ==> Lawful()
    {
      hide *;
      ghost var written := store.Wal();
      PayloadIsFresh(payload);
      store.Facts();
      ghost var naps;
      err, replies, naps, clock := SendRecord(ctx, RecordOf(payload));
      store.Facts();
      AttemptsAreBounded(ctx, maxRetries, written, store.Wal(), RecordOf(payload).batchId, replies, naps, err, clock);
      kept := 0;
      if fresh_ {
        kept := DispatchedAfterPosts(ctx, store.Enabled(), maxRetries, refusal, before, written, store.Wal(),
                                     RecordOf(payload), replies, naps, err, clock);
      }
      if store.Enabled() { err := WalOutcome(err); }
    }

    lemma PayloadIsFresh(payload: BatchPayload)
      ensures Fresh(payload) && store.Enabled() ==> RecordOf(payload).batchId !in store.records
      ensures RecordOf(payload).body == Encoded(payload) && RecordOf(payload).pausedUntilMS == 0
      ensures !store.Enabled() ==> Carried(RecordOf(payload))
      ensures store.Refusal(RecordOf(payload)).Some? ==>
        store.Refusal(RecordOf(payload)).value.InvalidRecord? || store.Refusal(RecordOf(payload)).value.LimitExceeded?
    {
    }

    lemma NothingToObey()
      ensures !store.Enabled() ==> Lawful()
    {
    }

    /** persist: write ahead without posting. */
    method Persist(payload: BatchPayload) returns (err: Option<Error>)
      requires store.Valid()
      modifies store
      ensures store.Valid()
      ensures old(store.Enabled() && Fresh(payload)) ==> Stored(old(store.Refusal(RecordOf(payload))),
        old(store.Wal()), store.Wal(), RecordOf(payload), err)
      ensures old(Fresh(payload)) ==> Log(store.steps) == Log(old(store.steps)) + Misses(Encoded(payload), err)
      ensures old(Fresh(payload) && Lawful()) ==> Lawful()
    {
      hide Mirrored, Consistent, Law, Log, Without, Paused, Total, Arrange, Misses;
      ghost var wal, refusal := store.Wal(), store.Refusal(RecordOf(payload));
      ghost var fresh_ := store.Enabled() && Fresh(payload);
      var record := RecordOf(payload);
      var putErr := Put(record);
      if putErr.Some? {
        if fresh_ {
          RefusedFindings(putErr.value);
          MissesOfPut(Encoded(payload), putErr.value);
        }
        return Some(PutOutcome(putErr.value));
      }
      SendLogs(Background, Encoded(payload), None, [], None);
      return None;
    }

    /** A pause further away than a minute is cut down to one, in the WAL as well. */
    method CapPause(record: Record, now: int, ghost rest: seq<Record>)
      returns (capped: Record, err: Option<Error>, ghost stood: Record)
      requires store.Valid() && store.Wal() == [record] + rest
      modifies store
      ensures store.Valid() && Log(store.steps) == Log(old(store.steps))
      ensures CutDown(record, capped, now)
      ensures store.Wal() == [stood] + rest && stood == (if TookEffect(err) then capped else record)
      ensures err.Some? ==> FileFailure(err.value) && PausedTooLong(record, now)
      ensures old(Lawful()) ==> Lawful()
    {
      capped, err, stood := record, None, record;
      LatestPauseBound(now);
      if record.pausedUntilMS > 0 && Deadline(record.pausedUntilMS) > now + RetryTiming.MAX_RETRY_AFTER {
        capped := record.(pausedUntilMS := LatestPause(now));
        ArrangedFacts(store.order, store.records);
        HeadPaused(record, rest, capped.pausedUntilMS);
        err := Pause(record.batchId, capped.pausedUntilMS);
        stood := if TookEffect(err) then capped else record;
      }
    }

    /** The first half of one turn of recover: the context, the cap and the pause may each end
        the pass before anything is sent, but only while they hold: a record whose pause is over
        goes on. `stood` is how the record now stands in the WAL. */
    method HoldBack(ctx: Context, record: Record, ghost rest: seq<Record>)
      returns (stop: Option<Error>, capped: Record, ghost stood: Record, ghost looked: int, ghost time: int)
      requires store.Valid() && store.Wal() == [record] + rest
      modifies store
      ensures store.Valid() && store.Wal() == [stood] + rest
      ensures SameButPause(stood, record)
      ensures stop.None? ==>
        stood == capped && !Over(ctx, looked) && CutDown(record, capped, time) && !PauseRuns(capped, time)
      ensures stop.Some? ==> HeldBack(ctx, record, stood, looked, time, stop.value)
      ensures Log(store.steps) == Log(old(store.steps))
      ensures old(Lawful()) ==> Lawful()
    {
      hide Mirrored, Consistent, Law, Log, Without, Paused, Total, Arrange;
      var ended;
      ended, looked := Ended(ctx);
      if ended { return Some(Cancelled), record, record, looked, 0; }
      var now: int := *;
      time, stop := now, None;
      capped, stop, stood := CapPause(record, now, rest);
      if stop.Some? {
        FileFailureFacts(stop.value);
        return;
      }
      if capped.pausedUntilMS > 0 && Deadline(capped.pausedUntilMS) > now {
        stop := Some(Deferred(capped.pausedUntilMS));
      }
    }

    /** The second half: send the record again and book its outcome. `record` is what the pass
        began with, `stood` what is left of its pause. */
    method Resend(ctx: Context, stood: Record, ghost record: Record, ghost rest: seq<Record>, ghost looked: int,
                  ghost start: int)
      returns (stop: Option<Error>, rejection: Option<Error>, ghost t: Turn)
      requires store.Valid() && store.Wal() == [stood] + rest && store.Enabled()
      requires CutDown(record, stood, start) && !PauseRuns(stood, start) && !Over(ctx, looked)
      requires progress.store == store && Coupled(progress.Now(), store.PendingEvents())
      modifies store, progress
      ensures store.Valid() && Coupled(progress.Now(), store.PendingEvents())
      ensures Log(store.steps) == Log(old(store.steps)) + PostsOf(ctx, record.body, t.replies)
      ensures old(Lawful()) ==> Lawful()
      ensures t.replies != [] && stop == StopOf(t) && rejection == (if Refused(t) then t.result else None)
      ensures Turned(ctx, maxRetries, record, rest, store.Wal(), t, old(progress.Now()), progress.Now())
    {
      hide Mirrored, Consistent, Law, Log, Without, Paused, Total, Arrange, Conducted, Played, StandsAs, Resolved;
      ghost var replies, naps, clock;
      store.Facts();
      HeadIsCarried(store.order, store.records, stood, rest);
      stop, replies, naps, clock := SendRecord(ctx, stood);
      rejection := None;
      AttemptsAreBounded(ctx, maxRetries, [stood] + rest, store.Wal(), stood.batchId, replies, naps, stop, clock);
      ConductedOnHead(ctx, maxRetries, record, stood, rest, store.Wal(), replies, naps, stop, looked, start,
                      clock);
      t := Turn(looked, start, stood, replies, naps, clock, stop);
      store.Facts();
      if stop.Some? {
        if IsDelivered(stop.value) {
          progress.RecordRecoveryProgress(stood.eventCount, 0);
        } else if FindTerminal(stop.value).Some? {
          progress.RecordRecoveryProgress(stood.eventCount, stood.eventCount);
          rejection := stop;
          stop := None;
        }
      } else {
        progress.RecordRecoveryProgress(stood.eventCount, 0);
      }
    }

    /** One turn of recover for the oldest record. `stop` is the error that ends the pass;
        otherwise the record is gone, delivered (`rejection` none) or rejected for good. */
    method RecoverOne(ctx: Context, record: Record, ghost rest: seq<Record>)
      returns (stop: Option<Error>, rejection: Option<Error>, ghost t: Turn)
      requires store.Valid() && store.Wal() == [record] + rest && store.Enabled()
      requires progress.store == store && Coupled(progress.Now(), store.PendingEvents())
      modifies store, progress
      ensures store.Valid() && Coupled(progress.Now(), store.PendingEvents())
      ensures Log(store.steps) == Log(old(store.steps)) + PostsOf(ctx, record.body, t.replies)
      ensures old(Lawful()) ==> Lawful()
      ensures stop == StopOf(t) && rejection == (if Refused(t) then t.result else None)
      ensures Turned(ctx, maxRetries, record, rest, store.Wal(), t, old(progress.Now()), progress.Now())
    {
      hide Mirrored, Consistent, Law, Log, Without, Paused, Total, Arrange, HeldBack, CutDown, PauseRuns, Over, Turned,
           StopOf, Refused;
      var capped; ghost var stood, looked, time;
      store.Facts();
      HeadIsCarried(store.order, store.records, record, rest);
      stop, capped, stood, looked, time := HoldBack(ctx, record, rest);
      rejection := None;
      store.Facts();
      HeadIsCarried(store.order, store.records, stood, rest);
      if stop.Some? {
        t := Turn(looked, time, stood, [], [], 0, stop);
        HeldBackTurn(ctx, maxRetries, record, stood, rest, stop.value, looked, time, progress.Now());
        assert Log(store.steps) + PostsOf(ctx, record.body, []) == Log(store.steps);
        return;
      }
      stop, rejection, t := Resend(ctx, capped, record, rest, looked, time);
    }

    /** The loop of recover has worked off the first `i` records of the queue; `posts` are those
        of this pass, `before` the earlier ones. */
    ghost predicate Midway(ctx: Context, queue: seq<Record>, i: nat, lost: int, lastTerminal: Option<Error>,
                           turns: seq<Turn>, marks: seq<bool>, t0: Tally, before: seq<Step>, posts: seq<Step>)
      reads store, progress
    {
      && i <= |queue| && (queue != [] ==> store.Enabled())
      && store.Valid() && store.Wal() == queue[i..]
      && progress.store == store && Coupled(progress.Now(), store.PendingEvents())
      && Underway(ctx, maxRetries, queue, i, turns, marks, lost, lastTerminal, t0, progress.Now(), posts)
      && Log(store.steps) == before + posts
    }

    lemma MidwayFacts(ctx: Context, queue: seq<Record>, i: nat, lost: int, lastTerminal: Option<Error>,
                      turns: seq<Turn>, marks: seq<bool>, t0: Tally, before: seq<Step>, posts: seq<Step>)
      requires Midway(ctx, queue, i, lost, lastTerminal, turns, marks, t0, before, posts)
      ensures store.Valid() && Coupled(progress.Now(), store.PendingEvents()) && progress.store == store
      ensures Log(store.steps) == before + posts && (lost > 0 ==> lastTerminal.Some?)
      ensures i < |queue| ==> store.Enabled() && store.Wal() == [queue[i]] + queue[i + 1..]
      ensures |turns| == i
      ensures Underway(ctx, maxRetries, queue, i, turns, marks, lost, lastTerminal, t0, progress.Now(), posts)
      ensures i == |queue| ==> store.Wal() == []
    {
    }

    /** A pass about to start. */
    lemma MidwayAtFirst(ctx: Context, queue: seq<Record>)
      requires store.Valid() && progress.store == store && Coupled(progress.Now(), store.PendingEvents())
      requires queue == store.Wal()
      ensures Midway(ctx, queue, 0, 0, None, [], [], progress.Now(), Log(store.steps), [])
    {
      hide Log, Mirrored, Resolved;
      store.Facts();
      StartOfPass(store.order, store.records, progress.Now());
    }

    /** One turn of the loop of recover, on record `i` of the queue. */
    method RecoverAt(ctx: Context, queue: seq<Record>, i: nat, lost: int, lastTerminal: Option<Error>,
                     ghost turns: seq<Turn>, ghost marks: seq<bool>, ghost t0: Tally, ghost before: seq<Step>,
                     ghost done: seq<Step>)
      returns (stop: Option<Error>, lost': int, lastTerminal': Option<Error>, ghost turns': seq<Turn>,
               ghost marks': seq<bool>, ghost posts: seq<Step>)
      requires i < |queue| && Midway(ctx, queue, i, lost, lastTerminal, turns, marks, t0, before, done)
      modifies store, progress
      ensures stop.None? ==> Midway(ctx, queue, i + 1, lost', lastTerminal', turns', marks', t0, before, posts)
      ensures stop.Some? ==>
        && store.Valid() && Coupled(progress.Now(), store.PendingEvents())
        && PassEnded(ctx, maxRetries, queue, store.Wal(), turns', marks', t0, progress.Now(), posts,
                 RecoveryResult(lost, true, stop))
        && Log(store.steps) == before + posts
      ensures old(Lawful()) ==> Lawful()
    {
      hide Underway, PassEnded, Turned, Mirrored, Consistent, Law, Log, Total, Resolved, AllValid, Coupled;
      ghost var rest, t1 := queue[i + 1..], progress.Now();
      MidwayFacts(ctx, queue, i, lost, lastTerminal, turns, marks, t0, before, done);
      lost', lastTerminal' := lost, lastTerminal;
      var rejection; ghost var t;
      stop, rejection, t := RecoverOne(ctx, queue[i], rest);
      turns', marks', posts := turns + [t], marks + [Refused(t)], done + PostsOf(ctx, queue[i].body, t.replies);
      ConcatAssociates(before, done, PostsOf(ctx, queue[i].body, t.replies));
      if stop.Some? {
        marks' := UnderwayEnds(ctx, maxRetries, queue, turns, marks, lost, lastTerminal, t0, t1, progress.Now(),
                               store.Wal(), t, done);
        return;
      }
      TurnedFacts(ctx, maxRetries, queue[i], rest, store.Wal(), t, t1, progress.Now());
      UnderwayGrows(ctx, maxRetries, queue, turns, marks, lost, lastTerminal, t0, t1, progress.Now(), store.Wal(), t,
                    done);
      if rejection.Some? {
        lost' := lost + queue[i].eventCount;
        lastTerminal' := rejection;
      }
    }

    /** recover: the WAL is worked off oldest first until a record blocks the pass. */
    method Recover(ctx: Context)
      returns (err: Option<Error>, ghost turns: seq<Turn>, ghost marks: seq<bool>, ghost posts: seq<Step>)
      requires store.Valid()
      requires progress.store == store && Coupled(progress.Now(), store.PendingEvents())
      modifies store, progress
      ensures store.Valid() && Coupled(progress.Now(), store.PendingEvents())
      ensures Recovered(old(store.Wal()), store.Wal(), marks, old(progress.Now()), progress.Now(), posts, err)
      ensures Course(ctx, maxRetries, old(store.Wal()), store.Wal(), turns, marks, posts, err)
      ensures Log(store.steps) == Log(old(store.steps)) + posts
      ensures old(Lawful()) ==> Lawful()
    {
      hide *;
      turns, marks, posts := [], [], [];
      var lost := 0;
      var lastTerminal: Option<Error> := None;
      var queue := store.Snapshot();
      ghost var t0, before := progress.Now(), Log(store.steps);
      MidwayAtFirst(ctx, queue);
      for i := 0 to |queue|
        invariant Midway(ctx, queue, i, lost, lastTerminal, turns, marks, t0, before, posts)
        invariant old(Lawful()) ==> Lawful()
      {
        MidwayFacts(ctx, queue, i, lost, lastTerminal, turns, marks, t0, before, posts);
        var stop, lost', lastTerminal';
        stop, lost', lastTerminal', turns, marks, posts :=
          RecoverAt(ctx, queue, i, lost, lastTerminal, turns, marks, t0, before, posts);
        if stop.Some? {
          PassEndedIs(ctx, maxRetries, queue, store.Wal(), turns, marks, t0, progress.Now(), posts,
                  RecoveryResult(lost, true, stop));
          return RecoveryResult(lost, true, stop), turns, marks, posts;
        }
        lost, lastTerminal := lost', lastTerminal';
      }
      MidwayFacts(ctx, queue, |queue|, lost, lastTerminal, turns, marks, t0, before, posts);
      UnderwayToTheEnd(ctx, maxRetries, queue, turns, marks, lost, lastTerminal, t0, progress.Now(), posts);
      PassEndedIs(ctx, maxRetries, queue, [], turns, marks, t0, progress.Now(), posts,
              RecoveryResult(lost, false, lastTerminal));
      return RecoveryResult(lost, false, lastTerminal), turns, marks, posts;
    }
  }

  lemma PassEndedIs(ctx: Context, maxRetries: nat, queue: seq<Record>, after: seq<Record>, turns: seq<Turn>,
                marks: seq<bool>, t0: Tally, t1: Tally, posts: seq<Step>, err: Option<Error>)
    requires PassEnded(ctx, maxRetries, queue, after, turns, marks, t0, t1, posts, err)
    ensures Recovered(queue, after, marks, t0, t1, posts, err)
    ensures Course(ctx, maxRetries, queue, after, turns, marks, posts, err)
  {
  }

  /** Where a record stands in the log, and what taking it out leaves. */
  lemma PlaceOf(order: seq<string>, records: map<string, Record>, id: string) returns (k: nat)
    requires Consistent(order, records) && id in records
    ensures k < |order| && order[k] == id
    ensures Arrange(order, records)[k] == records[id]
    ensures Without(Arrange(order, records), id) == Arrange(order, records)[..k] + Arrange(order, records)[k + 1..]
  {
    k :| 0 <= k < |order| && order[k] == id;
    ArrangedFacts(order, records);
    WithoutAt(Arrange(order, records), k);
  }

  lemma LastIsCarried(order: seq<string>, records: map<string, Record>, record: Record)
    requires Consistent(order, records) && order != []
    requires Arrange(order, records)[|order| - 1] == record
    ensures record.batchId in records && records[record.batchId] == record
  {
  }

  lemma RefusedFindings(e: Error)
    requires FileFailure(e) || e.InvalidRecord? || e.LimitExceeded?
    ensures !IsDelivered(e) && !IsDurable(e) && FindTerminal(e).None? && FindRecovery(e).None?
    ensures !IsDelivered(Durable(e)) && FindTerminal(Durable(e)).None? && FindRecovery(Durable(e)).None?
    ensures Committed(e) <==> FileFailure(e) && e.committed
  {
    if FileFailure(e) { FileFailureFacts(e); }
  }

  lemma StartOfPass(order: seq<string>, records: map<string, Record>, t: Tally)
    requires Consistent(order, records) && Coupled(t, Total(Arrange(order, records)))
    ensures AllValid(Arrange(order, records))
    ensures WorkedOff(Arrange(order, records), [], 0, t, t, [])
  {
    ArrangedFacts(order, records);
  }

  lemma MorePostsStayWorkedOff(queue: seq<Record>, marks: seq<bool>, lost: int, t0: Tally, t1: Tally,
                               posts: seq<Step>, more: seq<Step>)
    requires WorkedOff(queue, marks, lost, t0, t1, posts)
    ensures WorkedOff(queue, marks, lost, t0, t1, posts + more)
  {
    forall i | 0 <= i < |marks| ensures Witnessed(posts + more, queue[i].body, marks[i]) {
      WitnessedStays(posts, more, queue[i].body, marks[i]);
    }
  }
}
