/** Errors as the delivery engine builds and inspects them.

    Go errors form trees: a wrapper unwraps to its cause and a join to both of its parts.
    Every decision the batcher takes is an `errors.As` search through such a tree, so the
    tree and the searches are kept as they are. */
module Outcomes {

  datatype Option<+T> = None | Some(value: T)

  datatype Error =
    | Plain(text: string)
    | Cancelled                                  // ctx.Err()
    | Closed                                     // ErrClosed
    | Status(code: int)                          // "unexpected status"
    | Terminal(code: int)                        // terminalStatusError
    | InvalidRecord
    | Collision(batchId: string)
    | LimitExceeded(limit: int)
    | SplitLimit
    | Mutation(committed: bool, cause: Error)    // persistenceMutationError
    | Durable(cause: Error)                      // durableBatchError
    | Delivered(cause: Error)                    // deliveredBatchError
    | RetryLater(cause: Error, untilMS: int)     // retryAfterError
    | Deferred(untilMS: int)                     // recoveryDeferredError
    | Recovery(lost: int, blocked: bool, cause: Error, reported: bool)  // recoveryOutcomeError
    | Wrapped(cause: Error)                      // fmt.Errorf("...: %w")
    | Joined(first: Error, second: Error)        // errors.Join
    | Undelivered(count: int, why: Option<Error>)
    | LostEvents(lost: int, refused: int, why: Option<Error>)

  /** Whether `e` unwraps to exactly one error (a join unwraps to two). */
  predicate HasCause(e: Error) {
    match e
    case Mutation(_, _) | Durable(_) | Delivered(_) | RetryLater(_, _) | Recovery(_, _, _, _) | Wrapped(_) => true
    case Undelivered(_, why) => why.Some?
    case LostEvents(_, _, why) => why.Some?
    case _ => false
  }

  function CauseOf(e: Error): (cause: Error)
    requires HasCause(e)
    ensures cause < e
  {
    if e.Undelivered? || e.LostEvents? then e.why.value else e.cause
  }

  /** errors.As(err, *deliveredBatchError) */
  predicate IsDelivered(e: Error) {
    e.Delivered?
    || (e.Joined? && (IsDelivered(e.first) || IsDelivered(e.second)))
    || (HasCause(e) && IsDelivered(CauseOf(e)))
  }

  /** errors.As(err, *durableBatchError) */
  predicate IsDurable(e: Error) {
    e.Durable?
    || (e.Joined? && (IsDurable(e.first) || IsDurable(e.second)))
    || (HasCause(e) && IsDurable(CauseOf(e)))
  }

  /** errors.As(err, *terminalStatusError): the status of the first match. */
  function FindTerminal(e: Error): Option<int> {
    if e.Terminal? then Some(e.code)
    else if e.Joined? then
      var left := FindTerminal(e.first);
      if left.Some? then left else FindTerminal(e.second)
    else if HasCause(e) then FindTerminal(CauseOf(e))
    else None
  }

  /** persistenceMutationCommitted: the first mutation error decides. */
  function FindMutation(e: Error): Option<bool> {
    if e.Mutation? then Some(e.committed)
    else if e.Joined? then
      var left := FindMutation(e.first);
      if left.Some? then left else FindMutation(e.second)
    else if HasCause(e) then FindMutation(CauseOf(e))
    else None
  }

  /** An error of put, acknowledge or pause once the file was being written. */
  predicate FileFailure(e: Error) {
    e.Mutation? && e.cause.Plain?
  }

  lemma FileFailureFacts(e: Error)
    requires FileFailure(e)
    ensures !IsDelivered(e) && !IsDurable(e) && FindTerminal(e).None? && FindRecovery(e).None?
    ensures FindMutation(e) == Some(e.committed)
  {
    assert !IsDelivered(e.cause) && !IsDurable(e.cause) && FindTerminal(e.cause).None? && FindRecovery(e.cause).None?;
  }

  /** Wrapping hides nothing from errors.As. */
  lemma WrappingKeepsFindings(e: Error, untilMS: int)
    ensures IsDelivered(RetryLater(Wrapped(e), untilMS)) == IsDelivered(e)
    ensures IsDurable(RetryLater(Wrapped(e), untilMS)) == IsDurable(e)
    ensures FindTerminal(RetryLater(Wrapped(e), untilMS)) == FindTerminal(e)
    ensures FindRecovery(RetryLater(Wrapped(e), untilMS)) == FindRecovery(e)
  {
    var w := Wrapped(e);
    assert IsDelivered(w) == IsDelivered(e) && IsDurable(w) == IsDurable(e);
    assert FindTerminal(w) == FindTerminal(e) && FindRecovery(w) == FindRecovery(e);
  }

  /** The errors of a tree in the order errors.As meets them: itself, then what it wraps, and of a
      join first the one part, then the other. */
  function Met(e: Error): seq<Error> {
    match e
    case Mutation(_, cause) => [e] + Met(cause)
    case Durable(cause) => [e] + Met(cause)
    case Delivered(cause) => [e] + Met(cause)
    case RetryLater(cause, _) => [e] + Met(cause)
    case Recovery(_, _, cause, _) => [e] + Met(cause)
    case Wrapped(cause) => [e] + Met(cause)
    case Joined(first, second) => [e] + (Met(first) + Met(second))
    case Undelivered(_, why) => if why.Some? then [e] + Met(why.value) else [e]
    case LostEvents(_, _, why) => if why.Some? then [e] + Met(why.value) else [e]
    case _ => [e]
  }

  /** The status of the first terminal error in a list. */
  function FirstTerminal(list: seq<Error>): Option<int> {
    if list == [] then None else if list[0].Terminal? then Some(list[0].code) else FirstTerminal(list[1..])
  }

  /** Whether the first mutation error in a list committed. */
  function FirstMutation(list: seq<Error>): Option<bool> {
    if list == [] then None else if list[0].Mutation? then Some(list[0].committed) else FirstMutation(list[1..])
  }

  function FirstRecovery(list: seq<Error>): Option<Error> {
    if list == [] then None else if list[0].Recovery? then Some(list[0]) else FirstRecovery(list[1..])
  }

  lemma {:induction false} FirstOfTwo(a: seq<Error>, b: seq<Error>)
    ensures FirstTerminal(a + b) == if FirstTerminal(a).Some? then FirstTerminal(a) else FirstTerminal(b)
    ensures FirstMutation(a + b) == if FirstMutation(a).Some? then FirstMutation(a) else FirstMutation(b)
    ensures FirstRecovery(a + b) == if FirstRecovery(a).Some? then FirstRecovery(a) else FirstRecovery(b)
  {
    if a == [] {
      assert a + b == b;
    } else {
      assert (a + b)[1..] == a[1..] + b && (a + b)[0] == a[0];
      FirstOfTwo(a[1..], b);
    }
  }

  /** Each search finds the first match in that order, or finds that there is none. */
  lemma {:induction false} SearchesFindTheFirst(e: Error)
    ensures FindTerminal(e) == FirstTerminal(Met(e)) && FindMutation(e) == FirstMutation(Met(e))
    ensures FindRecovery(e) == FirstRecovery(Met(e))
  {
    if e.Joined? {
      SearchesFindTheFirst(e.first);
      SearchesFindTheFirst(e.second);
      FirstOfTwo(Met(e.first), Met(e.second));
      FirstOfTwo([e], Met(e.first) + Met(e.second));
    } else if HasCause(e) {
      SearchesFindTheFirst(CauseOf(e));
      FirstOfTwo([e], Met(CauseOf(e)));
    } else {
      assert Met(e) == [e];
    }
  }

  predicate MeetsDelivered(list: seq<Error>) {
    exists i :: 0 <= i < |list| && list[i].Delivered?
  }

  predicate MeetsDurable(list: seq<Error>) {
    exists i :: 0 <= i < |list| && list[i].Durable?
  }

  lemma MeetsInTwo(a: seq<Error>, b: seq<Error>)
    ensures MeetsDelivered(a + b) <==> MeetsDelivered(a) || MeetsDelivered(b)
    ensures MeetsDurable(a + b) <==> MeetsDurable(a) || MeetsDurable(b)
  {
    assert forall i :: 0 <= i < |a| ==> (a + b)[i] == a[i];
    assert forall i :: 0 <= i < |b| ==> (a + b)[|a| + i] == b[i];
  }

  lemma {:induction false} SearchesMeetTheKind(e: Error)
    ensures IsDelivered(e) <==> MeetsDelivered(Met(e))
    ensures IsDurable(e) <==> MeetsDurable(Met(e))
  {
    hide MeetsDelivered, MeetsDurable;
    MeetsOne(e);
    if e.Joined? {
      SearchesMeetTheKind(e.first);
      SearchesMeetTheKind(e.second);
      MeetsInTwo(Met(e.first), Met(e.second));
      MeetsInTwo([e], Met(e.first) + Met(e.second));
    } else if HasCause(e) {
      SearchesMeetTheKind(CauseOf(e));
      MeetsInTwo([e], Met(CauseOf(e)));
    } else {
      assert Met(e) == [e];
    }
  }

  lemma MeetsOne(e: Error)
    ensures MeetsDelivered([e]) <==> e.Delivered?
    ensures MeetsDurable([e]) <==> e.Durable?
  {
    assert [e][0] == e;
  }

  predicate Committed(e: Error) {
    FindMutation(e) == Some(true)
  }

  /** errors.As(err, *recoveryOutcomeError): the first match itself. */
  function FindRecovery(e: Error): (found: Option<Error>)
    ensures found.Some? ==> found.value.Recovery?
  {
    if e.Recovery? then Some(e)
    else if e.Joined? then
      var left := FindRecovery(e.first);
      if left.Some? then left else FindRecovery(e.second)
    else if HasCause(e) then FindRecovery(CauseOf(e))
    else None
  }
}
