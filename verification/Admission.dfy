/** Admission with every atomic operation as a step of its own: one caller at a time, by the
    client's lock, against the loop, which lowers `unsent` before it raises `durableCurrent`. */
module Admission {

  /** How far the caller in enqueue has come. `blind` is the size of the chunk that was in
      neither counter when it read the last one. */
  datatype Caller =
    | Away
    | Loading
    | HasUnsent(current: int)
    | HasOwned(current: int, owned: int)
    | HasAll(current: int, total: int, blind: int)
    | Pushing

  /** What the loop is at. In its hands are `part`, the events of the running send, and `rest`,
      the other halves of the chunk; `logged` tells whether the part is in the WAL, `denied` that
      the WAL had no room for it. */
  datatype Task =
    | Resting
    | Holding(part: int, rest: int, logged: bool, denied: bool)
    | Passing(part: int, rest: int)     // unsent lowered, durableCurrent not yet raised
    | Resolving(size: int)              // a recovered record left the WAL, no counter moved yet
    | Trimming                          // before updateRecoveryOwned

  /** Between cycles, where recovery takes place; in a cycle that recovery let go on; or in the
      hand-over of a shutdown that it did not. */
  datatype Cycle = Selecting | Draining | HandingOver

  /** What happened since the caller read unsent and until it has read durableCurrent: the
      charge at its first load; the events lowered and raised since, which it counts twice; the
      part lowered before and not raised yet, which it does not see; and the events recovery
      resolved before it read their counter. */
  datatype Window = Window(charge: int, twice: int, hidden: int, gone: int)

  datatype State = State(
    unsent: int, owned: int, durable: int,      // the three terms of the budget
    channel: int, pending: int, wal: int,       // events in the channel, in pending, in the WAL
    caller: Caller, task: Task, cycle: Cycle, window: Window,
    accepted: int, dropped: int,
    released: int,                              // events the loop let go of unlogged, settled one way or the other
    closed: bool, stopped: bool,
    warned: bool,                               // the last record left the WAL with a sync warning
    overlapped: bool,                           // some reservation was made blind
    bounced: bool,                              // some push found the channel full
    refused: bool)                              // some put found the WAL full

  datatype Move =
    | Begin | LoadUnsent | LoadOwned | LoadDurable | Reserve | Push
    | Receive | OpenCycle | Cut | Put | Unlog | SplitAt(size: int) | GiveUp(next: int)
    | LowerUnsent | RaiseDurable(next: int) | CloseCycle
    | Acknowledge(size: int, warning: bool) | LowerDurable | TrimOwned
    | SetClosed | SetStopped | HandOver

  function InPassing(t: Task): int {
    if t.Passing? then t.part else 0
  }

  /** Events reserved, owned by the WAL, or on their way from one to the other. */
  function Charge(s: State): int {
    s.unsent + s.owned + s.durable + InPassing(s.task)
  }

  function InHand(t: Task): int {
    match t
    case Holding(part, rest, _, _) => part + rest
    case Passing(_, rest) => rest
    case _ => 0
  }

  function Min(a: int, b: int): int {
    if a < b then a else b
  }

  /** What the loop does once a part is settled: the next one of `rest`, or back to its cycle. */
  function NextPart(rest: int, next: int): Task {
    if rest > 0 then Holding(next, rest - next, false, false) else Resting
  }

  predicate GoodNext(rest: int, next: int) {
    rest > 0 ==> 1 <= next <= rest
  }

  /** The caller has read unsent but not yet durableCurrent. */
  predicate Open(c: Caller) {
    c.HasUnsent? || c.HasOwned?
  }

  predicate Enabled(s: State, m: Move, flushSize: int) {
    match m
    case Begin => s.caller.Away? && !s.closed
    case LoadUnsent => s.caller.Loading?
    case LoadOwned => s.caller.HasUnsent?
    case LoadDurable => s.caller.HasOwned?
    case Reserve => s.caller.HasAll?
    case Push => s.caller.Pushing?
    case Receive => s.task.Resting? && s.channel > 0
    case OpenCycle => s.task.Resting? && s.cycle.Selecting? && s.wal == 0
    case Cut => s.task.Resting? && !s.cycle.Selecting? && s.pending > 0
    case Put => s.task.Holding? && !s.task.logged && !s.task.denied
    case Unlog => s.task.Holding? && s.task.logged
    case SplitAt(n) => s.task.Holding? && !s.task.logged && 1 <= n < s.task.part
    case GiveUp(next) => s.task.Holding? && !s.task.logged && GoodNext(s.task.rest, next)
    case LowerUnsent => s.task.Holding? && s.task.logged
    case RaiseDurable(next) => s.task.Passing? && GoodNext(s.task.rest, next)
    case CloseCycle => s.task.Resting? && s.cycle.Draining?
    case Acknowledge(n, _) => s.task.Resting? && s.cycle.Selecting? && 1 <= n <= s.wal
    case LowerDurable => s.task.Resolving?
    case TrimOwned => s.task.Trimming?
    case SetClosed => s.caller.Away?
    case SetStopped => s.closed
    case HandOver => s.stopped && s.task.Resting? && s.cycle.Selecting? && (s.wal > 0 || s.warned)
  }

  /** The window after a part was raised. */
  function Raised(s: State): Window
    requires s.task.Passing?
  {
    if !Open(s.caller) then s.window
    else if s.window.hidden > 0 then s.window.(hidden := 0)
    else s.window.(twice := s.window.twice + s.task.part)
  }

  function After(s: State, m: Move, flushSize: int, limit: int): State
    requires Enabled(s, m, flushSize)
  {
    match m
    case Begin => s.(caller := Loading)
    case LoadUnsent => s.(caller := HasUnsent(s.unsent), window := Window(Charge(s), 0, InPassing(s.task), 0))
    case LoadOwned => s.(caller := HasOwned(s.caller.current, s.owned))
    case LoadDurable =>
      s.(caller := HasAll(s.caller.current, s.caller.current + s.caller.owned + s.durable, InPassing(s.task)))
    case Reserve =>
      if s.caller.total >= limit then s.(caller := Away, dropped := s.dropped + 1)
      else if s.unsent != s.caller.current then s.(caller := Loading)
      else s.(unsent := s.unsent + 1, caller := Pushing, overlapped := s.overlapped || s.caller.blind > 0)
    case Push =>
      if s.channel < limit then s.(channel := s.channel + 1, accepted := s.accepted + 1, caller := Away)
      else s.(unsent := s.unsent - 1, bounced := true, caller := Away, dropped := s.dropped + 1)
    case Receive => s.(channel := s.channel - 1, pending := s.pending + 1)
    case OpenCycle => s.(cycle := Draining, warned := false)
    case Cut =>
      var n := Min(flushSize, s.pending);
      s.(pending := s.pending - n, task := Holding(n, 0, false, false))
    case Put =>
      if s.wal + s.task.part > limit then s.(refused := true, task := s.task.(denied := true))
      else s.(wal := s.wal + s.task.part, task := s.task.(logged := true))
    case Unlog => s.(wal := s.wal - s.task.part, task := s.task.(logged := false))
    case SplitAt(n) => s.(task := Holding(n, s.task.rest + s.task.part - n, false, false))
    case GiveUp(next) => s.(unsent := s.unsent - s.task.part, released := s.released + s.task.part,
                            task := NextPart(s.task.rest, next))
    case LowerUnsent => s.(unsent := s.unsent - s.task.part, task := Passing(s.task.part, s.task.rest))
    case RaiseDurable(next) => s.(durable := s.durable + s.task.part, task := NextPart(s.task.rest, next),
                                  window := Raised(s))
    case CloseCycle => s.(cycle := Selecting)
    case Acknowledge(n, warning) => s.(wal := s.wal - n, task := Resolving(n), warned := warning)
    case LowerDurable =>
      if s.owned > 0 then s.(task := Trimming)
      else s.(durable := s.durable - s.task.size, task := Trimming,
              window := if Open(s.caller) then s.window.(gone := s.window.gone + s.task.size) else s.window)
    case TrimOwned =>
      var rest := Min(s.wal, s.owned);
      s.(owned := rest, task := Resting,
         window := if s.caller.HasUnsent? then s.window.(gone := s.window.gone + s.owned - rest) else s.window)
    case SetClosed => s.(closed := true)
    case SetStopped => s.(stopped := true)
    case HandOver => s.(cycle := HandingOver)
  }

  /** A process starts with the events its WAL holds. */
  predicate Start(s: State, limit: int) {
    0 <= s.wal <= limit
    && s == State(0, s.wal, 0, 0, 0, s.wal, Away, Resting, Selecting, Window(0, 0, 0, 0), 0, 0, 0,
                  false, false, false, false, false, false)
  }

  /** How the WAL stands to the two counters that follow it. */
  predicate WalFollowed(s: State) {
    match s.task
    case Resting => s.wal == s.owned + s.durable
    case Holding(part, _, logged, _) => s.wal == s.owned + s.durable + (if logged then part else 0)
    case Passing(part, _) => s.wal == s.owned + s.durable + part
    case Resolving(n) => s.wal + n == s.owned + s.durable && n >= 1
    case Trimming => s.wal <= s.owned + s.durable && (s.owned == 0 ==> s.wal == s.durable)
  }

  /** What the values a caller has read so far still tell. */
  predicate CallerKnows(s: State, flushSize: int) {
    match s.caller
    case HasUnsent(current) => s.unsent <= current
    case HasOwned(current, owned) => s.unsent <= current && s.owned <= owned
    case HasAll(current, total, blind) =>
      && s.unsent <= current <= total && 0 <= blind <= flushSize
      && (s.unsent == current ==> Charge(s) <= total + blind)
    case _ => true
  }

  /** Which task fits which cycle. */
  predicate InCycle(s: State) {
    && (s.task.Holding? || s.task.Passing? ==> !s.cycle.Selecting?)
    && (s.task.Resolving? || s.task.Trimming? ==> s.cycle.Selecting?)
    && (s.cycle.Draining? ==> s.owned == 0)
    && (s.cycle.HandingOver? || s.owned == 0 || s.durable == 0)
    && (s.cycle.HandingOver? ==> s.stopped)
  }

  predicate Chunked(t: Task, flushSize: int) {
    && (t.Holding? ==> t.part >= 1 && t.rest >= 0 && t.part + t.rest <= flushSize)
    && (t.Passing? ==> t.part >= 1 && t.rest >= 0 && t.part + t.rest <= flushSize)
  }

  predicate Safe(s: State, flushSize: int, limit: int) {
    && s.owned >= 0 && s.durable >= 0 && 0 <= s.wal <= limit && s.channel >= 0 && s.pending >= 0
    && s.unsent == s.channel + s.pending + InHand(s.task) + (if s.caller.Pushing? then 1 else 0)
    && Chunked(s.task, flushSize) && InCycle(s) && WalFollowed(s) && CallerKnows(s, flushSize)
    && s.unsent <= limit
    && Charge(s) <= limit + flushSize
    && (!s.overlapped ==> Charge(s) <= limit)
    && (s.refused ==> s.overlapped)
    && (s.task.Holding? && s.task.denied ==> !s.task.logged && s.refused && s.wal + s.task.part > limit)
    && !s.bounced
    && (s.closed ==> s.caller.Away?) && (s.stopped ==> s.closed)
  }

  lemma StartIsSafe(s: State, flushSize: int, limit: int)
    requires Start(s, limit) && 1 <= flushSize <= limit
    ensures Safe(s, flushSize, limit) && Tracked(s)
  {
  }

  // Each move keeps the laws.

  /** A reservation that was not made blind is one the atomic enqueue would grant at the moment
      of its compare-and-swap; a blind one exceeds that by less than a chunk. */
  lemma ReservationIsJustified(s: State, flushSize: int, limit: int)
    requires Safe(s, flushSize, limit)
    requires s.caller.HasAll? && s.caller.total < limit && s.unsent == s.caller.current
    ensures s.caller.blind == 0 ==> s.unsent + s.owned + s.durable < limit
    ensures s.unsent + s.owned + s.durable < limit + s.caller.blind <= limit + flushSize
  {
  }

  /** A reservation that succeeds: unsent did not move since it was read, so what the caller
      added up is all there is, but for a chunk it could not see. */
  lemma ReservingKeepsSafe(s: State, flushSize: int, limit: int)
    requires Safe(s, flushSize, limit) && 1 <= flushSize <= limit
    requires s.caller.HasAll? && s.caller.total < limit && s.unsent == s.caller.current
    ensures Safe(After(s, Reserve, flushSize, limit), flushSize, limit)
  {
  }

  lemma FailingToReserveKeepsSafe(s: State, flushSize: int, limit: int)
    requires Safe(s, flushSize, limit) && 1 <= flushSize <= limit
    requires s.caller.HasAll? && (s.caller.total >= limit || s.unsent != s.caller.current)
    ensures Safe(After(s, Reserve, flushSize, limit), flushSize, limit)
  {
  }

  lemma ReadingKeepsSafe(s: State, m: Move, flushSize: int, limit: int)
    requires Safe(s, flushSize, limit) && 1 <= flushSize <= limit && Enabled(s, m, flushSize)
    requires m.Begin? || m.LoadUnsent? || m.LoadOwned? || m.LoadDurable?
    ensures Safe(After(s, m, flushSize, limit), flushSize, limit)
  {
  }

  lemma PushingKeepsSafe(s: State, m: Move, flushSize: int, limit: int)
    requires Safe(s, flushSize, limit) && 1 <= flushSize <= limit && Enabled(s, m, flushSize)
    requires m.Push?
    ensures Safe(After(s, m, flushSize, limit), flushSize, limit)
  {
  }

  lemma ReceivingKeepsSafe(s: State, m: Move, flushSize: int, limit: int)
    requires Safe(s, flushSize, limit) && 1 <= flushSize <= limit && Enabled(s, m, flushSize)
    requires m.Receive?
    ensures Safe(After(s, m, flushSize, limit), flushSize, limit)
  {
  }

  lemma CuttingKeepsSafe(s: State, m: Move, flushSize: int, limit: int)
    requires Safe(s, flushSize, limit) && 1 <= flushSize <= limit && Enabled(s, m, flushSize)
    requires m.Cut?
    ensures Safe(After(s, m, flushSize, limit), flushSize, limit)
  {
  }

  lemma CyclingKeepsSafe(s: State, m: Move, flushSize: int, limit: int)
    requires Safe(s, flushSize, limit) && 1 <= flushSize <= limit && Enabled(s, m, flushSize)
    requires m.OpenCycle? || m.CloseCycle?
    ensures Safe(After(s, m, flushSize, limit), flushSize, limit)
  {
  }

  lemma LoggingKeepsSafe(s: State, flushSize: int, limit: int)
    requires Safe(s, flushSize, limit) && 1 <= flushSize <= limit && Enabled(s, Put, flushSize)
    requires s.wal + s.task.part <= limit
    ensures Safe(After(s, Put, flushSize, limit), flushSize, limit)
  {
  }

  lemma DenyingKeepsSafe(s: State, flushSize: int, limit: int)
    requires Safe(s, flushSize, limit) && 1 <= flushSize <= limit && Enabled(s, Put, flushSize)
    requires s.wal + s.task.part > limit
    ensures Safe(After(s, Put, flushSize, limit), flushSize, limit)
  {
  }

  lemma UnloggingKeepsSafe(s: State, m: Move, flushSize: int, limit: int)
    requires Safe(s, flushSize, limit) && 1 <= flushSize <= limit && Enabled(s, m, flushSize)
    requires m.Unlog?
    ensures Safe(After(s, m, flushSize, limit), flushSize, limit)
  {
  }

  lemma SplittingKeepsSafe(s: State, m: Move, flushSize: int, limit: int)
    requires Safe(s, flushSize, limit) && 1 <= flushSize <= limit && Enabled(s, m, flushSize)
    requires m.SplitAt?
    ensures Safe(After(s, m, flushSize, limit), flushSize, limit)
  {
  }

  lemma GivingUpKeepsSafe(s: State, m: Move, flushSize: int, limit: int)
    requires Safe(s, flushSize, limit) && 1 <= flushSize <= limit && Enabled(s, m, flushSize)
    requires m.GiveUp?
    ensures Safe(After(s, m, flushSize, limit), flushSize, limit)
  {
  }

  lemma LoweringKeepsSafe(s: State, m: Move, flushSize: int, limit: int)
    requires Safe(s, flushSize, limit) && 1 <= flushSize <= limit && Enabled(s, m, flushSize)
    requires m.LowerUnsent?
    ensures Safe(After(s, m, flushSize, limit), flushSize, limit)
  {
  }

  lemma RaisingKeepsSafe(s: State, m: Move, flushSize: int, limit: int)
    requires Safe(s, flushSize, limit) && 1 <= flushSize <= limit && Enabled(s, m, flushSize)
    requires m.RaiseDurable?
    ensures Safe(After(s, m, flushSize, limit), flushSize, limit)
  {
  }

  lemma AcknowledgingKeepsSafe(s: State, m: Move, flushSize: int, limit: int)
    requires Safe(s, flushSize, limit) && 1 <= flushSize <= limit && Enabled(s, m, flushSize)
    requires m.Acknowledge?
    ensures Safe(After(s, m, flushSize, limit), flushSize, limit)
  {
  }

  lemma RecoveringKeepsSafe(s: State, m: Move, flushSize: int, limit: int)
    requires Safe(s, flushSize, limit) && 1 <= flushSize <= limit && Enabled(s, m, flushSize)
    requires m.LowerDurable?
    ensures Safe(After(s, m, flushSize, limit), flushSize, limit)
  {
  }

  lemma TrimmingKeepsSafe(s: State, m: Move, flushSize: int, limit: int)
    requires Safe(s, flushSize, limit) && 1 <= flushSize <= limit && Enabled(s, m, flushSize)
    requires m.TrimOwned?
    ensures Safe(After(s, m, flushSize, limit), flushSize, limit)
  {
  }

  lemma ClosingKeepsSafe(s: State, m: Move, flushSize: int, limit: int)
    requires Safe(s, flushSize, limit) && 1 <= flushSize <= limit && Enabled(s, m, flushSize)
    requires m.SetClosed? || m.SetStopped? || m.HandOver?
    ensures Safe(After(s, m, flushSize, limit), flushSize, limit)
  {
  }

  lemma AttemptKeepsSafe(s: State, flushSize: int, limit: int)
    requires Safe(s, flushSize, limit) && 1 <= flushSize <= limit && s.caller.HasAll?
    ensures Safe(After(s, Reserve, flushSize, limit), flushSize, limit)
  {
    hide Safe, After;
    if s.caller.total < limit && s.unsent == s.caller.current {
      ReservingKeepsSafe(s, flushSize, limit);
    } else {
      FailingToReserveKeepsSafe(s, flushSize, limit);
    }
  }

  lemma MoveKeepsSafe(s: State, m: Move, flushSize: int, limit: int)
    requires Safe(s, flushSize, limit) && 1 <= flushSize <= limit && Enabled(s, m, flushSize)
    ensures Safe(After(s, m, flushSize, limit), flushSize, limit)
  {
    hide Safe, After;
    match m
    case Begin | LoadUnsent | LoadOwned | LoadDurable => ReadingKeepsSafe(s, m, flushSize, limit);
    case Reserve => AttemptKeepsSafe(s, flushSize, limit);
    case Push => PushingKeepsSafe(s, m, flushSize, limit);
    case Receive => ReceivingKeepsSafe(s, m, flushSize, limit);
    case OpenCycle | CloseCycle => CyclingKeepsSafe(s, m, flushSize, limit);
    case Cut => CuttingKeepsSafe(s, m, flushSize, limit);
    case Put =>
      if s.wal + s.task.part <= limit { LoggingKeepsSafe(s, flushSize, limit); } else { DenyingKeepsSafe(s, flushSize,
          limit); }
    case Unlog => UnloggingKeepsSafe(s, m, flushSize, limit);
    case SplitAt(_) => SplittingKeepsSafe(s, m, flushSize, limit);
    case GiveUp(_) => GivingUpKeepsSafe(s, m, flushSize, limit);
    case LowerUnsent => LoweringKeepsSafe(s, m, flushSize, limit);
    case RaiseDurable(_) => RaisingKeepsSafe(s, m, flushSize, limit);
    case Acknowledge(_, _) => AcknowledgingKeepsSafe(s, m, flushSize, limit);
    case LowerDurable => RecoveringKeepsSafe(s, m, flushSize, limit);
    case TrimOwned => TrimmingKeepsSafe(s, m, flushSize, limit);
    case SetClosed | SetStopped | HandOver => ClosingKeepsSafe(s, m, flushSize, limit);
  }

  // ---- What a caller adds up, to the event ----

  /** The sum a caller arrives at, as its window accounts for it. */
  function Sum(w: Window): int {
    w.charge + w.twice - w.hidden - w.gone
  }

  /** The account of the window holds, and so do its bounds: what is counted twice was in unsent
      when it was read. */
  predicate Tracked(s: State) {
    var w := s.window;
    match s.caller
    case HasUnsent(current) => current + s.owned + s.durable == Sum(w) && Bounds(s, current) && Unraised(s)
    case HasOwned(current, owned) => current + owned + s.durable == Sum(w) && Bounds(s, current) && Unraised(s)
    case HasAll(current, total, _) =>
      total == Sum(w) && 0 <= w.twice <= current <= w.charge && w.hidden >= 0 && w.gone >= 0
    case _ => true
  }

  predicate Bounds(s: State, current: int) {
    var w := s.window;
    && 0 <= w.twice && w.hidden >= 0 && w.gone >= 0 && current <= w.charge
    && w.twice + s.unsent + (if w.hidden > 0 then 0 else InPassing(s.task)) <= current
  }

  /** The part lowered before the first load is the one still on its way. */
  predicate Unraised(s: State) {
    s.window.hidden > 0 ==> s.task.Passing? && s.task.part == s.window.hidden
  }

  lemma CallerKeepsTracked(s: State, m: Move, flushSize: int, limit: int)
    requires Safe(s, flushSize, limit) && Tracked(s) && Enabled(s, m, flushSize)
    requires m.Begin? || m.LoadUnsent? || m.LoadOwned? || m.LoadDurable? || m.Reserve? || m.Push?
    ensures Tracked(After(s, m, flushSize, limit))
  {
  }

  lemma SendKeepsTracked(s: State, m: Move, flushSize: int, limit: int)
    requires Safe(s, flushSize, limit) && Tracked(s) && Enabled(s, m, flushSize)
    requires m.Put? || m.Unlog? || m.SplitAt? || m.GiveUp? || m.LowerUnsent?
    ensures Tracked(After(s, m, flushSize, limit))
  {
  }

  lemma RaiseKeepsTracked(s: State, m: Move, flushSize: int, limit: int)
    requires Safe(s, flushSize, limit) && Tracked(s) && Enabled(s, m, flushSize) && m.RaiseDurable?
    ensures Tracked(After(s, m, flushSize, limit))
  {
  }

  lemma RecoveryKeepsTracked(s: State, m: Move, flushSize: int, limit: int)
    requires Safe(s, flushSize, limit) && Tracked(s) && Enabled(s, m, flushSize)
    requires m.Acknowledge? || m.LowerDurable?
    ensures Tracked(After(s, m, flushSize, limit))
  {
  }

  lemma TrimKeepsTracked(s: State, m: Move, flushSize: int, limit: int)
    requires Safe(s, flushSize, limit) && Tracked(s) && Enabled(s, m, flushSize)
    requires m.TrimOwned?
    ensures Tracked(After(s, m, flushSize, limit))
  {
  }

  lemma OtherKeepsTracked(s: State, m: Move, flushSize: int, limit: int)
    requires Safe(s, flushSize, limit) && Tracked(s) && Enabled(s, m, flushSize)
    requires m.Receive? || m.OpenCycle? || m.Cut? || m.CloseCycle? || m.SetClosed? || m.SetStopped? || m.HandOver?
    ensures Tracked(After(s, m, flushSize, limit))
  {
  }

  lemma MoveKeepsTracked(s: State, m: Move, flushSize: int, limit: int)
    requires Safe(s, flushSize, limit) && Tracked(s) && Enabled(s, m, flushSize)
    ensures Tracked(After(s, m, flushSize, limit))
  {
    hide Safe, Tracked, After, Enabled;
    match m
    case Begin | LoadUnsent | LoadOwned | LoadDurable | Reserve | Push => CallerKeepsTracked(s, m, flushSize, limit);
    case Put | Unlog | SplitAt(_) | GiveUp(_) | LowerUnsent => SendKeepsTracked(s, m, flushSize, limit);
    case RaiseDurable(_) => RaiseKeepsTracked(s, m, flushSize, limit);
    case Acknowledge(_, _) | LowerDurable => RecoveryKeepsTracked(s, m, flushSize, limit);
    case TrimOwned => TrimKeepsTracked(s, m, flushSize, limit);
    case Receive | OpenCycle | Cut | CloseCycle | SetClosed | SetStopped | HandOver => 
      OtherKeepsTracked(s, m, flushSize, limit);
  }

  // ---- Runs ----

  /** `moves` lead from `s` to `end`. */
  ghost predicate Leads(s: State, moves: seq<Move>, end: State, flushSize: int, limit: int)
    decreases |moves|
  {
    if moves == [] then end == s
    else
      Enabled(s, moves[0], flushSize) && Leads(After(s, moves[0], flushSize, limit), moves[1..], end, flushSize, limit)
  }

  /** Every run, whatever the interleaving, keeps the laws. */
  lemma {:induction false} EveryRunIsSafe(s: State, moves: seq<Move>, end: State, flushSize: int, limit: int)
    requires Safe(s, flushSize, limit) && Tracked(s) && 1 <= flushSize <= limit
    requires Leads(s, moves, end, flushSize, limit)
    ensures Safe(end, flushSize, limit) && Tracked(end)
    decreases |moves|
  {
    hide Safe, Tracked, Enabled, After;
    if moves != [] {
      MoveKeepsSafe(s, moves[0], flushSize, limit);
      MoveKeepsTracked(s, moves[0], flushSize, limit);
      EveryRunIsSafe(After(s, moves[0], flushSize, limit), moves[1..], end, flushSize, limit);
    }
  }

  /** Read off, from any start, at any point of any run: the reservations never exceed the queue
      limit, a reserved event finds room in the channel, the whole charge exceeds the limit by at
      most one chunk and only after a reservation made blind, and so does a put the WAL refuses. */
  lemma AdmissionIsSafe(s: State, moves: seq<Move>, end: State, flushSize: int, limit: int)
    requires Start(s, limit) && 1 <= flushSize <= limit && Leads(s, moves, end, flushSize, limit)
    ensures 0 <= end.unsent <= limit
    ensures end.caller.Pushing? ==> end.channel < limit
    ensures !end.bounced
    ensures Charge(end) <= limit + flushSize
    ensures !end.overlapped ==> Charge(end) <= limit && !end.refused
  {
    StartIsSafe(s, flushSize, limit);
    EveryRunIsSafe(s, moves, end, flushSize, limit);
  }

  /** When a call is turned away, exactly: at any point of any run, the sum the caller compares
      with the limit is the charge at its first load, plus what it counts twice, less what it
      cannot see and what recovery has resolved since. So without a hand-over begun and ended
      between its loads only a used-up budget turns it away; in vain, that is below the limit,
      it happens if and only if the surplus makes up the difference, and never below half. */
  lemma DropIsExact(s: State, moves: seq<Move>, end: State, flushSize: int, limit: int)
    requires Start(s, limit) && 1 <= flushSize <= limit && Leads(s, moves, end, flushSize, limit)
    requires end.caller.HasAll?
    ensures var w := end.window; var next := After(end, Reserve, flushSize, limit);
      && (next.dropped > end.dropped <==> w.charge + w.twice - w.hidden - w.gone >= limit)
      && (w.twice == 0 && next.dropped > end.dropped ==> w.charge >= limit)
      && (next.dropped > end.dropped && w.charge < limit <==> limit - w.twice + w.hidden + w.gone <= w.charge < limit)
      && (next.dropped > end.dropped ==> 2 * w.charge >= limit)
  {
    StartIsSafe(s, flushSize, limit);
    EveryRunIsSafe(s, moves, end, flushSize, limit);
  }

  lemma StoppedMove(s: State, m: Move, flushSize: int, limit: int)
    requires s.stopped && s.caller.Away? && s.closed && Enabled(s, m, flushSize)
    requires Safe(s, flushSize, limit)
    ensures var t := After(s, m, flushSize, limit);
      t.accepted == s.accepted && t.channel <= s.channel && t.unsent <= s.unsent && t.stopped
      && Charge(t) <= Charge(s) && (Charge(s) <= limit ==> t.refused == s.refused)
  {
  }

  /** Once stop was signalled no run accepts another event, the channel only empties and the
      charge only falls; so if the charge is within the limit by then, no put is refused any
      more. */
  lemma {:induction false} NothingAcceptedAfterStop(s: State, moves: seq<Move>, end: State, flushSize: int, limit: int)
    requires Safe(s, flushSize, limit) && 1 <= flushSize <= limit && Leads(s, moves, end, flushSize, limit)
    requires s.stopped
    ensures end.accepted == s.accepted && end.channel <= s.channel && end.unsent <= s.unsent
    ensures Charge(end) <= Charge(s)
    ensures Charge(s) <= limit ==> end.refused == s.refused
    decreases |moves|
  {
    hide Enabled, After, WalFollowed, CallerKnows, InCycle, Chunked;
    if moves != [] {
      MoveKeepsSafe(s, moves[0], flushSize, limit);
      StoppedMove(s, moves[0], flushSize, limit);
      NothingAcceptedAfterStop(After(s, moves[0], flushSize, limit), moves[1..], end, flushSize, limit);
    }
  }

  // ---- The hand-over of a shutdown ----

  /** The moves of persistPending on a disk that never fails: a chunk is given up only when the
      WAL has no room for it. */
  predicate Proper(s: State, m: Move, flushSize: int, limit: int) {
    && Enabled(s, m, flushSize)
    && (m.Receive? || m.Cut? || m.Put? || m.LowerUnsent? || m.RaiseDurable?
        || (m.GiveUp? && s.task.denied))
  }

  ghost predicate HandsOver(s: State, moves: seq<Move>, end: State, flushSize: int, limit: int)
    decreases |moves|
  {
    if moves == [] then end == s
    else
      && Proper(s, moves[0], flushSize, limit)
      && HandsOver(After(s, moves[0], flushSize, limit), moves[1..], end, flushSize, limit)
  }

  /** The moves a hand-over has left at most. */
  function Work(s: State): int {
    7 * s.channel + 6 * s.pending + match s.task
                                    case Holding(_, rest, logged,
                                                 denied) => 6 * rest + if logged || denied then 4 else 5
                                    case Passing(_, rest) => 6 * rest + 3
                                    case _ => 0
  }

  lemma ProperMove(s: State, m: Move, flushSize: int, limit: int)
    requires Safe(s, flushSize, limit) && 1 <= flushSize && s.cycle.HandingOver? && Proper(s, m, flushSize, limit)
    ensures var t := After(s, m, flushSize, limit);
      && t.cycle.HandingOver? && Charge(t) + t.released == Charge(s) + s.released && s.released <= t.released
      && (Charge(s) <= limit ==> t.released == s.released && t.refused == s.refused)
      && (t.released > s.released ==> t.refused && t.wal > limit - flushSize) && (s.refused ==> t.refused)
      && s.wal <= t.wal && Work(t) < Work(s)
  {
  }

  lemma {:induction false} HandOverKeepsAccount(s: State, moves: seq<Move>, end: State, flushSize: int, limit: int)
    requires Safe(s, flushSize, limit) && 1 <= flushSize <= limit && s.cycle.HandingOver?
    requires HandsOver(s, moves, end, flushSize, limit)
    ensures Safe(end, flushSize, limit) && end.cycle.HandingOver?
    ensures Charge(end) + end.released == Charge(s) + s.released && s.released <= end.released
    ensures Charge(s) <= limit ==> end.released == s.released && end.refused == s.refused
    ensures end.released > s.released || s.refused ==> end.refused
    ensures s.wal <= end.wal && (end.released > s.released ==> end.wal > limit - flushSize)
    ensures |moves| <= Work(s) - Work(end)
    decreases |moves|
  {
    hide Safe, Enabled, After, Charge, Work;
    if moves != [] {
      MoveKeepsSafe(s, moves[0], flushSize, limit);
      ProperMove(s, moves[0], flushSize, limit);
      HandOverKeepsAccount(After(s, moves[0], flushSize, limit), moves[1..], end, flushSize, limit);
    }
  }

  /** The exact condition under which a shutdown that hands over loses accepted events although
      no write fails: if and only if the charge is above the limit when it begins, and then at
      least the excess and less than a chunk more. Whatever is not lost is in the WAL for a
      restart. */
  lemma HandOverLosesIffOver(s: State, moves: seq<Move>, end: State, flushSize: int, limit: int)
    requires Safe(s, flushSize, limit) && 1 <= flushSize <= limit
    requires s.cycle.HandingOver? && s.task.Resting?
    requires HandsOver(s, moves, end, flushSize, limit)
    requires end.task.Resting? && end.channel == 0 && end.pending == 0
    ensures end.released > s.released <==> Charge(s) > limit
    ensures end.refused <==> s.refused || Charge(s) > limit
    ensures Charge(s) - limit <= end.released - s.released
    ensures Charge(s) > limit ==> end.released - s.released < Charge(s) - limit + flushSize
    ensures end.wal == Charge(s) - (end.released - s.released)
  {
    HandOverKeepsAccount(s, moves, end, flushSize, limit);
  }

  /** The same at stop: a loop that finds itself stopped with its recovery blocked loses events at
      shutdown, no write failing, if and only if the charge is above the limit. */
  lemma ShutdownLosesIffOver(s: State, moves: seq<Move>, end: State, flushSize: int, limit: int)
    requires Safe(s, flushSize, limit) && 1 <= flushSize <= limit && Enabled(s, HandOver, flushSize)
    requires HandsOver(After(s, HandOver, flushSize, limit), moves, end, flushSize, limit)
    requires end.task.Resting? && end.channel == 0 && end.pending == 0
    ensures end.released > s.released <==> Charge(s) > limit
    ensures Charge(s) > limit ==> Charge(s) - limit <= end.released - s.released < Charge(s) - limit + flushSize
  {
    hide HandsOver;
    MoveKeepsSafe(s, HandOver, flushSize, limit);
    HandOverLosesIffOver(After(s, HandOver, flushSize, limit), moves, end, flushSize, limit);
  }

  /** Every hand-over ends: no run of one makes more moves than there is work, and a run that has
      not emptied channel, pending and the loop's hands has a next move. */
  lemma HandOverEnds(s: State, moves: seq<Move>, end: State, flushSize: int, limit: int) returns (next: Move)
    requires Safe(s, flushSize, limit) && 1 <= flushSize <= limit && s.cycle.HandingOver?
    requires HandsOver(s, moves, end, flushSize, limit)
    ensures |moves| <= Work(s)
    ensures (end.task.Resting? && end.channel == 0 && end.pending == 0) || Proper(end, next, flushSize, limit)
  {
    HandOverKeepsAccount(s, moves, end, flushSize, limit);
    next := match end.task
      case Holding(_, _, true, _) => LowerUnsent
      case Holding(_, _, false, true) => GiveUp(1)
      case Holding(_, _, false, false) => Put
      case Passing(_, _) => RaiseDurable(1)
      case _ => if end.channel > 0 then Receive else Cut;
  }

  lemma FirstOfHandOver(s: State, m: Move, rest: seq<Move>, end: State, flushSize: int, limit: int)
    requires Proper(s, m, flushSize, limit) && HandsOver(After(s, m, flushSize, limit), rest, end, flushSize, limit)
    ensures HandsOver(s, [m] + rest, end, flushSize, limit)
  {
    hide Proper, After;
    assert ([m] + rest)[1..] == rest;
  }

  lemma {:induction false} HandOverIsRun(s: State, moves: seq<Move>, end: State, flushSize: int, limit: int)
    requires HandsOver(s, moves, end, flushSize, limit)
    ensures Leads(s, moves, end, flushSize, limit)
    decreases |moves|
  {
    if moves != [] {
      HandOverIsRun(After(s, moves[0], flushSize, limit), moves[1..], end, flushSize, limit);
    }
  }

  /** Every hand-over can be completed: each chunk is retained or given up. */
  lemma {:induction false} HandOverCompletes(s: State, flushSize: int, limit: int)
    returns (moves: seq<Move>, end: State)
    requires 1 <= flushSize && s.cycle.HandingOver? && s.task.Resting? && s.channel >= 0 && s.pending >= 0
    ensures HandsOver(s, moves, end, flushSize, limit)
    ensures end.task.Resting? && end.channel == 0 && end.pending == 0 && end.accepted == s.accepted
    decreases s.channel + s.pending, s.channel
  {
    hide HandsOver;
    if s.channel > 0 {
      moves, end := HandOverCompletes(After(s, Receive, flushSize, limit), flushSize, limit);
      FirstOfHandOver(s, Receive, moves, end, flushSize, limit);
      moves := [Receive] + moves;
    } else if s.pending > 0 {
      var more, next := OneChunkOver(s, flushSize, limit);
      var rest;
      rest, end := HandOverCompletes(next, flushSize, limit);
      HandOverOnward(s, more, next, rest, end, flushSize, limit);
      moves := more + rest;
    } else {
      moves, end := [], s;
      NoHandOver(s, flushSize, limit);
    }
  }

  lemma NoHandOver(s: State, flushSize: int, limit: int)
    ensures HandsOver(s, [], s, flushSize, limit)
  {
  }

  lemma {:induction false} HandOverOnward(s: State, moves: seq<Move>, mid: State, more: seq<Move>, end: State,
                                          flushSize: int, limit: int)
    requires HandsOver(s, moves, mid, flushSize, limit) && HandsOver(mid, more, end, flushSize, limit)
    ensures HandsOver(s, moves + more, end, flushSize, limit)
    decreases |moves|
  {
    hide Enabled, After;
    if moves == [] {
      assert moves + more == more;
    } else {
      HandOverOnward(After(s, moves[0], flushSize, limit), moves[1..], mid, more, end, flushSize, limit);
      FirstOfHandOver(s, moves[0], moves[1..] + more, end, flushSize, limit);
      assert [moves[0]] + (moves[1..] + more) == moves + more;
    }
  }

  /** A chunk in hand for which the WAL has room. */
  lemma ChunkRetained(s: State, flushSize: int, limit: int) returns (moves: seq<Move>, next: State)
    requires s.task.Holding? && s.task.rest == 0 && !s.task.logged && !s.task.denied && s.wal + s.task.part <= limit
    ensures HandsOver(s, moves, next, flushSize, limit)
    ensures next == s.(wal := s.wal + s.task.part, unsent := s.unsent - s.task.part, durable := s.durable + s.task.part,
                       task := Resting, window := next.window)
  {
    hide HandsOver;
    var s1 := After(s, Put, flushSize, limit);
    var s2 := After(s1, LowerUnsent, flushSize, limit);
    next := After(s2, RaiseDurable(0), flushSize, limit);
    NoHandOver(next, flushSize, limit);
    FirstOfHandOver(s2, RaiseDurable(0), [], next, flushSize, limit);
    moves := [RaiseDurable(0)] + [];
    FirstOfHandOver(s1, LowerUnsent, moves, next, flushSize, limit);
    moves := [LowerUnsent] + moves;
    FirstOfHandOver(s, Put, moves, next, flushSize, limit);
    moves := [Put] + moves;
  }

  /** A chunk in hand for which it has none. */
  lemma ChunkGivenUp(s: State, flushSize: int, limit: int) returns (moves: seq<Move>, next: State)
    requires s.task.Holding? && s.task.rest == 0 && !s.task.logged && !s.task.denied && s.wal + s.task.part > limit
    ensures HandsOver(s, moves, next, flushSize, limit)
    ensures next == s.(unsent := s.unsent - s.task.part, released := s.released + s.task.part, refused := true,
                       task := Resting)
  {
    hide HandsOver;
    var s1 := After(s, Put, flushSize, limit);
    next := After(s1, GiveUp(0), flushSize, limit);
    NoHandOver(next, flushSize, limit);
    FirstOfHandOver(s1, GiveUp(0), [], next, flushSize, limit);
    moves := [GiveUp(0)] + [];
    FirstOfHandOver(s, Put, moves, next, flushSize, limit);
    moves := [Put] + moves;
  }

  lemma OneChunkOver(s: State, flushSize: int, limit: int) returns (moves: seq<Move>, next: State)
    requires 1 <= flushSize && s.cycle.HandingOver? && s.task.Resting? && s.channel == 0 && s.pending > 0
    ensures HandsOver(s, moves, next, flushSize, limit)
    ensures next.cycle.HandingOver? && next.task.Resting? && next.channel == 0 && 0 <= next.pending < s.pending
    ensures next.accepted == s.accepted
  {
    hide HandsOver;
    var s1 := After(s, Cut, flushSize, limit);
    if s1.wal + s1.task.part > limit {
      moves, next := ChunkGivenUp(s1, flushSize, limit);
    } else {
      moves, next := ChunkRetained(s1, flushSize, limit);
    }
    FirstOfHandOver(s, Cut, moves, next, flushSize, limit);
    moves := [Cut] + moves;
  }

  // ---- The bounds are reached, by moves the loop makes ----

  lemma First(s: State, m: Move, rest: seq<Move>, end: State, flushSize: int, limit: int)
    requires Enabled(s, m, flushSize) && Leads(After(s, m, flushSize, limit), rest, end, flushSize, limit)
    ensures Leads(s, [m] + rest, end, flushSize, limit)
  {
    hide Enabled, After;
    assert ([m] + rest)[1..] == rest;
  }

  lemma {:induction false} Onward(s: State, moves: seq<Move>, mid: State, more: seq<Move>, end: State, flushSize: int,
                                  limit: int)
    requires Leads(s, moves, mid, flushSize, limit) && Leads(mid, more, end, flushSize, limit)
    ensures Leads(s, moves + more, end, flushSize, limit)
    decreases |moves|
  {
    hide Enabled, After;
    if moves == [] {
      assert moves + more == more;
    } else {
      Onward(After(s, moves[0], flushSize, limit), moves[1..], mid, more, end, flushSize, limit);
      First(s, moves[0], moves[1..] + more, end, flushSize, limit);
      assert [moves[0]] + (moves[1..] + more) == moves + more;
    }
  }

  lemma NoMoves(s: State, flushSize: int, limit: int)
    ensures Leads(s, [], s, flushSize, limit)
  {
  }

  /** One enabled move. */
  lemma OneMove(s: State, m: Move, flushSize: int, limit: int)
    requires Enabled(s, m, flushSize)
    ensures Leads(s, [m], After(s, m, flushSize, limit), flushSize, limit)
  {
    hide Enabled, After;
    NoMoves(After(s, m, flushSize, limit), flushSize, limit);
    First(s, m, [], After(s, m, flushSize, limit), flushSize, limit);
    assert [m] + [] == [m];
  }

  /** The state after one undisturbed call, or several. */
  function WithArrivals(s: State, n: nat): State
    decreases n
  {
    if n == 0 then s
    else
      var t := WithArrivals(s, n - 1);
      t.(unsent := t.unsent + 1, channel := t.channel + 1, accepted := t.accepted + 1,
         overlapped := t.overlapped || InPassing(t.task) > 0, window := Window(Charge(t), 0, InPassing(t.task), 0))
  }

  lemma {:induction false} ArrivalsAddUp(s: State, n: nat)
    ensures var t := WithArrivals(s, n);
      t == s.(unsent := s.unsent + n, channel := s.channel + n, accepted := s.accepted + n,
              overlapped := t.overlapped, window := t.window)
    ensures WithArrivals(s, n).overlapped == (s.overlapped || (n > 0 && InPassing(s.task) > 0))
  {
    if n > 0 { ArrivalsAddUp(s, n - 1); }
  }

  predicate HasRoom(s: State, n: int, limit: int) {
    && s.caller.Away? && !s.closed && n >= 0
    && s.unsent + s.owned + s.durable + n <= limit && s.channel + n <= limit
  }

  lemma OneArrives(s: State, flushSize: int, limit: int) returns (moves: seq<Move>)
    requires HasRoom(s, 1, limit)
    ensures Leads(s, moves, WithArrivals(s, 1), flushSize, limit)
  {
    var end := WithArrivals(s, 1);
    assert WithArrivals(s, 0) == s;
    var s1 := After(s, Begin, flushSize, limit);
    var s2 := After(s1, LoadUnsent, flushSize, limit);
    var s3 := After(s2, LoadOwned, flushSize, limit);
    var s4 := After(s3, LoadDurable, flushSize, limit);
    var s5 := After(s4, Reserve, flushSize, limit);
    assert After(s5, Push, flushSize, limit) == end;
    NoMoves(end, flushSize, limit);
    First(s5, Push, [], end, flushSize, limit);
    First(s4, Reserve, [Push] + [], end, flushSize, limit);
    moves := [Reserve] + ([Push] + []);
    First(s3, LoadDurable, moves, end, flushSize, limit);
    moves := [LoadDurable] + moves;
    First(s2, LoadOwned, moves, end, flushSize, limit);
    moves := [LoadOwned] + moves;
    First(s1, LoadUnsent, moves, end, flushSize, limit);
    moves := [LoadUnsent] + moves;
    First(s, Begin, moves, end, flushSize, limit);
    moves := [Begin] + moves;
  }

  lemma {:induction false} ManyArrive(s: State, n: nat, flushSize: int, limit: int) returns (moves: seq<Move>)
    requires HasRoom(s, n, limit)
    ensures Leads(s, moves, WithArrivals(s, n), flushSize, limit)
    decreases n
  {
    hide Leads, Enabled, After;
    moves := [];
    if n == 0 {
      NoMoves(s, flushSize, limit);
      return;
    }
    var first := ManyArrive(s, n - 1, flushSize, limit);
    ArrivalsAddUp(s, n - 1);
    var mid := WithArrivals(s, n - 1);
    var more := OneArrives(mid, flushSize, limit);
    assert WithArrivals(mid, 1) == WithArrivals(s, n) by { assert WithArrivals(mid, 0) == mid; }
    Onward(s, first, mid, more, WithArrivals(s, n), flushSize, limit);
    moves := first + more;
  }

  /** The loop takes everything off the channel. */
  lemma {:induction false} ChannelDrains(s: State, flushSize: int, limit: int) returns (moves: seq<Move>)
    requires s.task.Resting? && s.channel >= 0
    ensures Leads(s, moves, s.(channel := 0, pending := s.pending + s.channel), flushSize, limit)
    decreases s.channel
  {
    moves := [];
    if s.channel > 0 {
      moves := ChannelDrains(After(s, Receive, flushSize, limit), flushSize, limit);
      First(s, Receive, moves, s.(channel := 0, pending := s.pending + s.channel), flushSize, limit);
      moves := [Receive] + moves;
    }
  }

  /** The state once the next chunk was written ahead and unsent lowered. */
  function ChunkPassed(s: State, flushSize: int): State {
    var n := Min(flushSize, s.pending);
    s.(pending := s.pending - n, wal := s.wal + n, unsent := s.unsent - n, task := Passing(n, 0))
  }

  /** The loop cuts a chunk, writes it ahead, gets no final answer and lowers unsent. */
  lemma ChunkPasses(s: State, flushSize: int, limit: int) returns (moves: seq<Move>)
    requires s.task.Resting? && !s.cycle.Selecting? && 1 <= flushSize && 1 <= s.pending
    requires s.wal + Min(flushSize, s.pending) <= limit
    ensures Leads(s, moves, ChunkPassed(s, flushSize), flushSize, limit)
  {
    var s1 := After(s, Cut, flushSize, limit);
    var s2 := After(s1, Put, flushSize, limit);
    var end := After(s2, LowerUnsent, flushSize, limit);
    NoMoves(end, flushSize, limit);
    First(s2, LowerUnsent, [], end, flushSize, limit);
    moves := [LowerUnsent] + [];
    First(s1, Put, moves, end, flushSize, limit);
    moves := [Put] + moves;
    First(s, Cut, moves, end, flushSize, limit);
    moves := [Cut] + moves;
  }

  function Idle(): State {
    State(0, 0, 0, 0, 0, 0, Away, Resting, Selecting, Window(0, 0, 0, 0), 0, 0, 0, false, false, false, false, false,
          false)
  }

  /** A first chunk, received event by event, is at its hand-over: in neither counter. */
  function FirstChunkPassed(flushSize: nat): State {
    var s := WithArrivals(Idle(), flushSize);
    ChunkPassed(s.(channel := 0, pending := s.channel, cycle := Draining), flushSize)
  }

  lemma FirstChunkPasses(flushSize: nat, limit: int) returns (moves: seq<Move>)
    requires 1 <= flushSize <= limit
    ensures Leads(Idle(), moves, FirstChunkPassed(flushSize), flushSize, limit)
    ensures var t := FirstChunkPassed(flushSize);
      t == State(0, 0, 0, 0, 0, flushSize, Away, Passing(flushSize, 0), Draining, t.window, flushSize, 0, 0,
                 false, false, false, false, false, false)
  {
    hide Leads, Enabled;
    ArrivalsAddUp(Idle(), flushSize);
    var s := WithArrivals(Idle(), flushSize);
    var received := s.(channel := 0, pending := s.channel);
    var open := After(received, OpenCycle, flushSize, limit) by { OpenIsEnabled(received, flushSize); }
    var a := ManyArrive(Idle(), flushSize, flushSize, limit);
    var b := ChannelDrains(s, flushSize, limit);
    OpenIsEnabled(received, flushSize);
    OneMove(received, OpenCycle, flushSize, limit);
    var c := ChunkPasses(open, flushSize, limit);
    Onward(Idle(), a, s, b, received, flushSize, limit);
    Onward(Idle(), a + b, received, [OpenCycle], open, flushSize, limit);
    Onward(Idle(), a + b + [OpenCycle], open, c, FirstChunkPassed(flushSize), flushSize, limit);
    moves := a + b + [OpenCycle] + c;
  }

  lemma OpenIsEnabled(s: State, flushSize: int)
    requires s.task.Resting? && s.cycle.Selecting? && s.wal == 0
    ensures Enabled(s, OpenCycle, flushSize)
  {
  }

  /** The fullest state: a whole chunk in neither counter, and callers who have filled the budget
      once more meanwhile. */
  function Fullest(flushSize: nat, limit: nat): State {
    WithArrivals(FirstChunkPassed(flushSize), limit)
  }

  /** The bound limit + flushSize is reached, for every configuration. */
  lemma BoundIsReached(flushSize: nat, limit: nat) returns (moves: seq<Move>)
    requires 1 <= flushSize <= limit
    ensures Start(Idle(), limit) && Leads(Idle(), moves, Fullest(flushSize, limit), flushSize, limit)
    ensures var t := Fullest(flushSize, limit);
      && Charge(t) == t.accepted == limit + flushSize
      && t == State(limit, 0, 0, limit, 0, flushSize, Away, Passing(flushSize, 0), Draining, t.window,
                    limit + flushSize, 0, 0,
                    false, false, false, true, false, false)
  {
    hide Leads, Enabled, After;
    var a := FirstChunkPasses(flushSize, limit);
    var s := FirstChunkPassed(flushSize);
    ArrivalsAddUp(s, limit);
    var b := ManyArrive(s, limit, flushSize, limit);
    Onward(Idle(), a, s, b, Fullest(flushSize, limit), flushSize, limit);
    moves := a + b;
  }

  /** From there to the hand-over: durableCurrent is raised, the client closed, the loop stopped,
      and its last recovery pass blocked at a retained record. */
  lemma ThenHandedOver(s: State, flushSize: nat, limit: nat) returns (moves: seq<Move>, end: State)
    requires s.task.Passing? && s.task.rest == 0 && s.cycle.Draining? && s.wal > 0 && s.caller.Away?
    ensures Leads(s, moves, end, flushSize, limit)
    ensures end.cycle.HandingOver? && end.task.Resting? && Charge(end) == Charge(s)
    ensures end.accepted == s.accepted && end.released == s.released && end.refused == s.refused
    ensures end.channel == s.channel && end.pending == s.pending
  {
    hide Leads;
    var s1 := After(s, RaiseDurable(0), flushSize, limit);
    var s2 := After(s1, CloseCycle, flushSize, limit);
    var s3 := After(s2, SetClosed, flushSize, limit);
    var s4 := After(s3, SetStopped, flushSize, limit);
    end := After(s4, HandOver, flushSize, limit);
    NoMoves(end, flushSize, limit);
    First(s4, HandOver, [], end, flushSize, limit);
    moves := [HandOver] + [];
    First(s3, SetStopped, moves, end, flushSize, limit);
    moves := [SetStopped] + moves;
    First(s2, SetClosed, moves, end, flushSize, limit);
    moves := [SetClosed] + moves;
    First(s1, CloseCycle, moves, end, flushSize, limit);
    moves := [CloseCycle] + moves;
    First(s, RaiseDurable(0), moves, end, flushSize, limit);
    moves := [RaiseDurable(0)] + moves;
  }

  /** The price of the bound, for every configuration: some run accepts limit + flushSize events,
      and the hand-over of its shutdown, on a disk that never fails, loses at least a chunk of
      them for want of room in the WAL. */
  lemma AcceptedEventsAreLost(flushSize: nat, limit: nat)
    returns (moves: seq<Move>, at: State, handOver: seq<Move>, end: State)
    requires 1 <= flushSize <= limit
    ensures Start(Idle(), limit) && Leads(Idle(), moves, at, flushSize, limit)
    ensures at.cycle.HandingOver? && at.accepted == limit + flushSize && at.released == 0 && !at.refused
    ensures HandsOver(at, handOver, end, flushSize, limit) && end.task.Resting? && end.channel == 0 && end.pending == 0
    ensures end.released >= flushSize && end.wal + end.released == limit + flushSize
  {
    hide Leads, HandsOver, Enabled, After, Safe, Tracked;
    var a := BoundIsReached(flushSize, limit);
    var s := Fullest(flushSize, limit);
    var b;
    b, at := ThenHandedOver(s, flushSize, limit);
    Onward(Idle(), a, s, b, at, flushSize, limit);
    moves := a + b;
    handOver, end := HandOverCompletes(at, flushSize, limit);
    StartIsSafe(Idle(), flushSize, limit);
    EveryRunIsSafe(Idle(), moves, at, flushSize, limit);
    HandOverLosesIffOver(at, handOver, end, flushSize, limit);
  }

  /** The state once everything pending was sent, chunk after chunk, and retained, while a caller
      stands between its loads. */
  function AllKept(s: State): State {
    s.(pending := 0, unsent := s.unsent - s.pending, durable := s.durable + s.pending, wal := s.wal + s.pending,
       window := s.window.(twice := s.window.twice + s.pending))
  }

  lemma {:induction false} EverythingKept(s: State, flushSize: nat, limit: nat) returns (moves: seq<Move>)
    requires s.task.Resting? && s.cycle.Draining? && s.pending >= 0 && s.wal + s.pending <= limit && 1 <= flushSize
    requires Open(s.caller) && s.window.hidden == 0
    ensures Leads(s, moves, AllKept(s), flushSize, limit)
    decreases s.pending
  {
    hide Leads;
    moves := [];
    if s.pending == 0 {
      NoMoves(s, flushSize, limit);
      return;
    }
    var passed := ChunkPassed(s, flushSize);
    var kept := After(passed, RaiseDurable(0), flushSize, limit);
    var a := ChunkPasses(s, flushSize, limit);
    OneMove(passed, RaiseDurable(0), flushSize, limit);
    var b := EverythingKept(kept, flushSize, limit);
    assert AllKept(kept) == AllKept(s);
    Onward(s, a, passed, [RaiseDurable(0)], kept, flushSize, limit);
    Onward(s, a + [RaiseDurable(0)], kept, b, AllKept(s), flushSize, limit);
    moves := a + [RaiseDurable(0)] + b;
  }

  /** `n` events wait in pending, in a cycle just begun, and a caller has read unsent and
      recoveryOwned. */
  function Between(n: nat): State {
    State(n, 0, 0, 0, n, 0, HasOwned(n, 0), Resting, Draining, Window(n, 0, 0, 0), n, 0, 0, false, false, false,
          false, false, false)
  }

  lemma UpToTheSecondLoad(n: nat, flushSize: nat, limit: nat) returns (moves: seq<Move>)
    requires n <= limit
    ensures Leads(Idle(), moves, Between(n), flushSize, limit)
  {
    hide Leads;
    ArrivalsAddUp(Idle(), n);
    var s1 := WithArrivals(Idle(), n);
    var s2 := After(s1, OpenCycle, flushSize, limit);
    var s3 := s2.(channel := 0, pending := n);
    var s4 := After(s3, Begin, flushSize, limit);
    var s5 := After(s4, LoadUnsent, flushSize, limit);
    var a := ManyArrive(Idle(), n, flushSize, limit);
    OneMove(s1, OpenCycle, flushSize, limit);
    var b := ChannelDrains(s2, flushSize, limit);
    NoMoves(Between(n), flushSize, limit);
    First(s5, LoadOwned, [], Between(n), flushSize, limit);
    First(s4, LoadUnsent, [LoadOwned] + [], Between(n), flushSize, limit);
    First(s3, Begin, [LoadUnsent] + ([LoadOwned] + []), Between(n), flushSize, limit);
    var c := [Begin] + ([LoadUnsent] + ([LoadOwned] + []));
    Onward(Idle(), a, s1, [OpenCycle], s2, flushSize, limit);
    Onward(Idle(), a + [OpenCycle], s2, b, s3, flushSize, limit);
    Onward(Idle(), a + [OpenCycle] + b, s3, c, Between(n), flushSize, limit);
    moves := a + [OpenCycle] + b + c;
  }

  /** A call turned away in vain, for every limit that has room for two: a process accepts half
      the limit, rounded up, in all its life and drops the next event, which counted the same
      events once in unsent and once more in durableCurrent. By DropIsExact no process does so
      with less, and none with a limit of one. */
  lemma CallerIsTurnedAwayInVain(flushSize: nat, limit: nat) returns (moves: seq<Move>, s: State, end: State)
    requires 1 <= flushSize <= limit && limit >= 2
    ensures Start(Idle(), limit) && Leads(Idle(), moves, s, flushSize, limit)
    ensures s.caller.HasAll? && s.window.charge == (limit + 1) / 2 < limit
    ensures end == After(s, Reserve, flushSize, limit) && end.dropped == 1
    ensures end.accepted == Charge(end) == (limit + 1) / 2
  {
    hide Leads;
    var n := (limit + 1) / 2;
    var a := UpToTheSecondLoad(n, flushSize, limit);
    var b := EverythingKept(Between(n), flushSize, limit);
    var kept := AllKept(Between(n));
    s := After(kept, LoadDurable, flushSize, limit);
    end := After(s, Reserve, flushSize, limit);
    OneMove(kept, LoadDurable, flushSize, limit);
    Onward(Idle(), a, Between(n), b, kept, flushSize, limit);
    Onward(Idle(), a + b, kept, [LoadDurable], s, flushSize, limit);
    moves := a + b + [LoadDurable];
  }
}
