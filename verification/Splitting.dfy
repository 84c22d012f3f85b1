/** The fate of one chunk: what deliver makes of the answers it gets, how far it splits a
    chunk the endpoint refuses whole, and when that isolates exactly the bad events. */
module Splitting {
  import opened Outcomes
  import opened Records

  const MAX_SPLIT_SENDS: nat := 64
  const BATCH_REJECT_STATUS: int := 400

  /** Delivered, lost for good, or retained in the WAL. */
  datatype Fate = Sent | Lost | Kept

  /** One run of deliver. A part is dropped when no send is left for it; it is settled by the
      answer to its own send; or that answer was a whole-batch rejection and it is halved. */
  datatype Split =
    | Dropped(events: seq<Event>)
    | Leaf(events: seq<Event>, answer: Option<Error>)
    | Halved(events: seq<Event>, rejection: Error, left: Split, right: Split)

  /** The answer makes deliver halve these events. */
  predicate Halves(events: seq<Event>, answer: Option<Error>) {
    && answer.Some? && !IsDelivered(answer.value)
    && FindTerminal(answer.value) == Some(BATCH_REJECT_STATUS) && |events| > 1
  }

  /** What becomes of events settled by this answer. */
  function FateOf(answer: Option<Error>): Fate {
    if answer.None? || IsDelivered(answer.value) then Sent
    else if IsDurable(answer.value) then Kept
    else Lost
  }

  /** The sends of a run. */
  function Sends(t: Split): nat {
    match t
    case Dropped(_) => 0
    case Leaf(_, _) => 1
    case Halved(_, _, left, right) => 1 + Sends(left) + Sends(right)
  }

  /** A run of deliver over `t.events` with `budget` sends left. */
  predicate RunOf(t: Split, budget: nat) {
    match t
    case Dropped(events) => |events| >= 1 && budget == 0
    case Leaf(events, answer) => |events| >= 1 && budget > 0 && !Halves(events, answer)
    case Halved(events, rejection, left, right) =>
      && budget > 0 && Halves(events, Some(rejection))
      && left.events == events[..|events| / 2] && right.events == events[|events| / 2..]
      && RunOf(left, budget - 1)
      && Sends(left) <= budget - 1
      && RunOf(right, budget - 1 - Sends(left))
  }

  function Repeat<T>(x: T, n: nat): (s: seq<T>)
    ensures |s| == n && forall i :: 0 <= i < n ==> s[i] == x
  {
    seq(n, _ => x)
  }

  /** The fate of every event, in order. */
  function Fates(t: Split): seq<Fate> {
    match t
    case Dropped(events) => Repeat(Lost, |events|)
    case Leaf(events, answer) => Repeat(FateOf(answer), |events|)
    case Halved(_, _, left, right) => Fates(left) + Fates(right)
  }

  /** The error deliver returns: that of the leftmost part that has one. */
  function FirstError(t: Split): Option<Error> {
    match t
    case Dropped(_) => Some(SplitLimit)
    case Leaf(_, answer) => answer
    case Halved(_, _, left, right) => if FirstError(left).Some? then FirstError(left) else FirstError(right)
  }

  /** The parts that were settled or dropped as they stood, left to right. */
  function Parts(t: Split): seq<Split> {
    match t
    case Halved(_, _, left, right) => Parts(left) + Parts(right)
    case _ => [t]
  }

  function Concat(parts: seq<Split>): seq<Event> {
    if parts == [] then [] else parts[0].events + Concat(parts[1..])
  }

  function Count(fates: seq<Fate>, fate: Fate): nat {
    if fates == [] then 0 else (if fates[0] == fate then 1 else 0) + Count(fates[1..], fate)
  }

  /** The events with one fate, in order. */
  function Select(events: seq<Event>, fates: seq<Fate>, fate: Fate): seq<Event>
    requires |events| == |fates|
  {
    if events == [] then []
    else (if fates[0] == fate then [events[0]] else []) + Select(events[1..], fates[1..], fate)
  }

  // ---- Accounting for an arbitrary endpoint ----

  /** However the endpoint answers: never more sends than the budget, and every event settled
      exactly once, part after part from left to right. */
  lemma {:induction false} EveryEventSettledOnce(t: Split, budget: nat)
    requires RunOf(t, budget)
    ensures Sends(t) <= budget
    ensures |Fates(t)| == |t.events| >= 1
    ensures Concat(Parts(t)) == t.events
    ensures Sends(t) <= 2 * |t.events| - 1
  {
    match t
    case Halved(events, _, left, right) =>
      EveryEventSettledOnce(left, budget - 1);
      EveryEventSettledOnce(right, budget - 1 - Sends(left));
      ConcatParts(Parts(left), Parts(right));
      assert events == events[..|events| / 2] + events[|events| / 2..];
    case _ =>
      assert Concat([t]) == t.events + Concat([t][1..]);
  }

  lemma {:induction false} ConcatParts(a: seq<Split>, b: seq<Split>)
    ensures Concat(a + b) == Concat(a) + Concat(b)
  {
    if a == [] {
      assert a + b == b;
    } else {
      assert (a + b)[1..] == a[1..] + b;
      ConcatParts(a[1..], b);
    }
  }

  ghost predicate All(fates: seq<Fate>, fate: Fate) {
    forall i :: 0 <= i < |fates| ==> fates[i] == fate
  }

  /** Each of these parts was sent, and accepted without a warning. */
  ghost predicate AllAccepted(parts: seq<Split>) {
    forall i :: 0 <= i < |parts| ==> parts[i].Leaf? && parts[i].answer.None?
  }

  lemma AllAcceptedJoins(a: seq<Split>, b: seq<Split>)
    ensures AllAccepted(a + b) <==> AllAccepted(a) && AllAccepted(b)
  {
    if AllAccepted(a + b) {
      forall i | 0 <= i < |a| ensures a[i].Leaf? && a[i].answer.None? { assert (a + b)[i] == a[i]; }
      forall i | 0 <= i < |b| ensures b[i].Leaf? && b[i].answer.None? { assert (a + b)[|a| + i] == b[i]; }
    }
  }

  /** deliver returns nil if and only if every send of the run was accepted without a warning;
      then every event was delivered. */
  lemma {:induction false} NilMeansAllSent(t: Split, budget: nat)
    requires RunOf(t, budget)
    ensures FirstError(t).None? ==> All(Fates(t), Sent)
    ensures FirstError(t).None? <==> AllAccepted(Parts(t))
  {
    match t
    case Halved(_, _, left, right) =>
      NilMeansAllSent(left, budget - 1);
      NilMeansAllSent(right, budget - 1 - Sends(left));
      AllAcceptedJoins(Parts(left), Parts(right));
    case _ =>
      assert Parts(t)[0] == t;
  }

  // ---- Isolating bad events ----

  /** The outcome of a send to an endpoint that refuses, with 400, exactly the batches holding a
      bad event, when the WAL let the outcome through. */
  predicate Judges(bad: set<Event>, events: seq<Event>, answer: Option<Error>) {
    if HasBad(events, bad) then
      answer.Some? && !IsDelivered(answer.value) && !IsDurable(answer.value)
      && FindTerminal(answer.value) == Some(400)
    else FateOf(answer).Sent?
  }

  predicate HasBad(events: seq<Event>, bad: set<Event>) {
    exists i :: 0 <= i < |events| && events[i] in bad
  }

  /** Every send of the run was judged that way. */
  predicate Judged(t: Split, bad: set<Event>) {
    match t
    case Dropped(_) => true
    case Leaf(events, answer) => Judges(bad, events, answer)
    case Halved(events, rejection, left, right) =>
      Judges(bad, events, Some(rejection)) && Judged(left, bad) && Judged(right, bad)
  }

  /** The sends it takes to single out the bad events among these. */
  function Need(events: seq<Event>, bad: set<Event>): (sends: nat)
    ensures sends >= 1
    decreases |events|
  {
    if !HasBad(events, bad) || |events| <= 1 then 1
    else 1 + Need(events[..|events| / 2], bad) + Need(events[|events| / 2..], bad)
  }

  function CountBad(events: seq<Event>, bad: set<Event>): nat {
    if events == [] then 0 else (if events[0] in bad then 1 else 0) + CountBad(events[1..], bad)
  }

  function CeilLog2(n: nat): nat {
    if n <= 1 then 0 else 1 + CeilLog2((n + 1) / 2)
  }

  predicate HasDropped(t: Split) {
    match t
    case Dropped(_) => true
    case Leaf(_, _) => false
    case Halved(_, _, left, right) => HasDropped(left) || HasDropped(right)
  }

  /** Exactly the good events are delivered and exactly the bad ones fail. */
  ghost predicate Isolated(events: seq<Event>, fates: seq<Fate>, bad: set<Event>) {
    |fates| == |events| && forall i :: 0 <= i < |events| ==> fates[i] == if events[i] in bad then Lost else Sent
  }

  /** A judged run spends what it needs or all it has, and drops events exactly when its budget
      falls short of the need. */
  lemma {:induction false} SendsAreNeedOrBudget(t: Split, budget: nat, bad: set<Event>)
    requires RunOf(t, budget) && Judged(t, bad)
    ensures Sends(t) == if Need(t.events, bad) <= budget then Need(t.events, bad) else budget
    ensures HasDropped(t) <==> Need(t.events, bad) > budget
  {
    match t
    case Halved(events, _, left, right) =>
      SendsAreNeedOrBudget(left, budget - 1, bad);
      SendsAreNeedOrBudget(right, budget - 1 - Sends(left), bad);
    case _ =>
  }

  lemma NeedOfHalves(events: seq<Event>, rejection: Error, left: Split, right: Split, budget: nat, bad: set<Event>)
    requires RunOf(Halved(events, rejection, left, right), budget) && Judges(bad, events, Some(rejection))
    ensures HasBad(events, bad) && |events| > 1
    ensures Need(events, bad) == 1 + Need(left.events, bad) + Need(right.events, bad)
  {
    hide Sends;
  }

  /** The sends made by the time event `j` is settled: its own way down, and for every turn to
      the right all that the left half needs. */
  function SendsUpTo(events: seq<Event>, bad: set<Event>, j: nat): (sends: nat)
    requires j < |events|
    ensures sends >= 1
    decreases |events|
  {
    var mid := |events| / 2;
    if !HasBad(events, bad) || |events| <= 1 then 1
    else if j < mid then 1 + SendsUpTo(events[..mid], bad, j)
    else 1 + Need(events[..mid], bad) + SendsUpTo(events[mid..], bad, j - mid)
  }

  /** What becomes of event `j` under a budget: a bad event fails, a good one is delivered if and
      only if the sends up to it fit the budget. */
  function DueFate(events: seq<Event>, bad: set<Event>, budget: nat, j: nat): Fate
    requires j < |events|
  {
    if events[j] in bad then Lost else if SendsUpTo(events, bad, j) <= budget then Sent else Lost
  }

  /** Every event met the fate that was due. */
  ghost predicate Separated(events: seq<Event>, fates: seq<Fate>, bad: set<Event>, budget: nat) {
    |fates| == |events| && forall j :: 0 <= j < |events| ==> fates[j] == DueFate(events, bad, budget, j)
  }

  lemma LeafSeparates(events: seq<Event>, answer: Option<Error>, budget: nat, bad: set<Event>, j: nat)
    requires RunOf(Leaf(events, answer), budget) && Judges(bad, events, answer) && j < |events|
    ensures FateOf(answer) == DueFate(events, bad, budget, j)
  {
    if HasBad(events, bad) {
      assert |events| == 1;
    }
  }

  /** The exact fate of every single event of a judged run, whatever the chunk and the budget. */
  lemma {:induction false} FateOfEachEvent(t: Split, budget: nat, bad: set<Event>, j: nat)
    requires RunOf(t, budget) && Judged(t, bad) && j < |t.events|
    ensures |Fates(t)| == |t.events| && Fates(t)[j] == DueFate(t.events, bad, budget, j)
  {
    hide Judges, Need, Concat, Parts, Halves, HasBad, FateOf;
    EveryEventSettledOnce(t, budget);
    match t
    case Dropped(_) =>
    case Leaf(events, answer) =>
      LeafSeparates(events, answer, budget, bad, j);
    case Halved(events, rejection, left, right) =>
      NeedOfHalves(events, rejection, left, right, budget, bad);
      SendsAreNeedOrBudget(left, budget - 1, bad);
      EveryEventSettledOnce(left, budget - 1);
      if j < |left.events| {
        FateOfEachEvent(left, budget - 1, bad, j);
      } else {
        FateOfEachEvent(right, budget - 1 - Sends(left), bad, j - |left.events|);
      }
  }

  lemma RunSeparates(t: Split, budget: nat, bad: set<Event>)
    requires RunOf(t, budget) && Judged(t, bad)
    ensures Separated(t.events, Fates(t), bad, budget)
  {
    hide RunOf, Judged, DueFate;
    EveryEventSettledOnce(t, budget);
    forall j | 0 <= j < |t.events| ensures Fates(t)[j] == DueFate(t.events, bad, budget, j) {
      FateOfEachEvent(t, budget, bad, j);
    }
  }

  /** No event waits longer than the whole chunk needs, and the last one waits as long. */
  lemma {:induction false} SendsUpToIsWithinNeed(events: seq<Event>, bad: set<Event>, j: nat)
    requires j < |events|
    ensures SendsUpTo(events, bad, j) <= Need(events, bad)
    ensures j == |events| - 1 ==> SendsUpTo(events, bad, j) == Need(events, bad)
    decreases |events|
  {
    var mid := |events| / 2;
    if HasBad(events, bad) && |events| > 1 {
      if j < mid {
        SendsUpToIsWithinNeed(events[..mid], bad, j);
      } else {
        SendsUpToIsWithinNeed(events[mid..], bad, j - mid);
      }
    }
  }

  /** The exact condition for any chunk: the split isolates the bad events if and only if for
      every good event the sends up to it fit the budget. */
  lemma IsolatesIffSendsSuffice(t: Split, budget: nat, bad: set<Event>)
    requires RunOf(t, budget) && Judged(t, bad)
    ensures Isolated(t.events, Fates(t), bad) <==>
      forall j :: 0 <= j < |t.events| && t.events[j] !in bad ==> SendsUpTo(t.events, bad, j) <= budget
  {
    hide RunOf, Judged, SendsUpTo;
    RunSeparates(t, budget, bad);
  }

  /** A budget that covers the need isolates the bad events. */
  lemma EnoughSendsIsolate(t: Split, budget: nat, bad: set<Event>)
    requires RunOf(t, budget) && Judged(t, bad)
    requires Need(t.events, bad) <= budget
    ensures Isolated(t.events, Fates(t), bad)
  {
    hide RunOf, Judged, SendsUpTo, Isolated, Need;
    forall j | 0 <= j < |t.events| ensures SendsUpTo(t.events, bad, j) <= budget {
      SendsUpToIsWithinNeed(t.events, bad, j);
    }
    IsolatesIffSendsSuffice(t, budget, bad);
  }

  /** A budget that falls short costs the last event, whatever it is. */
  lemma TooFewSendsLoseTheLast(t: Split, budget: nat, bad: set<Event>)
    requires RunOf(t, budget) && Judged(t, bad)
    requires Need(t.events, bad) > budget
    ensures |Fates(t)| == |t.events| >= 1 && Fates(t)[|t.events| - 1] == Lost
  {
    hide RunOf, Judged, SendsUpTo, Need;
    EveryEventSettledOnce(t, budget);
    SendsUpToIsWithinNeed(t.events, bad, |t.events| - 1);
    FateOfEachEvent(t, budget, bad, |t.events| - 1);
  }

  // ---- How many sends isolation needs ----

  lemma {:induction false} NeedIsBelowTwiceTheSize(events: seq<Event>, bad: set<Event>)
    requires |events| >= 1
    ensures Need(events, bad) <= 2 * |events| - 1
    decreases |events|
  {
    if HasBad(events, bad) && |events| > 1 {
      NeedIsBelowTwiceTheSize(events[..|events| / 2], bad);
      NeedIsBelowTwiceTheSize(events[|events| / 2..], bad);
    }
  }

  lemma {:induction false} CountBadSplits(a: seq<Event>, b: seq<Event>, bad: set<Event>)
    ensures CountBad(a + b, bad) == CountBad(a, bad) + CountBad(b, bad)
  {
    if a == [] {
      assert a + b == b;
    } else {
      assert (a + b)[1..] == a[1..] + b;
      CountBadSplits(a[1..], b, bad);
    }
  }

  lemma {:induction false} CountBadPositive(events: seq<Event>, bad: set<Event>)
    ensures HasBad(events, bad) <==> CountBad(events, bad) >= 1
  {
    if events != [] {
      CountBadPositive(events[1..], bad);
      assert forall i :: 1 <= i < |events| ==> events[i] == events[1..][i - 1];
      assert forall i :: 0 <= i < |events[1..]| ==> events[1..][i] == events[i + 1];
    }
  }

  lemma {:induction false} CeilLog2Monotone(a: nat, b: nat)
    requires a <= b
    ensures CeilLog2(a) <= CeilLog2(b)
  {
    if a > 1 { CeilLog2Monotone((a + 1) / 2, (b + 1) / 2); }
  }

  /** Each bad event costs at most two sends for every halving of the chunk. */
  lemma {:induction false} NeedByBadEvents(events: seq<Event>, bad: set<Event>)
    requires |events| >= 1
    ensures Need(events, bad) <= 1 + 2 * CountBad(events, bad) * CeilLog2(|events|)
    decreases |events|
  {
    if HasBad(events, bad) && |events| > 1 {
      var left, right := events[..|events| / 2], events[|events| / 2..];
      assert events == left + right;
      CountBadSplits(left, right, bad);
      CountBadPositive(events, bad);
      NeedByBadEvents(left, bad);
      NeedByBadEvents(right, bad);
      var d := CeilLog2(|events|) - 1;
      CeilLog2Monotone(|left|, (|events| + 1) / 2);
      CeilLog2Monotone(|right|, (|events| + 1) / 2);
      HalvesAddUp(CountBad(left, bad), CountBad(right, bad), CeilLog2(|left|), CeilLog2(|right|), d);
    }
  }

  lemma HalvesAddUp(k: nat, l: nat, a: nat, b: nat, d: nat)
    requires k + l >= 1 && a <= d && b <= d
    ensures 1 + (1 + 2 * k * a) + (1 + 2 * l * b) <= 1 + 2 * (k + l) * (d + 1)
  {
    MulMonotone(k, a, d);
    MulMonotone(l, b, d);
    assert (k + l) * (d + 1) == k * d + l * d + k + l;
  }

  lemma MulMonotone(k: nat, a: nat, b: nat)
    requires a <= b
    ensures k * a <= k * b
  {
    assert k * b == k * a + k * (b - a);
  }

  /** The two promises of a whole chunk: within 64 sends, k bad events among n are isolated
      whenever 1 + 2 k ceil(log2 n) <= 64, and every chunk of at most 32 events always is. */
  lemma ChunkIsolates(t: Split, bad: set<Event>)
    requires RunOf(t, MAX_SPLIT_SENDS) && Judged(t, bad)
    requires 1 + 2 * CountBad(t.events, bad) * CeilLog2(|t.events|) <= MAX_SPLIT_SENDS || |t.events| <= 32
    ensures Isolated(t.events, Fates(t), bad)
    ensures Sends(t) == Need(t.events, bad) <= 1 + 2 * CountBad(t.events, bad) * CeilLog2(|t.events|)
    ensures Sends(t) <= 2 * |t.events| - 1
  {
    EveryEventSettledOnce(t, MAX_SPLIT_SENDS);
    NeedByBadEvents(t.events, bad);
    NeedIsBelowTwiceTheSize(t.events, bad);
    SendsAreNeedOrBudget(t, MAX_SPLIT_SENDS, bad);
    EnoughSendsIsolate(t, MAX_SPLIT_SENDS, bad);
  }

  /** When every event but the last is bad the need is 2 n - 1. */
  lemma {:induction false} NeedWhenAllButLastBad(events: seq<Event>, bad: set<Event>)
    requires |events| >= 1
    requires forall i :: 0 <= i < |events| - 1 ==> events[i] in bad
    ensures Need(events, bad) == 2 * |events| - 1
    decreases |events|
  {
    if |events| > 1 {
      assert events[0] in bad;
      NeedWhenAllButLastBad(events[..|events| / 2], bad);
      NeedWhenAllButLastBad(events[|events| / 2..], bad);
    }
  }

  /** So 32 is the largest size that always isolates: of 33 events, the last one good and all
      others bad, the good one is lost. */
  lemma GoodEventLostPastTheLimit(t: Split, bad: set<Event>)
    requires RunOf(t, MAX_SPLIT_SENDS) && Judged(t, bad) && |t.events| == 33
    requires forall i :: 0 <= i < 32 ==> t.events[i] in bad
    requires t.events[32] !in bad
    ensures |Fates(t)| == 33 && Fates(t)[32] == Lost
  {
    NeedWhenAllButLastBad(t.events, bad);
    TooFewSendsLoseTheLast(t, MAX_SPLIT_SENDS, bad);
  }

  // ---- Sums over fates ----

  lemma {:induction false} CountJoins(a: seq<Fate>, b: seq<Fate>, fate: Fate)
    ensures Count(a + b, fate) == Count(a, fate) + Count(b, fate)
  {
    if a == [] {
      assert a + b == b;
    } else {
      assert (a + b)[1..] == a[1..] + b;
      CountJoins(a[1..], b, fate);
    }
  }

  lemma {:induction false} CountRepeated(x: Fate, n: nat, fate: Fate)
    ensures Count(Repeat(x, n), fate) == if x == fate then n else 0
  {
    if n > 0 {
      assert Repeat(x, n)[1..] == Repeat(x, n - 1);
      CountRepeated(x, n - 1, fate);
    }
  }

  lemma {:induction false} SelectJoins(ea: seq<Event>, fa: seq<Fate>, eb: seq<Event>, fb: seq<Fate>, fate: Fate)
    requires |ea| == |fa| && |eb| == |fb|
    ensures Select(ea + eb, fa + fb, fate) == Select(ea, fa, fate) + Select(eb, fb, fate)
  {
    if ea == [] {
      assert ea + eb == eb && fa + fb == fb;
    } else {
      assert (ea + eb)[1..] == ea[1..] + eb && (fa + fb)[1..] == fa[1..] + fb;
      SelectJoins(ea[1..], fa[1..], eb, fb, fate);
    }
  }

  lemma {:induction false} SelectRepeated(events: seq<Event>, x: Fate, fate: Fate)
    ensures Select(events, Repeat(x, |events|), fate) == if x == fate then events else []
  {
    if events != [] {
      assert Repeat(x, |events|)[1..] == Repeat(x, |events| - 1);
      SelectRepeated(events[1..], x, fate);
    }
  }

  lemma {:induction false} SelectCount(events: seq<Event>, fates: seq<Fate>, fate: Fate)
    requires |events| == |fates|
    ensures |Select(events, fates, fate)| == Count(fates, fate)
  {
    if events != [] { SelectCount(events[1..], fates[1..], fate); }
  }
}
