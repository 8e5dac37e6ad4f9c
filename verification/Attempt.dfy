/** The in-process ledger of physical attempts (policy/attempt): lifecycle events, the replay-safety
    decision and the Coordinator that owns them. The Coordinator's three transitions are first given as
    functions on a `Ledger` value; whole runs of any number of callers are then folds of those functions,
    because every method of the source holds the coordinator's mutex from beginning to end. */
module Attempt {
  import opened Wrappers

  // Phase and Outcome are machine bytes in the source, so an undeclared code is representable and rejected.
  newtype Phase = code: int | 0 <= code < 256
  const BeforeDispatch: Phase := 0
  const Dispatched: Phase := 1
  const StreamOpened: Phase := 2
  const Terminal: Phase := 3

  newtype Outcome = code: int | 0 <= code < 256
  const Unknown: Outcome := 0
  const NotExecuted: Outcome := 1
  const Completed: Outcome := 2

  datatype Identity = Identity(operation: string, attempt: string)

  datatype Event = Event(identity: Identity, phase: Phase, committed: bool, outcome: Outcome)

  datatype Action = Stop | Retry | Fallback | Reconcile | Defer

  datatype Reason =
    | NotRetryable | VisibleOutput | UnsafeReplay | UnknownOutcome | BudgetExhausted | DeadlineExhausted
    | RetryAllowed | HintIgnored | ExecutionReturned | AdmissionDenied | AdmissionDeferred | Cancelled

  datatype Replay = Replay(
    retryable: bool, replayable: bool, safeDuplicate: bool,
    resetProtocol: bool, canReconcile: bool, useFallback: bool)

  /** Instants are nanoseconds since the start of year 1; the zero instant means "absent". */
  type Time = int
  const Absent: Time := 0

  datatype Decision = Decision(action: Action, reason: Reason, event: Event, notBefore: Time, deadline: Time)

  datatype Error =
    | InvalidEvent | EventChanged | AuthorizationCancelled | InvalidHint | InvalidBoundary | InvalidConfig
    | Canceled | DeadlineExceeded | HostError(code: nat)

  predicate IsRepeat(action: Action) {
    action == Retry || action == Fallback
  }

  // ---------------------------------------------------------------------------------------------
  // Events

  predicate ValidEvent(event: Event) {
    if event.phase > Terminal || event.outcome > Completed then false
    else if event.committed && (event.phase < Dispatched || event.outcome == NotExecuted) then false
    else if event.outcome == Completed && event.phase != Terminal then false
    else event.outcome != NotExecuted || event.phase == Terminal
  }

  /** Output is visible only after dispatch and never of an attempt that was not executed; an outcome is known only
      at the end. */
  lemma ValidExactly(event: Event)
    ensures ValidEvent(event)
       <==> && event.phase <= Terminal && event.outcome <= Completed
            && (event.committed ==> event.phase != BeforeDispatch && event.outcome != NotExecuted)
            && (event.outcome != Unknown ==> event.phase == Terminal)
  {
  }

  /** The order in which knowledge about one attempt may grow. */
  predicate Le(before: Event, after: Event) {
    && before.identity == after.identity
    && before.phase <= after.phase
    && (before.committed ==> after.committed)
    && (before.outcome != Unknown ==> after.outcome == before.outcome)
  }

  /** Strict increases still possible above an event, counting only the facts an authorization may see change: the
      end of the attempt, its commit and its outcome. */
  function Headroom(event: Event): (room: nat)
    ensures room <= 3 && (event.phase == Terminal || event.committed ==> room <= 2)
  {
    if event.phase != Terminal then (if event.committed then 2 else 3)
    else
      (if event.outcome == Unknown then 1 else 0)
      + (if !event.committed && event.outcome != NotExecuted then 1 else 0)
  }

  /** A changed Terminal event has strictly less headroom, so facts about an attempt change finitely often. */
  lemma HeadroomDecreases(before: Event, after: Event)
    requires ValidEvent(before) && ValidEvent(after)
    requires Le(before, after) && before != after && after.phase == Terminal
    ensures Headroom(after) < Headroom(before)
  {
  }

  // ---------------------------------------------------------------------------------------------
  // The replay decision

  function Decide(event: Event, remaining: int, replay: Replay): (r: Result<Decision, Error>)
    ensures r.Ok? ==> r.value.event == event && r.value.notBefore == Absent && r.value.deadline == Absent
  {
    var decision := Decision(Stop, NotRetryable, event, Absent, Absent);
    if !ValidEvent(event) || event.identity.operation == "" || event.identity.attempt == "" then Err(InvalidEvent)
    else if event.committed && !replay.resetProtocol then Ok(decision.(reason := VisibleOutput))
    else if event.outcome == Unknown && !replay.safeDuplicate then
      Ok(decision.(reason := UnknownOutcome, action := if replay.canReconcile then Reconcile else Stop))
    else if !replay.retryable then Ok(decision)
    else if !replay.replayable || (event.outcome == Completed && !replay.safeDuplicate) then
      Ok(decision.(reason := UnsafeReplay))
    else if remaining < 1 then Ok(decision.(reason := BudgetExhausted))
    else Ok(decision.(action := if replay.useFallback then Fallback else Retry, reason := RetryAllowed))
  }

  /** What the evidence must say before a second physical attempt is harmless. Stated on its own terms:
      the caller wants and can replay, visible output is reset, and anything but proven absence of remote
      execution needs an explicit tolerance of duplicates. */
  predicate RepeatSafe(event: Event, replay: Replay) {
    && replay.retryable && replay.replayable
    && (event.committed ==> replay.resetProtocol)
    && (event.outcome != NotExecuted ==> replay.safeDuplicate)
  }

  /** A repeat is granted exactly for a valid, named event with budget and safe evidence. */
  lemma DecideGrantsExactlySafeRepeats(event: Event, remaining: int, replay: Replay)
    ensures (Decide(event, remaining, replay).Ok? && IsRepeat(Decide(event, remaining, replay).value.action))
       <==> (ValidEvent(event) && event.identity.operation != "" && event.identity.attempt != ""
             && remaining >= 1 && RepeatSafe(event, replay))
    ensures Decide(event, remaining, replay).Ok? && IsRepeat(Decide(event, remaining, replay).value.action)
        ==> Decide(event, remaining, replay).value.action == if replay.useFallback then Fallback else Retry
  {
  }

  /** Why a repeat is refused, in the order in which the reasons are given. */
  const REASONS: seq<Reason> := [VisibleOutput, UnknownOutcome, NotRetryable, UnsafeReplay, BudgetExhausted]

  predicate Objects(reason: Reason, event: Event, remaining: int, replay: Replay) {
    match reason
    case VisibleOutput => event.committed && !replay.resetProtocol
    case UnknownOutcome => event.outcome == Unknown && !replay.safeDuplicate
    case NotRetryable => !replay.retryable
    case UnsafeReplay => !replay.replayable || (event.outcome == Completed && !replay.safeDuplicate)
    case BudgetExhausted => remaining < 1
    case _ => false
  }

  /** The first objection is the reason; an unknown outcome is to be reconciled where that is possible, and every
      other objection stops. Without one the repeat is allowed. */
  lemma DecideGivesFirstObjection(event: Event, remaining: int, replay: Replay, k: nat)
    requires k <= |REASONS| && forall i :: 0 <= i < k ==> !Objects(REASONS[i], event, remaining, replay)
    ensures var r := Decide(event, remaining, replay);
      && (r.Err? <==> !(ValidEvent(event) && event.identity.operation != "" && event.identity.attempt != ""))
      && (r.Err? ==> r.error == InvalidEvent)
      && (r.Ok? && k < |REASONS| && Objects(REASONS[k], event, remaining, replay) ==>
            && r.value.reason == REASONS[k]
            && r.value.action == (if REASONS[k] == UnknownOutcome && replay.canReconcile then Reconcile else Stop))
      && (r.Ok? && k == |REASONS| ==>
            r.value.reason == RetryAllowed && r.value.action == (if replay.useFallback then Fallback else Retry))
  {
    assert k > 0 ==> !Objects(REASONS[0], event, remaining, replay);
    assert k > 1 ==> !Objects(REASONS[1], event, remaining, replay);
    assert k > 2 ==> !Objects(REASONS[2], event, remaining, replay);
    assert k > 3 ==> !Objects(REASONS[3], event, remaining, replay);
    assert k > 4 ==> !Objects(REASONS[4], event, remaining, replay);
  }

  // ---------------------------------------------------------------------------------------------
  // The ledger and its transitions

  datatype Ledger = Ledger(operation: string, limit: int, events: map<string, Event>)

  datatype StartResult = StartResult(started: bool, event: Event, remaining: int)

  function Remaining(ledger: Ledger): int {
    ledger.limit - |ledger.events|
  }

  function BeginStep(ledger: Ledger, id: Identity): (Ledger, Result<StartResult, Error>) {
    if id.operation != ledger.operation || id.attempt == "" then (ledger, Err(InvalidEvent))
    else if id.attempt in ledger.events then (ledger, Err(InvalidEvent))
    else
      var event := Event(id, BeforeDispatch, false, Unknown);
      if |ledger.events| >= ledger.limit then (ledger, Ok(StartResult(false, event, 0)))
      else
        var next := ledger.(events := ledger.events[id.attempt := event]);
        (next, Ok(StartResult(true, event, Remaining(next))))
  }

  /** Begin would give this identity a slot. */
  predicate Allocates(ledger: Ledger, id: Identity) {
    BeginStep(ledger, id).1.Ok? && BeginStep(ledger, id).1.value.started
  }

  /** None stands for a nil error. */
  function UpdateStep(ledger: Ledger, event: Event): (Ledger, Option<Error>) {
    var key := event.identity.attempt;
    if key !in ledger.events || event.identity != ledger.events[key].identity || !ValidEvent(event) then
      (ledger, Some(InvalidEvent))
    else
      var previous := ledger.events[key];
      if event.phase < previous.phase || (previous.committed && !event.committed) then (ledger, Some(InvalidEvent))
      else if previous.outcome != Unknown && event.outcome != previous.outcome then (ledger, Some(InvalidEvent))
      else (ledger.(events := ledger.events[key := event]), None)
  }

  function SnapshotOf(ledger: Ledger, id: Identity): Result<(Event, int), Error> {
    if id.attempt !in ledger.events || ledger.events[id.attempt].identity != id then Err(InvalidEvent)
    else Ok((ledger.events[id.attempt], Remaining(ledger)))
  }

  function AuthorizeStep(ledger: Ledger, expected: Event, next: Identity, replay: Replay, cancelled: bool)
    : (Ledger, Result<Decision, Error>)
  {
    var key := expected.identity.attempt;
    if cancelled then (ledger, Err(AuthorizationCancelled))
    else if key !in ledger.events || next.attempt !in ledger.events then (ledger, Err(InvalidEvent))
    else
      var previous, current := ledger.events[key], ledger.events[next.attempt];
      if previous.identity != expected.identity || current.identity != next || previous.phase != Terminal
         || current.phase != BeforeDispatch || current.committed || current.outcome != Unknown
         || next == expected.identity then (ledger, Err(InvalidEvent))
      else if previous != expected then (ledger, Err(EventChanged))
      else
        var r := Decide(previous, Remaining(ledger) + 1, replay);
        if r.Err? || !IsRepeat(r.value.action) then (ledger, r)
        else (ledger.(events := ledger.events[next.attempt := current.(phase := Dispatched)]), r)
  }

  predicate Granted(r: Result<Decision, Error>) {
    r.Ok? && IsRepeat(r.value.action)
  }

  /** The conditions under which `next` may become Dispatched by repeating `expected`, at one instant. */
  predicate RepeatRules(ledger: Ledger, expected: Event, next: Identity, replay: Replay, action: Action) {
    && expected.identity.attempt in ledger.events && ledger.events[expected.identity.attempt] == expected
    && expected.phase == Terminal && RepeatSafe(expected, replay)
    && action == (if replay.useFallback then Fallback else Retry)
    && next.attempt in ledger.events && next != expected.identity
    && ledger.events[next.attempt] == Event(next, BeforeDispatch, false, Unknown)
  }

  datatype Op =
    | Begin(id: Identity)
    | Update(event: Event)
    | Authorize(expected: Event, next: Identity, replay: Replay, cancelled: bool)

  function Apply(ledger: Ledger, op: Op): Ledger {
    match op
    case Begin(id) => BeginStep(ledger, id).0
    case Update(event) => UpdateStep(ledger, event).0
    case Authorize(expected, next, replay, cancelled) => AuthorizeStep(ledger, expected, next, replay, cancelled).0
  }

  /** The ledger after any number of goroutines ran these operations in this order. */
  function Run(ledger: Ledger, ops: seq<Op>): Ledger
    decreases |ops|
  {
    if ops == [] then ledger else Run(Apply(ledger, ops[0]), ops[1..])
  }

  // ---------------------------------------------------------------------------------------------
  // Whole-run safety

  predicate Inv(ledger: Ledger) {
    && ledger.operation != "" && ledger.limit >= 1
    && |ledger.events| <= ledger.limit
    && (forall key :: key in ledger.events ==>
          && key != "" && ledger.events[key].identity == Identity(ledger.operation, key)
          && ValidEvent(ledger.events[key]))
  }

  /** Nothing allocated is ever recycled and every attempt's facts only grow. */
  predicate Grows(before: Ledger, after: Ledger) {
    && before.operation == after.operation && before.limit == after.limit
    && (forall key :: key in before.events ==>
          key in after.events && Le(before.events[key], after.events[key]))
  }

  lemma GrowsTransitive(a: Ledger, b: Ledger, c: Ledger)
    requires Grows(a, b) && Grows(b, c)
    ensures Grows(a, c)
  {
  }

  lemma GrowsKeepsBudget(before: Ledger, after: Ledger)
    requires Grows(before, after)
    ensures |before.events| <= |after.events|
  {
    SubsetSize(before.events.Keys, after.events.Keys);
    assert |before.events.Keys| == |before.events| && |after.events.Keys| == |after.events|;
  }

  lemma SubsetSize<T>(small: set<T>, large: set<T>)
    requires small <= large
    ensures |small| <= |large|
  {
    assert large == small + (large - small);
  }

  lemma BeginSafe(ledger: Ledger, id: Identity)
    requires Inv(ledger)
    ensures Inv(BeginStep(ledger, id).0) && Grows(ledger, BeginStep(ledger, id).0)
  {
    InsertSize(ledger.events, id.attempt, Event(id, BeforeDispatch, false, Unknown));
  }

  lemma UpdateSafe(ledger: Ledger, event: Event)
    requires Inv(ledger)
    ensures Inv(UpdateStep(ledger, event).0) && Grows(ledger, UpdateStep(ledger, event).0)
  {
    InsertSize(ledger.events, event.identity.attempt, event);
  }

  lemma AuthorizeSafe(ledger: Ledger, expected: Event, next: Identity, replay: Replay, cancelled: bool)
    requires Inv(ledger)
    ensures Inv(AuthorizeStep(ledger, expected, next, replay, cancelled).0)
    ensures Grows(ledger, AuthorizeStep(ledger, expected, next, replay, cancelled).0)
  {
    if next.attempt in ledger.events {
      InsertSize(ledger.events, next.attempt, ledger.events[next.attempt].(phase := Dispatched));
    }
  }

  lemma ApplySafe(ledger: Ledger, op: Op)
    requires Inv(ledger)
    ensures Inv(Apply(ledger, op)) && Grows(ledger, Apply(ledger, op))
  {
    match op
    case Begin(id) => BeginSafe(ledger, id);
    case Update(event) => UpdateSafe(ledger, event);
    case Authorize(expected, next, replay, cancelled) => AuthorizeSafe(ledger, expected, next, replay, cancelled);
  }

  /** An identity is allocated exactly if it is well named, new and within the budget; exhaustion is not an error. */
  lemma BeginExact(ledger: Ledger, id: Identity)
    requires Inv(ledger)
    ensures var (after, r) := BeginStep(ledger, id);
      && (r.Ok? <==> id.operation == ledger.operation && id.attempt != "" && id.attempt !in ledger.events)
      && (r.Err? ==> r.error == InvalidEvent)
      && (r.Ok? ==>
            && (r.value.started <==> |ledger.events| < ledger.limit)
            && r.value.remaining == ledger.limit - |after.events|
            && r.value.event == Event(id, BeforeDispatch, false, Unknown))
      && (if r.Ok? && r.value.started
          then after == ledger.(events := ledger.events[id.attempt := Event(id, BeforeDispatch, false, Unknown)])
          else after == ledger)
      && (r.Ok? && r.value.started ==> Remaining(after) == Remaining(ledger) - 1)
  {
    InsertSize(ledger.events, id.attempt, Event(id, BeforeDispatch, false, Unknown));
  }

  /** An update is accepted exactly if it is a valid event that extends what is stored for the same attempt. */
  lemma UpdateExact(ledger: Ledger, event: Event)
    requires Inv(ledger)
    ensures var (after, err) := UpdateStep(ledger, event);
      var key := event.identity.attempt;
      && (err.None? <==> key in ledger.events && ValidEvent(event) && Le(ledger.events[key], event))
      && (if err.None? then after == ledger.(events := ledger.events[key := event]) else after == ledger)
      && (err.Some? ==> err.value == InvalidEvent)
  {
  }

  /** Over any sequence of Begin, Update and AuthorizeRepeat: the budget is never exceeded, identities are
      never recycled, stored events stay valid and each attempt's snapshots form a chain. */
  lemma {:induction false} RunSafe(ledger: Ledger, ops: seq<Op>)
    requires Inv(ledger)
    ensures Inv(Run(ledger, ops)) && Grows(ledger, Run(ledger, ops))
    decreases |ops|
  {
    if ops != [] {
      ApplySafe(ledger, ops[0]);
      RunSafe(Apply(ledger, ops[0]), ops[1..]);
      GrowsTransitive(ledger, Apply(ledger, ops[0]), Run(ledger, ops));
    }
  }

  lemma {:induction false} RunConcat(ledger: Ledger, first: seq<Op>, second: seq<Op>)
    ensures Run(ledger, first + second) == Run(Run(ledger, first), second)
    decreases |first|
  {
    if first == [] {
      assert first + second == second;
    } else {
      assert (first + second)[1..] == first[1..] + second;
      RunConcat(Apply(ledger, first[0]), first[1..], second);
    }
  }

  /** A proof of non-execution is final: no later operation of anyone can withdraw or commit it. */
  lemma NotExecutedForever(ledger: Ledger, ops: seq<Op>, key: string)
    requires Inv(ledger) && key in ledger.events && ledger.events[key].outcome == NotExecuted
    ensures key in Run(ledger, ops).events
    ensures Run(ledger, ops).events[key].outcome == NotExecuted && !Run(ledger, ops).events[key].committed
  {
    RunSafe(ledger, ops);
  }

  /** Begin already reserved a slot for `next`, so the budget is never the reason to refuse it, and a
      grant happens exactly under the rules below at one instant; a denial leaves the ledger untouched. */
  lemma AuthorizeExact(ledger: Ledger, expected: Event, next: Identity, replay: Replay, cancelled: bool)
    requires Inv(ledger)
    ensures var (after, r) := AuthorizeStep(ledger, expected, next, replay, cancelled);
      && (Granted(r) <==>
            && !cancelled
            && expected.identity.attempt in ledger.events && ledger.events[expected.identity.attempt] == expected
            && expected.phase == Terminal && RepeatSafe(expected, replay)
            && next.attempt in ledger.events && next != expected.identity
            && ledger.events[next.attempt] == Event(next, BeforeDispatch, false, Unknown))
      && (r.Ok? ==> r.value.reason != BudgetExhausted)
      && (!Granted(r) ==> after == ledger)
      && (Granted(r) ==>
            && r.value.action == (if replay.useFallback then Fallback else Retry)
            && after == ledger.(events := ledger.events[next.attempt := Event(next, Dispatched, false, Unknown)])
            && |after.events| == |ledger.events|)
  {
    var key := expected.identity.attempt;
    if key in ledger.events && next.attempt in ledger.events && ledger.events[key] == expected {
      DecideGrantsExactlySafeRepeats(expected, Remaining(ledger) + 1, replay);
      InsertSize(ledger.events, next.attempt, Event(next, Dispatched, false, Unknown));
    }
  }

  /** Both attempts are stored, the previous one has ended and the next one has not begun. */
  predicate Comparable(ledger: Ledger, expected: Identity, next: Identity) {
    && expected.attempt in ledger.events && ledger.events[expected.attempt].identity == expected
    && ledger.events[expected.attempt].phase == Terminal && next != expected
    && next.attempt in ledger.events && ledger.events[next.attempt] == Event(next, BeforeDispatch, false, Unknown)
  }

  /** Why an authorization fails: cancellation first, then an inadmissible pair of attempts, then facts that have
      changed since they were read; otherwise the evidence decides. */
  lemma AuthorizeFailsExactly(ledger: Ledger, expected: Event, next: Identity, replay: Replay, cancelled: bool)
    requires Inv(ledger)
    ensures var r := AuthorizeStep(ledger, expected, next, replay, cancelled).1;
      && (r == Err(AuthorizationCancelled) <==> cancelled)
      && (r == Err(InvalidEvent) <==> !cancelled && !Comparable(ledger, expected.identity, next))
      && (r == Err(EventChanged) <==>
            && !cancelled && Comparable(ledger, expected.identity, next)
            && ledger.events[expected.identity.attempt] != expected)
      && (r.Err? ==> r.error == AuthorizationCancelled || r.error == InvalidEvent || r.error == EventChanged)
      && (r.Ok? ==> r == Decide(expected, ledger.limit - |ledger.events| + 1, replay))
  {
  }

  // ---------------------------------------------------------------------------------------------
  // The Coordinator object

  /** NewCoordinator: an operation name and a positive budget are demanded before any execution. */
  method NewCoordinator(operation: string, limit: int) returns (r: Result<Coordinator, Error>)
    ensures r.Ok? <==> operation != "" && limit >= 1
    ensures r.Ok? ==> fresh(r.value) && r.value.Valid() && r.value.State() == Ledger(operation, limit, map[])
    ensures r.Err? ==> r.error == InvalidEvent
  {
    if operation == "" || limit < 1 { return Err(InvalidEvent); }
    var coordinator := new Coordinator(operation, limit);
    return Ok(coordinator);
  }

  class Coordinator {
    const operation: string
    const limit: int
    var events: map<string, Event>

    ghost predicate Valid()
      reads this
    {
      Inv(State())
    }

    function State(): Ledger
      reads this
    {
      Ledger(operation, limit, events)
    }

    constructor (operation: string, limit: int)
      requires operation != "" && limit >= 1
      ensures Valid() && State() == Ledger(operation, limit, map[])
    {
      this.operation, this.limit, this.events := operation, limit, map[];
    }

    method Begin(id: Identity) returns (r: Result<StartResult, Error>)
      requires Valid()
      modifies this
      ensures Valid() && Grows(old(State()), State())
      ensures (State(), r) == BeginStep(old(State()), id)
    {
      BeginSafe(State(), id);
      if id.operation != operation || id.attempt == "" { return Err(InvalidEvent); }
      if id.attempt in events { return Err(InvalidEvent); }
      var event := Event(id, BeforeDispatch, false, Unknown);
      if |events| >= limit { return Ok(StartResult(false, event, 0)); }
      events := events[id.attempt := event];
      return Ok(StartResult(true, event, limit - |events|));
    }

    method Update(event: Event) returns (err: Option<Error>)
      requires Valid()
      modifies this
      ensures Valid() && Grows(old(State()), State())
      ensures (State(), err) == UpdateStep(old(State()), event)
    {
      UpdateSafe(State(), event);
      if event.identity.attempt !in events { return Some(InvalidEvent); }
      var previous := events[event.identity.attempt];
      if event.identity != previous.identity || !ValidEvent(event) { return Some(InvalidEvent); }
      if event.phase < previous.phase || (previous.committed && !event.committed) { return Some(InvalidEvent); }
      if previous.outcome != Unknown && event.outcome != previous.outcome { return Some(InvalidEvent); }
      events := events[event.identity.attempt := event];
      return None;
    }

    method Snapshot(id: Identity) returns (r: Result<(Event, int), Error>)
      requires Valid()
      ensures r == SnapshotOf(State(), id)
      ensures r.Ok? <==> id.operation == operation && id.attempt in events
      ensures r.Ok? ==> r.value == (events[id.attempt], limit - |events|)
      ensures r.Err? ==> r.error == InvalidEvent
    {
      if id.attempt !in events { return Err(InvalidEvent); }
      var event := events[id.attempt];
      if event.identity != id { return Err(InvalidEvent); }
      return Ok((event, limit - |events|));
    }

    method AuthorizeRepeat(expected: Event, next: Identity, replay: Replay, cancelled: bool)
      returns (r: Result<Decision, Error>)
      requires Valid()
      modifies this
      ensures Valid() && Grows(old(State()), State())
      ensures (State(), r) == AuthorizeStep(old(State()), expected, next, replay, cancelled)
    {
      AuthorizeSafe(State(), expected, next, replay, cancelled);
      if cancelled { return Err(AuthorizationCancelled); }
      if expected.identity.attempt !in events || next.attempt !in events { return Err(InvalidEvent); }
      var previous, current := events[expected.identity.attempt], events[next.attempt];
      if previous.identity != expected.identity || current.identity != next || previous.phase != Terminal
         || current.phase != BeforeDispatch || current.committed || current.outcome != Unknown
         || next == expected.identity { return Err(InvalidEvent); }
      if previous != expected { return Err(EventChanged); }
      r := Decide(previous, limit - |events| + 1, replay);
      if r.Err? || !IsRepeat(r.value.action) { return; }
      events := events[next.attempt := current.(phase := Dispatched)];
    }
  }
}
