/** Boundary and Sequence (policy/execution/boundary.go, sequence.go): one physical dispatch, and the retry
    owner that repeats it. The code runs in one goroutine against a shared Coordinator. Everything it cannot
    control - host callbacks, clock, cancellation, and what other goroutines do to the Coordinator between
    its own accesses - is read from a `Script`, an arbitrary function of a tick that advances at every
    question. A postcondition therefore holds for every host and every interleaving. */
module Sequence {
  import opened Wrappers
  import opened Attempt
  import opened Schedule

  newtype Admission = code: int | 0 <= code < 256
  const Denied: Admission := 0
  const Admitted: Admission := 1
  const Deferred: Admission := 2
  const Unreserved: Admission := 3

  /** An error value is the set of causes errors.Join collected; the empty set is nil. */
  type Failure = set<Error>

  datatype AdmitAnswer = AdmitAnswer(status: Admission, retryAt: Time, finish: bool, err: Failure)

  /** A dispatch may record facts on its Receipt while it runs, and returns a possibly owned route result, already
      validated, and an error. */
  datatype DispatchAnswer = DispatchAnswer(recorded: seq<Event>, owned: bool, err: Failure)

  /** A callback's value together with its error. */
  datatype Reply<T> = Reply(value: T, err: Failure)

  datatype Script = Script(
    foreign: nat -> seq<Op>,                       // other goroutines, between two Coordinator accesses
    bypass: nat -> seq<Op>,                        // the same while this goroutine holds a Receipt
    now: nat -> Time,
    context: nat -> Failure,                       // ctx.Err()
    bounded: nat -> Option<Option<Time>>,          // DeadlineContext: nothing usable, or its deadline
    freshness: nat -> Failure,
    admit: nat -> AdmitAnswer,
    dispatch: nat -> DispatchAnswer,
    settle: nat -> Failure,                        // cleanup context and Finish
    settlement: nat -> Failure,                    // Receipt.err as found under its lock
    closed: nat -> bool,                           // whether someone already ran the Lifetime's hooks
    cleanup: nat -> Failure,                       // Lifetime.Close
    classify: nat -> Failure,
    replay: nat -> Reply<Replay>,
    schedule: nat -> Reply<ScheduleInput>,
    wait: nat -> Failure,
    next: nat -> Reply<Identity>)

  predicate IsControlError(err: Failure) {
    InvalidEvent in err || InvalidBoundary in err || InvalidConfig in err
  }

  /** An authorized repeat: the ledger at the compare-and-swap, the evidence, and the clock just before it. */
  datatype Grant = Grant(ledger: Ledger, expected: Event, replay: Replay, action: Action, settlement: Failure)

  /** When a repeat was planned: the ticks at which Schedule was asked, the clock was read for it, and the clock was
      read after the wait. */
  datatype Ticks = Ticks(asked: nat, read: nat, checked: nat)

  /** One invocation of the Dispatch callback, made at tick `called`. A repeat carries its grant, the number of
      authorization passes, its planning ticks and the tick `at` of the last clock reading before it; `deadline` is the
      sequence's own and `limit` also counts the bounded context's. */
  datatype Dispatch = Dispatch(
    id: Identity, grant: Option<Grant>, passes: nat, notBefore: Time, ticks: Ticks, at: nat,
    deadline: Time, limit: Time, called: nat)

  datatype BoundaryResult = BoundaryResult(
    receipt: bool, started: bool, budgetExhausted: bool, admission: Admission, retryAt: Time,
    lifetime: bool,          // the route result carries a Lifetime
    closes: nat,             // calls of Receipt.close made by this run
    notExecuted: bool,       // one of them claimed NotExecuted
    hooked: bool,            // one close is owed by a hook on the Lifetime
    settled: bool)           // that close wrote Terminal and reached settlement

  const NoTicks := Ticks(0, 0, 0)

  const NothingRun := BoundaryResult(false, false, false, Unreserved, Absent, false, 0, false, false, false)

  datatype Repeat = Repeat(previous: Identity, decision: Decision, ticks: Ticks)

  /** What an attempt to close leaves behind, whether or not its write was refused: the end or visible output. */
  predicate CloseTried(ledger: Ledger, id: Identity) {
    && id.attempt in ledger.events && ledger.events[id.attempt].identity == id
    && (ledger.events[id.attempt].phase == Terminal || ledger.events[id.attempt].committed)
  }

  lemma CloseTriedKept(before: Ledger, after: Ledger, id: Identity)
    requires Attempt.Inv(after) && Grows(before, after) && CloseTried(before, id)
    ensures CloseTried(after, id)
  {
    assert Le(before.events[id.attempt], after.events[id.attempt]);
  }

  /** Closing was tried, or is owed by a hook on the result's Lifetime. */
  predicate Closable(ledger: Ledger, id: Identity, hooked: bool) {
    && id.attempt in ledger.events && ledger.events[id.attempt].identity == id
    && (hooked || CloseTried(ledger, id))
  }

  lemma ClosableKept(before: Ledger, after: Ledger, id: Identity, hooked: bool)
    requires Grows(before, after) && Attempt.Inv(after) && Closable(before, id, hooked)
    ensures Closable(after, id, hooked)
  {
    assert Le(before.events[id.attempt], after.events[id.attempt]);
  }

  /** Facts that refuse to be closed are final already, or have become visible. */
  lemma RefusedCloseIsTried(read: Event, stored: Event)
    requires ValidEvent(read) && ValidEvent(stored) && Le(read, stored) && !Le(stored, ClosingEvent(read, false))
    ensures stored.phase == Terminal || stored.committed
  {
  }

  ghost predicate GrantIsSound(g: Grant, id: Identity) {
    ValidEvent(g.expected) && RepeatRules(g.ledger, g.expected, id, g.replay, g.action) && g.settlement == {}
  }

  predicate WritesKey(op: Op, key: string) {
    match op
    case Begin(_) => false
    case Update(event) => event.identity.attempt == key
    case Authorize(_, next, _, _) => next.attempt == key
  }

  predicate Untouched(ops: seq<Op>, key: string) {
    forall i :: 0 <= i < |ops| ==> !WritesKey(ops[i], key)
  }

  lemma UntouchedKeeps(ledger: Ledger, ops: seq<Op>, key: string)
    ensures key in ledger.events && Untouched(ops, key) ==>
      key in Run(ledger, ops).events && Run(ledger, ops).events[key] == ledger.events[key]
  {
    if key in ledger.events && Untouched(ops, key) { UntouchedRun(ledger, ops, key); }
  }

  lemma {:induction false} UntouchedRun(ledger: Ledger, ops: seq<Op>, key: string)
    requires key in ledger.events && Untouched(ops, key)
    ensures key in Run(ledger, ops).events && Run(ledger, ops).events[key] == ledger.events[key]
    decreases |ops|
  {
    if ops != [] {
      assert !WritesKey(ops[0], key);
      UntouchedRun(Apply(ledger, ops[0]), ops[1..], key);
    }
  }

  // ---------------------------------------------------------------------------------------------
  // Calm runs: nobody interferes, every callback succeeds, and the clock keeps within every deadline

  /** The instant at which the derived contexts of a calm run end. */
  function Horizon(script: Script): Time {
    match script.bounded(0)
    case Some(Some(horizon)) => horizon
    case _ => Absent
  }

  predicate Roomy(script: Script, deadline: Time) {
    deadline == Absent || (InCalendar(deadline) && Horizon(script) <= deadline)
  }

  predicate RoomyContext(script: Script, context: Option<Time>) {
    context.Some? ==> InCalendar(context.value) && Horizon(script) <= context.value
  }

  ghost predicate Undisturbed(script: Script) {
    (forall t :: script.foreign(t) == []) && (forall t :: script.bypass(t) == []) && (forall t :: !script.closed(t))
  }

  ghost predicate Agreeable(script: Script) {
    && (forall t :: script.context(t) == {}) && (forall t :: script.freshness(t) == {})
    && (forall t :: script.settle(t) == {}) && (forall t :: script.settlement(t) == {})
    && (forall t :: script.cleanup(t) == {}) && (forall t :: script.classify(t) == {})
    && (forall t :: script.replay(t).err == {}) && (forall t :: script.schedule(t).err == {})
    && (forall t :: script.wait(t) == {}) && (forall t :: script.next(t).err == {})
    && (forall t :: Admits(script.admit(t)))
  }

  /** A declared status, and an Admitted one comes with its settlement callback. */
  predicate Coherent(admission: AdmitAnswer) {
    admission.status <= Unreserved && (admission.status == Admitted ==> admission.finish)
  }

  predicate Admits(admission: AdmitAnswer) {
    admission.err == {} && ((admission.status == Admitted && admission.finish) || admission.status == Unreserved)
  }

  /** The clock is valid and before every deadline, and a scheduled start has come once it was waited for. */
  ghost predicate Timely(script: Script, parent: Option<Time>) {
    && InCalendar(Horizon(script)) && RoomyContext(script, parent)
    && (forall t :: script.bounded(t) == Some(Some(Horizon(script))))
    && (forall t :: InCalendar(script.now(t))) && (forall t :: script.now(t) < Horizon(script))
    && (forall t :: Schedulable(script, script.schedule(t).value))
    && (forall s, t :: s + 1 < t ==> Reached(script, s, t))
  }

  predicate Schedulable(script: Script, input: ScheduleInput) {
    && input.backoff >= 0 && (input.invalidHint == RejectHint || input.invalidHint == IgnoreHint)
    && (input.cooldown == Absent || InCalendar(input.cooldown)) && Roomy(script, input.deadline)
    && (input.hint.present && !UsableHint(input.hint) ==> input.invalidHint == IgnoreHint)
  }

  /** What Schedule answered at tick `asked`, with the clock read right after it, allows a start at tick `t`. */
  predicate Reached(script: Script, asked: nat, t: nat) {
    RespectsBounds(script.now(t), script.schedule(asked).value.(now := script.now(asked + 1)))
  }

  ghost predicate Calm(script: Script, parent: Option<Time>) {
    Undisturbed(script) && Agreeable(script) && Timely(script, parent)
  }

  /** Cancellation comes first, then an unusable clock or deadline or a start that has not come, then the deadline. */
  function StartError(script: Script, at: nat, context: Option<Time>, deadline: Time, notBefore: Time): Failure {
    var now := script.now(at);
    if script.context(at) != {} then script.context(at)
    else if !InCalendar(now) || !(deadline == Absent || InCalendar(deadline)) then {InvalidHint}
    else if notBefore != Absent && now < notBefore then {InvalidHint}
    else if BeforeDeadline(now, EarliestDeadline(context, deadline, Absent)) then {}
    else {DeadlineExceeded}
  }

  /** From tick t on: a run that started, or was not admitted, carries what the admission said. */
  predicate AdmittedAs(script: Script, hasAdmit: bool, timed: bool, t: nat, result: BoundaryResult) {
    result.started || result.admission == Denied || result.admission == Deferred ==>
      if hasAdmit then
        var admission := script.admit(t + FreshTicks(timed) + 1);
        result.admission == admission.status && result.retryAt == admission.retryAt
      else result.admission == Unreserved && result.retryAt == Absent
  }

  /** How many questions a freshness check asks. */
  function FreshTicks(timed: bool): nat {
    if timed then 3 else 1
  }

  /** From tick t on: the binding was fresh and the context alive. */
  predicate Checked(script: Script, timed: bool, t: nat) {
    script.freshness(if timed then t + 1 else t) == {} && script.context(t + FreshTicks(timed)) == {}
  }

  /** From tick t on, everything Boundary.run asks between Begin and the start: a check, the admission if there is one,
      and another check. */
  predicate Cleared(script: Script, hasAdmit: bool, timed: bool, t: nat) {
    var n := FreshTicks(timed) + 1;
    && Checked(script, timed, t)
    && (hasAdmit ==> Admits(script.admit(t + n)))
    && Checked(script, timed, if hasAdmit then t + n + 1 else t + n)
  }

  lemma ClearedTwice(script: Script, hasAdmit: bool, timed: bool, from: nat, t: nat)
    requires Checked(script, timed, from) && t == from + FreshTicks(timed) + 1 + (if hasAdmit then 1 else 0)
    requires hasAdmit ==> Admits(script.admit(t - 1))
    ensures Checked(script, timed, t) ==> Cleared(script, hasAdmit, timed, from)
  {
  }

  /** Right before tick t, the failure was classified and this evidence given, in a context still alive. */
  predicate Gathered(script: Script, t: nat, replay: Replay) {
    && t >= 3 && script.classify(t - 3) == {} && script.replay(t - 2) == Reply(replay, {})
    && script.context(t - 1) == {}
  }

  /** Schedule was asked about a failure with evidence for a repeat. */
  predicate Posed(script: Script, asked: nat) {
    asked >= 3 && Gathered(script, asked, script.replay(asked - 2).value) && script.schedule(asked).err == {}
  }

  /** The context derived at tick t ends by this limit, if there is one. */
  predicate Bounds(script: Script, t: nat, limit: Time) {
    limit == Absent || match script.bounded(t) case Some(Some(end)) => end <= limit case _ => false
  }

  /** From tick t on: the derived context ends in time, and the result's own cleanup succeeds. */
  predicate Releasable(script: Script, t: nat, last: BoundaryResult, limit: Time) {
    Bounds(script, t, limit) && (last.lifetime ==> script.cleanup(t + 1) == {})
  }

  /** The wait came to its end, in a context still alive. */
  predicate Waited(script: Script, checked: nat) {
    checked >= 1 && script.wait(checked - 1) == {} && script.context(checked) == {}
  }

  /** One more dispatch, of this identity under this deadline. */
  predicate Extends(before: seq<Dispatch>, after: seq<Dispatch>, id: Identity, limit: Time) {
    && |after| == |before| + 1 && after == before + [after[|after| - 1]]
    && after[|after| - 1].id == id && after[|after| - 1].deadline == limit
  }

  /** The error of the latest attempt includes what its Dispatch returned, and in a calm run is just that. */
  ghost predicate Reports(script: Script, parent: Option<Time>, log: seq<Dispatch>, err: Failure) {
    && log != [] && script.dispatch(log[|log| - 1].called).err <= err
    && (Calm(script, parent) ==> err == script.dispatch(log[|log| - 1].called).err)
  }

  /** Next keeps to the operation and never names an attempt twice. */
  ghost predicate Supplied(script: Script, operation: string) {
    && (forall t :: script.next(t).value.operation == operation && script.next(t).value.attempt != "")
    && (forall s, t :: s != t ==> script.next(s).value.attempt != script.next(t).value.attempt)
  }

  function Wanted(script: Script): Action {
    if script.replay(0).value.useFallback then Fallback else Retry
  }

  /** Whenever it is asked, the evidence permits a repeat after these facts, always of the same kind. */
  ghost predicate Willing(script: Script, event: Event) {
    forall t :: Permits(script, event, script.replay(t).value)
  }

  predicate Permits(script: Script, event: Event, replay: Replay) {
    RepeatSafe(event, replay) && Wanted(script) == (if replay.useFallback then Fallback else Retry)
  }

  /** The same facts, but for the end of the attempt. */
  predicate SameFacts(a: Event, b: Event) {
    a.identity == b.identity && a.committed == b.committed && a.outcome == b.outcome
  }

  lemma WillingKept(script: Script, a: Event, b: Event)
    requires Willing(script, a) && SameFacts(a, b)
    ensures Willing(script, b)
  {
    forall t ensures Permits(script, b, script.replay(t).value) {
      assert Permits(script, a, script.replay(t).value);
    }
  }

  function Stores(ledger: Ledger, event: Event): Ledger {
    ledger.(events := ledger.events[event.identity.attempt := event])
  }

  /** A start that has come by tick `from`, whatever is read from then on. */
  ghost predicate Waitable(script: Script, start: Time, from: nat) {
    forall t :: t >= from ==> start <= script.now(t)
  }

  /** In a calm run every repeat gets a window: it opens in time and ends no earlier than the contexts. */
  lemma CalmSchedule(script: Script, parent: Option<Time>, deadline: Time, decision: Decision, asked: nat)
    requires Calm(script, parent) && Roomy(script, deadline) && IsRepeat(decision.action)
    ensures
      var wanted := script.schedule(asked).value;
      var input := wanted.(now := script.now(asked + 1),
                           deadline := EarliestDeadline(parent, wanted.deadline, deadline));
      var (planned, err) := ScheduleRepeat(decision, input);
      && err.None? && planned.action == decision.action && Roomy(script, planned.deadline)
      && Waitable(script, planned.notBefore, asked + 2)
  {
    var wanted := script.schedule(asked).value;
    var input := wanted.(now := script.now(asked + 1), deadline := EarliestDeadline(parent, wanted.deadline, deadline));
    RoomyEarliest(script, parent, wanted.deadline, deadline);
    assert Reached(script, asked, asked + 2);
    ScheduleFailsExactly(decision, input);
    ScheduleIsLeastWindow(decision, input);
    var start := ScheduleRepeat(decision, input).0.notBefore;
    forall t | t >= asked + 2 ensures start <= script.now(t) {
      assert Reached(script, asked, t);
      assert RespectsBounds(script.now(t), input);
    }
  }

  /** The facts Dispatch records on its own Receipt; those of another attempt are refused before they are written. */
  function Records(id: Identity, events: seq<Event>): seq<Op> {
    if events == [] then []
    else (if events[0].identity == id then [Update(events[0])] else []) + Records(id, events[1..])
  }

  /** Only this identity's facts have changed. */
  predicate OnlyTouches(before: Ledger, after: Ledger, id: Identity) {
    && after.events.Keys == before.events.Keys && after.operation == before.operation && after.limit == before.limit
    && (forall key :: key in before.events && key != id.attempt ==> after.events[key] == before.events[key])
  }

  lemma {:induction false} RecordsTouchOnly(ledger: Ledger, id: Identity, events: seq<Event>)
    ensures OnlyTouches(ledger, Run(ledger, Records(id, events)), id)
    decreases |events|
  {
    if events != [] {
      var ops := Records(id, events);
      if events[0].identity == id {
        var middle := Apply(ledger, Update(events[0]));
        assert ops[0] == Update(events[0]) && ops[1..] == Records(id, events[1..]);
        assert OnlyTouches(ledger, middle, id);
        RecordsTouchOnly(middle, id, events[1..]);
      } else {
        assert ops == Records(id, events[1..]);
        RecordsTouchOnly(ledger, id, events[1..]);
      }
    }
  }

  lemma TouchThenStore(before: Ledger, middle: Ledger, event: Event)
    requires OnlyTouches(before, middle, event.identity) && event.identity.attempt in middle.events
    ensures OnlyTouches(before, Stores(middle, event), event.identity)
  {
  }

  lemma TouchTwice(a: Ledger, b: Ledger, c: Ledger, id: Identity)
    requires OnlyTouches(a, b, id) && OnlyTouches(b, c, id)
    ensures OnlyTouches(a, c, id)
  {
  }

  lemma AddThenTouch(a: Ledger, b: Ledger, c: Ledger, id: Identity)
    requires OnlyAdds(a, b, id) && id.attempt !in a.events && OnlyTouches(b, c, id)
    ensures OnlyAdds(a, c, id)
  {
  }

  /** The identity was added; nothing else has changed. */
  predicate OnlyAdds(before: Ledger, after: Ledger, id: Identity) {
    && after.events.Keys == before.events.Keys + {id.attempt}
    && (forall key :: key in before.events ==> after.events[key] == before.events[key])
  }

  lemma TouchedSize(before: Ledger, after: Ledger, id: Identity)
    requires OnlyTouches(before, after, id)
    ensures |after.events| == |before.events|
  {
    assert |after.events| == |after.events.Keys| && |before.events| == |before.events.Keys|;
  }

  lemma AddedSize(before: Ledger, after: Ledger, id: Identity)
    requires after.events.Keys == before.events.Keys + {id.attempt} && id.attempt !in before.events
    ensures |after.events| == |before.events| + 1
  {
    assert |after.events.Keys| == |before.events.Keys| + 1;
    assert |after.events| == |after.events.Keys| && |before.events| == |before.events.Keys|;
  }

  lemma AddingAddsOne(before: Ledger, after: Ledger, id: Identity)
    ensures OnlyAdds(before, after, id) && id.attempt !in before.events ==> |after.events| == |before.events| + 1
  {
    if OnlyAdds(before, after, id) && id.attempt !in before.events { AddedSize(before, after, id); }
  }

  lemma RoomyEarliest(script: Script, context: Option<Time>, first: Time, second: Time)
    requires InCalendar(Horizon(script))
    requires RoomyContext(script, context) && Roomy(script, first) && Roomy(script, second)
    ensures Roomy(script, EarliestDeadline(context, first, second))
  {
  }

  class World {
    const script: Script
    const coordinator: Coordinator
    const hasAdmit: bool                // Boundary.Admit is set
    const complete: bool                // every other required callback is set
    const parent: Option<Time>          // the deadline of the context given to Run

    var tick: nat
    var deadline: Time                  // Sequence.Deadline, tightened by Run
    var dispatches: seq<Dispatch>       // Dispatch callbacks invoked so far

    constructor (script: Script, coordinator: Coordinator, hasAdmit: bool, complete: bool,
                 parent: Option<Time>, deadline: Time)
      ensures this.script == script && this.coordinator == coordinator
      ensures this.hasAdmit == hasAdmit && this.complete == complete
      ensures this.parent == parent && this.deadline == deadline && tick == 0 && dispatches == []
    {
      this.script, this.coordinator, this.hasAdmit, this.complete := script, coordinator, hasAdmit, complete;
      this.parent, this.tick, this.deadline, this.dispatches := parent, 0, deadline, [];
    }

    /** Other goroutines run their Coordinator operations. */
    method Interleave(ops: seq<Op>)
      requires coordinator.Valid()
      modifies coordinator
      ensures coordinator.Valid() && coordinator.State() == Run(old(coordinator.State()), ops)
      ensures Grows(old(coordinator.State()), coordinator.State())
    {
      var i := 0;
      while i < |ops|
        invariant 0 <= i <= |ops| && coordinator.Valid()
        invariant Run(coordinator.State(), ops[i..]) == Run(old(coordinator.State()), ops)
      {
        match ops[i] {
          case Begin(id) => var _ := coordinator.Begin(id);
          case Update(event) => var _ := coordinator.Update(event);
          case Authorize(expected, next, replay, cancelled) =>
            var _ := coordinator.AuthorizeRepeat(expected, next, replay, cancelled);
        }
        assert ops[i..][1..] == ops[i + 1..];
        i := i + 1;
      }
      RunSafe(old(coordinator.State()), ops);
    }

    method Yield()
      requires coordinator.Valid()
      modifies coordinator, this`tick
      ensures coordinator.Valid() && tick == old(tick) + 1
      ensures coordinator.State() == Run(old(coordinator.State()), script.foreign(old(tick)))
      ensures Grows(old(coordinator.State()), coordinator.State())
    {
      Interleave(script.foreign(tick));
      tick := tick + 1;
    }

    /** Receipt.Snapshot: current facts and budget, joined with the outstanding settlement error. */
    method ReadReceipt(id: Identity) returns (event: Event, remaining: int, err: Failure)
      requires coordinator.Valid()
      modifies coordinator, this`tick
      ensures coordinator.Valid() && Grows(old(coordinator.State()), coordinator.State()) && tick == old(tick) + 2
      ensures err == script.settlement(old(tick) + 1) + (if Allocated(id) then {} else {InvalidEvent})
      ensures err == {} ==> id.attempt in coordinator.events && coordinator.events[id.attempt] == event
                            && event.identity == id && remaining == Remaining(coordinator.State())
      ensures Calm(script, parent) ==> coordinator.State() == old(coordinator.State()) && (Allocated(id) ==> err == {})
    {
      Yield();
      var read := coordinator.Snapshot(id);
      err := script.settlement(tick);
      tick := tick + 1;
      match read {
        case Err(e) => err, event, remaining := err + {e}, Event(id, BeforeDispatch, false, Unknown), 0;
        case Ok((found, left)) => event, remaining := found, left;
      }
      assert err + {} == err;
    }

    /** checkStart, with the tick of the clock reading that passed. */
    method CheckStart(context: Option<Time>, notBefore: Time) returns (err: Failure, at: nat)
      modifies this`tick
      ensures at == old(tick) && tick == old(tick) + 1
      ensures err == {} ==>
        && (notBefore == Absent || notBefore <= script.now(at))
        && BeforeDeadline(script.now(at), EarliestDeadline(context, deadline, Absent))
      ensures err == StartError(script, at, context, deadline, notBefore)
      ensures AtEase(context) && (notBefore == Absent || notBefore <= script.now(old(tick))) ==> err == {}
    {
      at := tick;
      err := script.context(tick);
      var now := script.now(tick);
      tick := tick + 1;
      if err != {} { return; }
      if AddDelay(now, 0).Err? { return {InvalidHint}, at; }
      if deadline != Absent && AddDelay(deadline, 0).Err? { return {InvalidHint}, at; }
      if notBefore != Absent && now < notBefore { return {InvalidHint}, at; }
      var limit := EarliestDeadline(context, deadline, Absent);
      if limit != Absent && now >= limit { return {DeadlineExceeded}, at; }
    }

    /** A calm run with time left, seen from a context. */
    ghost predicate AtEase(context: Option<Time>)
      reads this
    {
      Calm(script, parent) && Roomy(script, deadline) && RoomyContext(script, context)
    }

    /** The identity has its slot, and if it is to repeat an attempt, that one is over and may be repeated. */
    ghost predicate Startable(id: Identity, repeat: Option<Repeat>)
      reads coordinator
    {
      && id.attempt in coordinator.events
      && coordinator.events[id.attempt] == Event(id, BeforeDispatch, false, Unknown)
      && (repeat.Some? ==>
            && repeat.value.decision.action == Wanted(script) && repeat.value.previous != id
            && Repeatable(repeat.value.previous))
    }

    /** Begin would give the identity a slot. */
    ghost predicate Available(id: Identity)
      reads coordinator
    {
      && id.operation == coordinator.operation && id.attempt != "" && id.attempt !in coordinator.events
      && |coordinator.events| < coordinator.limit
    }

    /** The facts permit a repeat, and there is budget for one. */
    ghost predicate Hopeful(id: Identity)
      reads coordinator
    {
      && Allocated(id) && Willing(script, coordinator.events[id.attempt])
      && |coordinator.events| < coordinator.limit
    }

    ghost predicate Following(repeat: Option<Repeat>)
      reads coordinator
    {
      repeat.Some? ==> repeat.value.decision.action == Wanted(script) && Repeatable(repeat.value.previous)
    }

    ghost predicate Repeatable(id: Identity)
      reads coordinator
    {
      && Allocated(id) && coordinator.events[id.attempt].phase == Terminal
      && Willing(script, coordinator.events[id.attempt])
    }

    /** A repeat is only attempted once closing its predecessor was tried. */
    ghost predicate Ready(repeat: Option<Repeat>)
      reads coordinator
    {
      repeat.Some? ==>
        IsRepeat(repeat.value.decision.action) && CloseTried(coordinator.State(), repeat.value.previous)
    }

    ghost predicate Allocated(id: Identity)
      reads coordinator
    {
      id.attempt in coordinator.events && coordinator.events[id.attempt].identity == id
    }

    /** Coordinator.Update while this goroutine holds the receipt: only bypassing writers can interfere. */
    method WriteLocked(event: Event) returns (err: Option<Error>)
      requires coordinator.Valid()
      modifies coordinator, this`tick
      ensures coordinator.Valid() && Grows(old(coordinator.State()), coordinator.State()) && tick == old(tick) + 1
      ensures err.None? ==> Allocated(event.identity) && coordinator.events[event.identity.attempt] == event
      ensures err.Some? ==> err.value == InvalidEvent
      ensures err.Some? ==> !Accepts(coordinator.State(), event)
      ensures old(Allocated(event.identity)) && Untouched(script.bypass(old(tick)), event.identity.attempt)
              && ValidEvent(event) && Le(old(coordinator.State()).events[event.identity.attempt], event)
              ==> err.None?
      ensures Calm(script, parent) && err.None? ==> coordinator.State() == Stores(old(coordinator.State()), event)
    {
      UntouchedKeeps(coordinator.State(), script.bypass(tick), event.identity.attempt);
      Interleave(script.bypass(tick));
      tick := tick + 1;
      UpdateAccepts(coordinator.State(), event);
      err := coordinator.Update(event);
    }

    /** Lock the receipt and read the Coordinator: until then anyone may have written. */
    method ReadUnlocked(id: Identity) returns (r: Result<Event, Error>)
      requires coordinator.Valid()
      modifies coordinator, this`tick
      ensures coordinator.Valid() && Grows(old(coordinator.State()), coordinator.State()) && tick == old(tick) + 1
      ensures r.Ok? <==> Allocated(id)
      ensures r.Err? ==> r.error == InvalidEvent
      ensures r.Ok? ==> coordinator.events[id.attempt] == r.value && ValidEvent(r.value)
      ensures old(Allocated(id)) && Untouched(script.foreign(old(tick)), id.attempt)
              ==> r == Ok(old(coordinator.State()).events[id.attempt])
      ensures Calm(script, parent) ==> coordinator.State() == old(coordinator.State())
    {
      UntouchedKeeps(coordinator.State(), script.foreign(tick), id.attempt);
      Yield();
      var read := coordinator.Snapshot(id);
      r := if read.Err? then Err(read.error) else Ok(read.value.0);
    }

    /** The write of Receipt.close, computed from the facts it has read. */
    method WriteClosing(read: Event, notExecuted: bool) returns (err: Option<Error>)
      requires coordinator.Valid() && Allocated(read.identity) && ValidEvent(read)
      requires coordinator.events[read.identity.attempt] == read
      modifies coordinator, this`tick
      ensures coordinator.Valid() && Grows(old(coordinator.State()), coordinator.State()) && tick == old(tick) + 1
      ensures err.Some? ==> err.value == InvalidEvent
      ensures err.None? ==>
        Allocated(read.identity) && coordinator.events[read.identity.attempt] == ClosingEvent(read, notExecuted)
      ensures !notExecuted ==> CloseTried(coordinator.State(), read.identity)
      ensures Untouched(script.bypass(old(tick)), read.identity.attempt) && (notExecuted ==> NotContradicted(read))
              ==> err.None?
      ensures Calm(script, parent) && !notExecuted ==>
        err.None? && coordinator.State() == Stores(old(coordinator.State()), ClosingEvent(read, false))
    {
      if !notExecuted || NotContradicted(read) { ClosingIsUpdate(read, notExecuted); }
      err := WriteLocked(ClosingEvent(read, notExecuted));
      if err.Some? && !notExecuted { RefusedCloseIsTried(read, coordinator.events[read.identity.attempt]); }
    }

    /** Receipt.close, not yet closed: force Terminal (and NotExecuted), then settle. `settled` tells that the
        write succeeded and the host's Finish was reached. */
    method CloseReceipt(id: Identity, notExecuted: bool) returns (err: Failure, settled: bool)
      requires coordinator.Valid()
      modifies coordinator, this`tick
      ensures coordinator.Valid() && Grows(old(coordinator.State()), coordinator.State()) && tick > old(tick)
      ensures !settled ==> err == {InvalidEvent}
      ensures settled ==> err == script.settle(tick - 1)
      ensures old(Allocated(id)) && !notExecuted ==> CloseTried(coordinator.State(), id)
      ensures settled ==> Allocated(id) && coordinator.events[id.attempt].phase == Terminal
                          && (notExecuted ==> coordinator.events[id.attempt].outcome == NotExecuted)
      ensures old(Allocated(id)) && Untouched(script.bypass(old(tick) + 1), id.attempt)
              && (notExecuted ==> Untouched(script.foreign(old(tick)), id.attempt)
                                  && NotContradicted(old(coordinator.State()).events[id.attempt]))
              ==> settled
      ensures Calm(script, parent) && old(Allocated(id)) && !notExecuted ==>
        && settled && err == {}
        && coordinator.State()
           == Stores(old(coordinator.State()), ClosingEvent(old(coordinator.State()).events[id.attempt], false))
    {
      settled := false;
      ghost var start := coordinator.State();
      var read := ReadUnlocked(id);
      if read.Err? { return {read.error}, false; }
      ghost var middle := coordinator.State();
      var written := WriteClosing(read.value, notExecuted);
      GrowsTransitive(start, middle, coordinator.State());
      if written.Some? { return {written.value}, false; }
      settled := true;
      err := script.settle(tick);
      tick := tick + 1;
    }

    /** Receipt.authorizeRepeat: wait for the token, refuse on a settlement error, check the clock outside the
        mutex, then compare-and-swap. */
    method Swap(context: Option<Time>, event: Event, next: Identity, replay: Replay)
      returns (r: SwapResult, at: nat)
      requires coordinator.Valid()
      modifies coordinator, this`tick
      ensures coordinator.Valid() && Grows(old(coordinator.State()), coordinator.State())
      ensures tick > old(tick) && old(tick) <= at < tick
      ensures r.Changed? ==> Overtaken(coordinator.State(), event)
      ensures r.Blocked? && StickyContext(script) ==> r.err != {}
      ensures script.context(old(tick)) != {} ==> r == Blocked(script.context(old(tick)))
      ensures script.context(old(tick)) == {} && script.settlement(old(tick)) != {} ==>
        r == Blocked(script.settlement(old(tick)))
      ensures r.Answered? && IsRepeat(r.decision.action) ==>
        && GrantIsSound(r.grant, next) && r.grant.expected == event && r.grant.replay == replay
        && r.grant.action == r.decision.action
        && Grows(old(coordinator.State()), r.grant.ledger) && Grows(r.grant.ledger, coordinator.State())
        && BeforeDeadline(script.now(at), EarliestDeadline(context, deadline, Absent))
      ensures AtEase(context) && MayRepeat(old(coordinator.State()), event, next, replay) ==>
        && r.Answered? && IsRepeat(r.decision.action)
        && coordinator.State() == Stores(old(coordinator.State()), Event(next, Dispatched, false, Unknown))
    {
      var gateErr;
      gateErr, at := SwapGate(context);
      if gateErr != {} { return Blocked(gateErr), at; }
      var answer, grant := SwapNow(event, next, replay, {});
      r := AnswerSwap(answer, grant);
    }

    /** What becomes of the Coordinator's answer: changed facts are looked at again, a cancellation is reported as the
        context's own error, and every other refusal as it is. */
    method AnswerSwap(answer: Result<Decision, Error>, grant: Grant) returns (r: SwapResult)
      modifies this`tick
      ensures tick >= old(tick)
      ensures r.Changed? <==> answer == Err(EventChanged)
      ensures r.Answered? <==> answer.Ok?
      ensures answer.Ok? ==> r == Answered(answer.value, grant)
      ensures r.Blocked? ==>
        r.err == if answer.error == AuthorizationCancelled then script.context(old(tick)) else {answer.error}
    {
      if answer.Ok? { return Answered(answer.value, grant); }
      if answer.error == EventChanged { return Changed; }
      var cancelled := script.context(tick);
      tick := tick + 1;
      r := Blocked(if answer.error == AuthorizationCancelled then cancelled else {answer.error});
    }

    /** What authorizeRepeat checks before the compare-and-swap: cancellation, the settlement, the clock. */
    method SwapGate(context: Option<Time>) returns (err: Failure, at: nat)
      modifies this`tick
      ensures tick > old(tick) && old(tick) <= at < tick
      ensures script.context(old(tick)) != {} ==> err == script.context(old(tick))
      ensures script.context(old(tick)) == {} && script.settlement(old(tick)) != {} ==>
        err == script.settlement(old(tick))
      ensures script.context(old(tick)) == {} && script.settlement(old(tick)) == {} ==>
        err == StartError(script, old(tick) + 1, context, deadline, Absent)
      ensures err == {} ==> BeforeDeadline(script.now(at), EarliestDeadline(context, deadline, Absent))
      ensures AtEase(context) ==> err == {}
    {
      at := tick;
      var cancelled := script.context(tick);
      var outstanding := script.settlement(tick);
      tick := tick + 1;
      if cancelled != {} { return cancelled, at; }
      if outstanding != {} { return outstanding, at; }
      err, at := CheckStart(context, Absent);
    }

    /** The first half of a pass of Sequence.authorize: current facts and fresh evidence for exactly them. */
    method Evidence(context: Option<Time>, repeat: Repeat)
      returns (err: Failure, event: Option<Event>, replay: Replay)
      requires coordinator.Valid() && IsRepeat(repeat.decision.action)
      modifies coordinator, this`tick
      ensures coordinator.Valid() && Grows(old(coordinator.State()), coordinator.State()) && tick > old(tick)
      ensures event.Some? ==> Allocated(repeat.previous) && event.value == coordinator.events[repeat.previous.attempt]
      ensures err == {} ==>
        && event.Some?
        && (RepeatSafe(event.value, replay) ==>
              repeat.decision.action == (if replay.useFallback then Fallback else Retry))
        && (NeverSafeDuplicate(script) ==> !replay.safeDuplicate)
      ensures event.Some? && script.replay(old(tick) + 2).err != {} ==> err == script.replay(old(tick) + 2).err
      ensures Calm(script, parent) ==> coordinator.State() == old(coordinator.State())
      ensures AtEase(context) && Repeatable(repeat.previous) && repeat.decision.action == Wanted(script) ==>
        err == {} && Permits(script, coordinator.events[repeat.previous.attempt], replay)
    {
      var remaining;
      err, event, remaining, replay := Question(context, repeat.previous);
      if err != {} { return; }
      SameAction(coordinator.State(), event.value, remaining, replay);
      var decided := Decide(event.value, remaining + 1, replay);
      if decided.Err? { return {decided.error}, event, replay; }
      if IsRepeat(decided.value.action) && decided.value.action != repeat.decision.action {
        return {InvalidBoundary}, event, replay;
      }
    }

    /** The questions of that pass: facts, evidence, clock, cancellation. */
    method Question(context: Option<Time>, id: Identity)
      returns (err: Failure, event: Option<Event>, remaining: int, replay: Replay)
      requires coordinator.Valid()
      modifies coordinator, this`tick
      ensures coordinator.Valid() && Grows(old(coordinator.State()), coordinator.State()) && tick > old(tick)
      ensures event.Some? ==> Allocated(id) && event.value == coordinator.events[id.attempt]
      ensures err == {} ==>
        && event.Some? && remaining == Remaining(coordinator.State()) && script.settlement(old(tick) + 1) == {}
        && script.replay(old(tick) + 2) == Reply(replay, {}) && script.context(old(tick) + 4) == {}
      ensures event.Some? && script.replay(old(tick) + 2).err != {} ==> err == script.replay(old(tick) + 2).err
      ensures Calm(script, parent) ==> coordinator.State() == old(coordinator.State())
      ensures AtEase(context) && Allocated(id) ==> err == {}
    {
      replay, event := Replay(false, false, false, false, false, false), None;
      var found;
      found, remaining, err := ReadReceipt(id);
      if err != {} { return; }
      event := Some(found);
      var evidence := script.replay(tick);
      tick := tick + 1;
      replay, err := evidence.value, evidence.err;
      if err != {} { return; }
      var at;
      err, at := CheckStart(context, Absent);
      if err != {} { return; }
      err := script.context(tick);
      tick := tick + 1;
    }

    /** Permission for the stored facts is what the swap asks for. */
    lemma PermittedMayRepeat(next: Identity, repeat: Repeat, replay: Replay)
      requires Startable(next, Some(repeat)) && Permits(script, coordinator.events[repeat.previous.attempt], replay)
      ensures MayRepeat(coordinator.State(), coordinator.events[repeat.previous.attempt], next, replay)
    {
    }

    /** One pass of Sequence.authorize: evidence, then the swap. */
    method Pass(context: Option<Time>, next: Identity, repeat: Repeat)
      returns (r: SwapResult, event: Option<Event>, at: nat)
      requires coordinator.Valid() && IsRepeat(repeat.decision.action)
      modifies coordinator, this`tick
      ensures coordinator.Valid() && Grows(old(coordinator.State()), coordinator.State()) && tick > old(tick)
      ensures event.Some? ==> Between(old(coordinator.State()), event.value, coordinator.State(), repeat.previous)
      ensures r.Changed? ==> event.Some? && Overtaken(coordinator.State(), event.value)
      ensures r.Blocked? && StickyContext(script) ==> r.err != {}
      ensures r.Answered? && IsRepeat(r.decision.action) ==>
        && Authorized(script, r, next, repeat) && old(tick) <= at < tick
        && Grows(old(coordinator.State()), r.grant.ledger) && Grows(r.grant.ledger, coordinator.State())
        && BeforeDeadline(script.now(at), EarliestDeadline(context, deadline, Absent))
      ensures AtEase(context) && old(Startable(next, Some(repeat))) ==>
        && r.Answered? && IsRepeat(r.decision.action)
        && coordinator.State() == Stores(old(coordinator.State()), Event(next, Dispatched, false, Unknown))
    {
      ghost var calmly := AtEase(context) && Startable(next, Some(repeat));
      at := tick;
      var err, replay;
      err, event, replay := Evidence(context, repeat);
      if err != {} { return Blocked(err), event, at; }
      ghost var start, middle := old(coordinator.State()), coordinator.State();
      if calmly {
        assert middle == start;
        PermittedMayRepeat(next, repeat, replay);
      }
      r, at := Swap(context, event.value, next, replay);
      GrowsTransitive(start, middle, coordinator.State());
      if r.Answered? && IsRepeat(r.decision.action) { GrowsTransitive(start, middle, r.grant.ledger); }
    }

    /** Sequence.authorize: changed facts start another pass. There is at most one more pass than the attempt's facts
        can still strictly grow, and by now closing was tried, so they can grow at most twice. */
    method Authorize(context: Option<Time>, next: Identity, repeat: Repeat)
      returns (r: SwapResult, at: nat, passes: nat, first: Option<Event>)
      requires coordinator.Valid() && IsRepeat(repeat.decision.action)
      requires CloseTried(coordinator.State(), repeat.previous)
      modifies coordinator, this`tick
      ensures coordinator.Valid() && Grows(old(coordinator.State()), coordinator.State()) && tick > old(tick)
      ensures !r.Changed? && (r.Blocked? && StickyContext(script) ==> r.err != {})
      ensures r.Answered? && IsRepeat(r.decision.action) ==>
        && Authorized(script, r, next, repeat) && old(tick) <= at < tick
        && Grows(r.grant.ledger, coordinator.State())
        && BeforeDeadline(script.now(at), EarliestDeadline(context, deadline, Absent))
      ensures 1 <= passes <= (if first.Some? then Headroom(first.value) + 1 else 1) && passes <= 3
      ensures AtEase(context) && old(Startable(next, Some(repeat))) ==>
        && r.Answered? && IsRepeat(r.decision.action)
        && coordinator.State() == Stores(old(coordinator.State()), Event(next, Dispatched, false, Unknown))
    {
      ghost var tried := coordinator.State();
      r, first, at := Pass(context, next, repeat);
      passes := 1;
      assert first.Some? ==> Le(tried.events[repeat.previous.attempt], first.value);
      if r.Changed? {
        ghost var start, middle := tried, coordinator.State();
        r, at, passes := AuthorizeAgain(context, next, repeat, first.value);
        GrowsTransitive(start, middle, coordinator.State());
      }
    }

    /** The passes after the first one, which found its facts overtaken. */
    method AuthorizeAgain(context: Option<Time>, next: Identity, repeat: Repeat, first: Event)
      returns (r: SwapResult, at: nat, passes: nat)
      requires coordinator.Valid() && IsRepeat(repeat.decision.action)
      requires Pending(coordinator.State(), first, repeat.previous)
      modifies coordinator, this`tick
      ensures coordinator.Valid() && Grows(old(coordinator.State()), coordinator.State()) && tick > old(tick)
      ensures !r.Changed? && (r.Blocked? && StickyContext(script) ==> r.err != {})
      ensures r.Answered? && IsRepeat(r.decision.action) ==>
        && Authorized(script, r, next, repeat) && old(tick) <= at < tick
        && Grows(r.grant.ledger, coordinator.State())
        && BeforeDeadline(script.now(at), EarliestDeadline(context, deadline, Absent))
      ensures 2 <= passes <= Headroom(first) + 1
    {
      ghost var seen, start := first, coordinator.State();
      passes := 1;
      while true
        invariant coordinator.Valid() && Grows(start, coordinator.State()) && tick >= old(tick)
        invariant Pending(coordinator.State(), seen, repeat.previous)
        invariant 1 <= passes && passes + Headroom(seen) <= Headroom(first) + 1
        decreases Headroom(seen)
      {
        ghost var before := coordinator.State();
        var event;
        r, event, at := Pass(context, next, repeat);
        GrowsTransitive(start, before, coordinator.State());
        passes := passes + 1;
        if event.Some? { PassShrinks(before, seen, event.value, repeat.previous); }
        PendingHasRoom(before, seen, repeat.previous);
        if !r.Changed? { return; }
        seen := event.value;
      }
    }

    /** Boundary.Fresh, wrapped by a Sequence in two checks of the start window. */
    method FreshCheck(context: Option<Time>, timed: bool) returns (err: Failure)
      modifies this`tick
      ensures tick >= old(tick)
      ensures tick <= old(tick) + FreshTicks(timed)
      ensures !timed ==> tick == old(tick) + 1 && err == script.freshness(old(tick))
      ensures timed && tick > old(tick) + 1 && script.freshness(old(tick) + 1) != {} ==>
        err == script.freshness(old(tick) + 1)
      ensures err == {} ==>
        tick == old(tick) + FreshTicks(timed) && script.freshness(if timed then old(tick) + 1 else old(tick)) == {}
      ensures AtEase(context) ==> err == {}
    {
      var at;
      if timed {
        err, at := CheckStart(context, Absent);
        if err != {} { return; }
      }
      err := script.freshness(tick);
      tick := tick + 1;
      if err != {} || !timed { return; }
      err, at := CheckStart(context, Absent);
    }

    /** Freshness, then cancellation. */
    method CheckAlive(context: Option<Time>, timed: bool) returns (err: Failure)
      modifies this`tick
      ensures old(tick) <= tick <= old(tick) + FreshTicks(timed) + 1
      ensures tick == old(tick) + FreshTicks(timed) + 1 ==> err == script.context(tick - 1)
      ensures err == {} ==> tick == old(tick) + FreshTicks(timed) + 1 && Checked(script, timed, old(tick))
      ensures AtEase(context) ==> err == {}
    {
      err := FreshCheck(context, timed);
      if err != {} { return; }
      err := script.context(tick);
      tick := tick + 1;
    }

    /** Boundary.prepare: a check, then the admission if there is one. */
    method Prepare(context: Option<Time>, timed: bool) returns (admission: AdmitAnswer)
      modifies this`tick
      ensures tick >= old(tick)
      ensures admission.err == {} ==>
        admission.status <= Unreserved && (admission.status == Admitted ==> admission.finish)
      ensures admission.err == {} ==>
        && Checked(script, timed, old(tick))
        && tick == old(tick) + FreshTicks(timed) + 1 + (if hasAdmit then 1 else 0)
        && admission == (if hasAdmit then script.admit(tick - 1) else AdmitAnswer(Unreserved, Absent, false, {}))
      ensures tick == old(tick) + FreshTicks(timed) + 2 ==>
        && hasAdmit && admission.status == script.admit(tick - 1).status
        && admission.retryAt == script.admit(tick - 1).retryAt
        && admission.err == (if script.admit(tick - 1).err == {} && !Coherent(script.admit(tick - 1))
                             then {InvalidBoundary} else script.admit(tick - 1).err)
      ensures admission.status == Denied || admission.status == Deferred ==> tick == old(tick) + FreshTicks(timed) + 2
      ensures AtEase(context) ==> Admits(admission)
    {
      admission := AdmitAnswer(Unreserved, Absent, false, {});
      var err := CheckAlive(context, timed);
      if err != {} { return admission.(err := err); }
      if !hasAdmit { return; }
      admission := script.admit(tick);
      tick := tick + 1;
      if admission.err != {} { return; }
      if admission.status > Unreserved || (admission.status == Admitted && !admission.finish) {
        admission := admission.(err := {InvalidBoundary});
      }
    }

    /** Receipt.start without an authorizer: record the identity as Dispatched. */
    method StartFirst(id: Identity) returns (err: Failure)
      requires coordinator.Valid()
      modifies coordinator, this`tick
      ensures coordinator.Valid() && Grows(old(coordinator.State()), coordinator.State()) && tick > old(tick)
      ensures err == {} ==> Allocated(id) && coordinator.events[id.attempt].phase >= Dispatched
      ensures Calm(script, parent) && old(Startable(id, None)) ==>
        && err == {}
        && coordinator.State() == Stores(old(coordinator.State()), Event(id, Dispatched, false, Unknown))
    {
      var event, remaining;
      ghost var start := coordinator.State();
      event, remaining, err := ReadReceipt(id);
      if err != {} { return; }
      ghost var middle := coordinator.State();
      err := Record(event.(phase := Dispatched));
      GrowsTransitive(start, middle, coordinator.State());
    }

    /** Receipt.Record on an open receipt: lock, a snapshot that cannot fail for an allocated identity, then the
        update. */
    method Record(event: Event) returns (err: Failure)
      requires coordinator.Valid()
      modifies coordinator, this`tick
      ensures coordinator.Valid() && Grows(old(coordinator.State()), coordinator.State()) && tick > old(tick)
      ensures err == {} ==> Allocated(event.identity) && coordinator.events[event.identity.attempt] == event
      ensures err == {} || err == {InvalidEvent}
      ensures Calm(script, parent) && old(Allocated(event.identity)) && ValidEvent(event)
              && Le(old(coordinator.State()).events[event.identity.attempt], event) ==>
        err == {} && coordinator.State() == Stores(old(coordinator.State()), event)
    {
      ghost var start := coordinator.State();
      Yield();
      ghost var middle := coordinator.State();
      var written := WriteLocked(event);
      GrowsTransitive(start, middle, coordinator.State());
      err := if written.Some? then {written.value} else {};
    }

    /** Receipt.start: either the first dispatch or an authorized repeat. */
    method Start(context: Option<Time>, id: Identity, repeat: Option<Repeat>)
      returns (allowed: bool, err: Failure, decision: Decision, dispatch: Dispatch)
      requires coordinator.Valid() && Ready(repeat)
      modifies coordinator, this`tick
      ensures coordinator.Valid() && Grows(old(coordinator.State()), coordinator.State()) && tick >= old(tick)
      ensures repeat.Some? ==> SameWindow(decision, repeat.value.decision)
      ensures allowed ==> err == {}
      ensures !allowed && StickyContext(script) ==> Explained(err, repeat, decision)
      ensures allowed ==>
        && dispatch.id == id && dispatch.deadline == deadline
        && DispatchIsSound(script, dispatch, repeat, old(tick), tick)
      ensures allowed && repeat.Some? ==>
        && Grows(dispatch.grant.value.ledger, coordinator.State())
        && decision.action == repeat.value.decision.action
        && dispatch.limit == EarliestDeadline(context, deadline, Absent)
      ensures AtEase(context) && old(Startable(id, repeat)) ==>
        && allowed
        && coordinator.State() == Stores(old(coordinator.State()), Event(id, Dispatched, false, Unknown))
    {
      decision := if repeat.Some? then repeat.value.decision else NoDecision;
      dispatch := Dispatch(id, None, 0, Absent, NoTicks, tick, deadline,
                           EarliestDeadline(context, deadline, Absent), 0);
      if repeat.None? {
        err := StartFirst(id);
        return err == {}, err, decision, dispatch;
      }
      var r, at, passes, first := Authorize(context, id, repeat.value);
      if r.Blocked? { return false, r.err, decision, dispatch; }
      decision := r.decision.(notBefore := decision.notBefore, deadline := decision.deadline);
      err := {};
      allowed := IsRepeat(decision.action);
      if allowed {
        dispatch := dispatch.(grant := Some(r.grant), passes := passes, notBefore := decision.notBefore,
                              ticks := repeat.value.ticks, at := at);
      }
    }

    /** The Dispatch callback itself. */
    method CallHost(dispatch: Dispatch) returns (answer: DispatchAnswer)
      requires coordinator.Valid() && Allocated(dispatch.id)
      modifies coordinator, this`tick, this`dispatches
      ensures coordinator.Valid() && Grows(old(coordinator.State()), coordinator.State()) && tick == old(tick) + 1
      ensures dispatches == old(dispatches) + [dispatch.(called := old(tick))]
      ensures answer == script.dispatch(old(tick)) && Allocated(dispatch.id)
      ensures coordinator.State() == Run(old(coordinator.State()), Records(dispatch.id, answer.recorded))
      ensures OnlyTouches(old(coordinator.State()), coordinator.State(), dispatch.id)
    {
      dispatches := dispatches + [dispatch.(called := tick)];
      answer := script.dispatch(tick);
      tick := tick + 1;
      RecordsTouchOnly(coordinator.State(), dispatch.id, answer.recorded);
      Interleave(Records(dispatch.id, answer.recorded));
      assert Le(old(coordinator.State()).events[dispatch.id.attempt], coordinator.events[dispatch.id.attempt]);
    }

    /** What an attempt leaves in a calm run: only its own facts have changed, and it is over or has a hook. */
    ghost predicate LeftBy(before: Ledger, id: Identity, hooked: bool)
      reads coordinator
    {
      && OnlyTouches(before, coordinator.State(), id)
      && id.attempt in coordinator.events && (hooked || coordinator.events[id.attempt].phase == Terminal)
    }

    ghost predicate AddedBy(before: Ledger, id: Identity, hooked: bool)
      reads coordinator
    {
      && OnlyAdds(before, coordinator.State(), id)
      && (hooked || coordinator.events[id.attempt].phase == Terminal)
    }

    /** Close the receipt of a result without a Lifetime. */
    method CloseNow(id: Identity, answer: Failure, ghost start: Ledger) returns (err: Failure, settled: bool)
      requires coordinator.Valid() && Allocated(id) && OnlyTouches(start, coordinator.State(), id)
      requires Grows(start, coordinator.State())
      modifies coordinator, this`tick
      ensures coordinator.Valid() && Grows(start, coordinator.State()) && tick > old(tick)
      ensures settled || InvalidEvent in err
      ensures settled ==> script.settle(tick - 1) <= err
      ensures answer <= err && (Calm(script, parent) ==> err == answer)
      ensures CloseTried(coordinator.State(), id)
      ensures Calm(script, parent) ==> LeftBy(start, id, false)
    {
      ghost var before := coordinator.State();
      var closeErr;
      closeErr, settled := CloseReceipt(id, false);
      GrowsTransitive(start, before, coordinator.State());
      err := answer + closeErr;
      if Calm(script, parent) {
        TouchThenStore(start, before, ClosingEvent(before.events[id.attempt], false));
      }
    }

    /** The tail of Boundary.invoke, once started: Dispatch, then a close made now or owed by a hook. */
    method CallDispatch(dispatch: Dispatch, admitted: BoundaryResult, ghost repeat: Option<Repeat>, ghost from: nat)
      returns (result: BoundaryResult, err: Failure)
      requires coordinator.Valid() && Admissible(admitted) && Allocated(dispatch.id)
      requires dispatch.deadline == deadline && DispatchIsSound(script, dispatch, repeat, from, tick)
      modifies coordinator, this`tick, this`dispatches
      ensures result.admission == admitted.admission && result.retryAt == admitted.retryAt
      ensures coordinator.Valid() && Grows(old(coordinator.State()), coordinator.State()) && tick > old(tick)
      ensures OneDispatch(old(dispatches), from, dispatch.id, repeat) && Latest() == dispatch.(called := old(tick))
      ensures Reports(script, parent, dispatches, err)
      ensures result.hooked == result.lifetime == script.dispatch(old(tick)).owned
      ensures result.hooked || CloseTried(coordinator.State(), dispatch.id)
      ensures result.receipt && result.started && !result.budgetExhausted && Accounted(result, err)
      ensures Calm(script, parent) ==> LeftBy(old(coordinator.State()), dispatch.id, result.hooked)
    {
      ghost var start := coordinator.State();
      var answer := CallHost(dispatch);
      result, err := admitted.(started := true, lifetime := answer.owned), answer.err;
      if answer.owned { return result.(hooked := true), err; }
      var settled;
      err, settled := CloseNow(dispatch.id, answer.err, start);
      result := result.(closes := 1, settled := settled);
    }

    /** The refusals of Boundary.invoke before Dispatch: nothing was executed. */
    method Refuse(id: Identity, cause: Failure, admitted: BoundaryResult) returns (result: BoundaryResult, err: Failure)
      requires coordinator.Valid() && Admissible(admitted)
      modifies coordinator, this`tick
      ensures coordinator.Valid() && Grows(old(coordinator.State()), coordinator.State()) && tick > old(tick)
      ensures result.receipt && !result.started && !result.budgetExhausted && Accounted(result, err) && cause <= err
      ensures result.admission == admitted.admission && result.retryAt == admitted.retryAt
      ensures result.settled ==> script.settle(tick - 1) <= err
      ensures result.settled ==> NeverExecuted(coordinator.State(), id.attempt)
    {
      var closeErr, settled := CloseReceipt(id, true);
      return admitted.(closes := 1, notExecuted := true, settled := settled), cause + closeErr;
    }

    /** The same, seen from an earlier ledger. */
    method RefuseFrom(id: Identity, cause: Failure, admitted: BoundaryResult, ghost before: Ledger)
      returns (result: BoundaryResult, err: Failure)
      requires coordinator.Valid() && Admissible(admitted) && Grows(before, coordinator.State())
      modifies coordinator, this`tick
      ensures coordinator.Valid() && Grows(before, coordinator.State()) && tick > old(tick)
      ensures result.receipt && !result.started && !result.budgetExhausted && Accounted(result, err) && cause <= err
      ensures result.admission == admitted.admission && result.retryAt == admitted.retryAt
      ensures result.settled ==> NeverExecuted(coordinator.State(), id.attempt)
    {
      ghost var middle := coordinator.State();
      result, err := Refuse(id, cause, admitted);
      GrowsTransitive(before, middle, coordinator.State());
    }

    /** The head of Boundary.invoke: freshness, cancellation, then the start. */
    method StartChecked(context: Option<Time>, id: Identity, repeat: Option<Repeat>, timed: bool)
      returns (allowed: bool, err: Failure, decision: Decision, dispatch: Dispatch)
      requires coordinator.Valid() && Ready(repeat)
      modifies coordinator, this`tick
      ensures coordinator.Valid() && Grows(old(coordinator.State()), coordinator.State()) && tick >= old(tick)
      ensures repeat.Some? ==> SameWindow(decision, repeat.value.decision)
      ensures !allowed && StickyContext(script) ==> Explained(err, repeat, decision)
      ensures allowed ==> Checked(script, timed, old(tick))
      ensures allowed ==>
        && dispatch.id == id && dispatch.deadline == deadline
        && DispatchIsSound(script, dispatch, repeat, old(tick), tick)
      ensures allowed && repeat.Some? ==>
        && Grows(dispatch.grant.value.ledger, coordinator.State())
        && decision.action == repeat.value.decision.action
        && dispatch.limit == EarliestDeadline(context, deadline, Absent)
      ensures AtEase(context) && old(Startable(id, repeat)) ==>
        allowed && OnlyTouches(old(coordinator.State()), coordinator.State(), id)
    {
      decision := if repeat.Some? then repeat.value.decision else NoDecision;
      allowed, dispatch := false, Dispatch(id, None, 0, Absent, NoTicks, 0, Absent, Absent, 0);
      err := CheckAlive(context, timed);
      if err != {} { return; }
      allowed, err, decision, dispatch := Start(context, id, repeat);
    }

    /** Boundary.invoke: last checks, start, Dispatch. */
    method Invoke(context: Option<Time>, id: Identity, repeat: Option<Repeat>, timed: bool, admitted: BoundaryResult)
      returns (result: BoundaryResult, err: Failure, decision: Decision)
      requires coordinator.Valid() && Ready(repeat) && Admissible(admitted) && Allocated(id)
      modifies coordinator, this`tick, this`dispatches
      ensures result.admission == admitted.admission && result.retryAt == admitted.retryAt
      ensures coordinator.Valid() && Grows(old(coordinator.State()), coordinator.State()) && tick >= old(tick)
      ensures repeat.Some? ==> SameWindow(decision, repeat.value.decision)
      ensures result.receipt && Accounted(result, err) && !result.budgetExhausted
      ensures !result.started ==> dispatches == old(dispatches)
      ensures !result.started && StickyContext(script) ==> Explained(err, repeat, decision)
      ensures result.started ==> OneDispatch(old(dispatches), old(tick), id, repeat)
      ensures result.started ==> Reports(script, parent, dispatches, err) && Checked(script, timed, old(tick))
      ensures !result.started && result.settled ==> NeverExecuted(coordinator.State(), id.attempt)
      ensures result.started ==> result.hooked || CloseTried(coordinator.State(), id)
      ensures AtEase(context) && old(Startable(id, repeat)) ==>
        result.started && LeftBy(old(coordinator.State()), id, result.hooked)
      ensures result.started && repeat.Some? ==>
        && Grows(Latest().grant.value.ledger, coordinator.State())
        && decision.action == repeat.value.decision.action
        && Latest().limit == EarliestDeadline(context, deadline, Absent)
    {
      var allowed, dispatch;
      allowed, err, decision, dispatch := StartChecked(context, id, repeat, timed);
      ghost var before, middle := old(coordinator.State()), coordinator.State();
      if !allowed {
        result, err := RefuseFrom(id, err, admitted, before);
        return;
      }
      ClosableKept(before, middle, id, true);
      result, err := InvokeStarted(dispatch, admitted, repeat, old(tick), before);
    }

    /** The rest of Boundary.invoke, seen from the ledger before its checks. */
    method InvokeStarted(dispatch: Dispatch, admitted: BoundaryResult, ghost repeat: Option<Repeat>, ghost from: nat,
                         ghost before: Ledger)
      returns (result: BoundaryResult, err: Failure)
      requires coordinator.Valid() && Admissible(admitted) && Allocated(dispatch.id)
      requires dispatch.deadline == deadline && DispatchIsSound(script, dispatch, repeat, from, tick)
      requires Grows(before, coordinator.State())
      requires dispatch.grant.Some? ==> Grows(dispatch.grant.value.ledger, coordinator.State())
      modifies coordinator, this`tick, this`dispatches
      ensures result.admission == admitted.admission && result.retryAt == admitted.retryAt
      ensures coordinator.Valid() && Grows(before, coordinator.State()) && tick > old(tick)
      ensures dispatch.grant.Some? ==> Grows(dispatch.grant.value.ledger, coordinator.State())
      ensures OneDispatch(old(dispatches), from, dispatch.id, repeat) && Latest() == dispatch.(called := old(tick))
      ensures Reports(script, parent, dispatches, err)
      ensures result.hooked || CloseTried(coordinator.State(), dispatch.id)
      ensures result.receipt && result.started && !result.budgetExhausted && Accounted(result, err)
      ensures Calm(script, parent) && OnlyTouches(before, old(coordinator.State()), dispatch.id) ==>
        LeftBy(before, dispatch.id, result.hooked)
    {
      ghost var middle := coordinator.State();
      result, err := CallDispatch(dispatch, admitted, repeat, from);
      GrowsTransitive(before, middle, coordinator.State());
      if dispatch.grant.Some? { GrowsTransitive(dispatch.grant.value.ledger, middle, coordinator.State()); }
      if Calm(script, parent) && OnlyTouches(before, middle, dispatch.id) {
        TouchTwice(before, middle, coordinator.State(), dispatch.id);
      }
    }

    /** The same, seen from the tick `from` of the checks before it. */
    method InvokeFrom(context: Option<Time>, id: Identity, repeat: Option<Repeat>, timed: bool,
                      admitted: BoundaryResult, ghost from: nat)
      returns (result: BoundaryResult, err: Failure, decision: Decision)
      requires coordinator.Valid() && Ready(repeat) && Admissible(admitted) && Allocated(id)
      requires Checked(script, timed, from) && tick == from + FreshTicks(timed) + 1 + (if hasAdmit then 1 else 0)
      requires hasAdmit ==> Admits(script.admit(tick - 1))
      modifies coordinator, this`tick, this`dispatches
      ensures result.admission == admitted.admission && result.retryAt == admitted.retryAt
      ensures coordinator.Valid() && Grows(old(coordinator.State()), coordinator.State()) && tick >= from
      ensures repeat.Some? ==> SameWindow(decision, repeat.value.decision)
      ensures result.receipt && Accounted(result, err) && !result.budgetExhausted
      ensures !result.started ==> dispatches == old(dispatches)
      ensures !result.started && StickyContext(script) ==> Explained(err, repeat, decision)
      ensures result.started ==> OneDispatch(old(dispatches), from, id, repeat)
      ensures result.started ==> Reports(script, parent, dispatches, err)
      ensures result.started ==> Cleared(script, hasAdmit, timed, from)
      ensures !result.started && result.settled ==> NeverExecuted(coordinator.State(), id.attempt)
      ensures result.started ==> result.hooked || CloseTried(coordinator.State(), id)
      ensures AtEase(context) && old(Startable(id, repeat)) ==>
        result.started && LeftBy(old(coordinator.State()), id, result.hooked)
      ensures result.started && repeat.Some? ==>
        && Grows(Latest().grant.value.ledger, coordinator.State())
        && decision.action == repeat.value.decision.action
        && Latest().limit == EarliestDeadline(context, deadline, Absent)
    {
      ClearedTwice(script, hasAdmit, timed, from, tick);
      result, err, decision := Invoke(context, id, repeat, timed, admitted);
    }

    /** Boundary.run once its identity is allocated: admission, then a refusal or the invocation. */
    method RunAllocated(context: Option<Time>, id: Identity, repeat: Option<Repeat>, timed: bool)
      returns (result: BoundaryResult, err: Failure, decision: Decision)
      requires coordinator.Valid() && Ready(repeat) && Allocated(id)
      modifies coordinator, this`tick, this`dispatches
      ensures coordinator.Valid() && Grows(old(coordinator.State()), coordinator.State()) && tick >= old(tick)
      ensures repeat.Some? ==> SameWindow(decision, repeat.value.decision)
      ensures result.receipt && Accounted(result, err) && !result.budgetExhausted
      ensures !result.started ==> dispatches == old(dispatches)
      ensures !result.started && StickyContext(script) ==> NotAdmitted(result) || Explained(err, repeat, decision)
      ensures result.started ==> OneDispatch(old(dispatches), old(tick), id, repeat)
      ensures result.started ==> Reports(script, parent, dispatches, err)
      ensures result.started ==> Cleared(script, hasAdmit, timed, old(tick))
      ensures AdmittedAs(script, hasAdmit, timed, old(tick), result)
      ensures !result.started && result.settled ==> NeverExecuted(coordinator.State(), id.attempt)
      ensures result.started ==> result.hooked || CloseTried(coordinator.State(), id)
      ensures AtEase(context) && old(Startable(id, repeat)) ==>
        result.started && LeftBy(old(coordinator.State()), id, result.hooked)
      ensures result.started && repeat.Some? ==>
        && Grows(Latest().grant.value.ledger, coordinator.State())
        && decision.action == repeat.value.decision.action
        && Latest().limit == EarliestDeadline(context, deadline, Absent)
    {
      decision := if repeat.Some? then repeat.value.decision else NoDecision;
      var admission := Prepare(context, timed);
      assert coordinator.State() == old(coordinator.State()) && dispatches == old(dispatches);
      result := NothingRun.(receipt := true, admission := admission.status, retryAt := admission.retryAt);
      if admission.err != {} || admission.status == Denied || admission.status == Deferred {
        result, err := Refuse(id, admission.err, result);
      } else {
        result, err, decision := InvokeFrom(context, id, repeat, timed, result, old(tick));
      }
    }

    /** Boundary.run: one unique identity, at most one Dispatch. `begun` is the ledger in which Begin found it. */
    method RunBoundary(context: Option<Time>, id: Identity, repeat: Option<Repeat>, timed: bool)
      returns (result: BoundaryResult, err: Failure, decision: Decision, ghost begun: Ledger, ghost check: nat)
      requires coordinator.Valid() && Ready(repeat)
      modifies coordinator, this`tick, this`dispatches
      ensures coordinator.Valid() && Grows(old(coordinator.State()), coordinator.State()) && tick >= old(tick)
      ensures repeat.Some? ==> SameWindow(decision, repeat.value.decision)
      ensures if result.receipt then Accounted(result, err) else !result.started && result.closes == 0 && !result.hooked
      ensures result.receipt ==>
        && id.attempt !in old(coordinator.State()).events && Allocated(id)
        && |coordinator.events| > old(|coordinator.events|)
        && BegunBetween(old(coordinator.State()), begun, id, coordinator.State())
      ensures result.budgetExhausted ==> !result.receipt && err == {}
      ensures !result.started ==> dispatches == old(dispatches)
      ensures !result.started && StickyContext(script) ==> NotAdmitted(result) || Explained(err, repeat, decision)
      ensures result.started ==> result.receipt && OneDispatch(old(dispatches), old(tick), id, repeat)
      ensures result.started ==> Reports(script, parent, dispatches, err)
      ensures check == old(tick) + 2
      ensures result.started ==> script.context(old(tick)) == {} && Cleared(script, hasAdmit, timed, check)
      ensures AdmittedAs(script, hasAdmit, timed, check, result)
      ensures result.receipt && !result.started && result.settled ==> NeverExecuted(coordinator.State(), id.attempt)
      ensures !complete ==> err == {InvalidBoundary}
      ensures complete && script.context(old(tick)) != {} ==> err == script.context(old(tick)) && !result.receipt
      ensures complete && script.context(old(tick)) == {} ==> BegunAs(begun, id, result, err)
      ensures result.started ==> result.hooked || CloseTried(coordinator.State(), id)
      ensures complete && AtEase(context) && old(Available(id)) && old(Following(repeat)) ==>
        result.started && AddedBy(old(coordinator.State()), id, result.hooked)
      ensures result.started && repeat.Some? ==>
        && Grows(Latest().grant.value.ledger, coordinator.State())
        && decision.action == repeat.value.decision.action
        && Latest().limit == EarliestDeadline(context, deadline, Absent)
    {
      result, decision := NothingRun, if repeat.Some? then repeat.value.decision else NoDecision;
      begun, check := coordinator.State(), tick + 2;
      if !complete { err := {InvalidBoundary}; return; }
      err := script.context(tick);
      tick := tick + 1;
      if err != {} { return; }
      result, err, decision, begun := RunIdentity(context, id, repeat, timed, old(tick), check);
    }

    /** Boundary.run from Begin on. */
    method RunIdentity(context: Option<Time>, id: Identity, repeat: Option<Repeat>, timed: bool, ghost from: nat,
                       ghost check: nat)
      returns (result: BoundaryResult, err: Failure, decision: Decision, ghost begun: Ledger)
      requires coordinator.Valid() && Ready(repeat) && from <= tick && check == tick + 1
      modifies coordinator, this`tick, this`dispatches
      ensures coordinator.Valid() && Grows(old(coordinator.State()), coordinator.State()) && tick >= old(tick)
      ensures repeat.Some? ==> SameWindow(decision, repeat.value.decision)
      ensures if result.receipt then Accounted(result, err) else !result.started && result.closes == 0 && !result.hooked
      ensures result.receipt ==>
        && id.attempt !in old(coordinator.State()).events && Allocated(id)
        && |coordinator.events| > old(|coordinator.events|)
        && BegunBetween(old(coordinator.State()), begun, id, coordinator.State())
      ensures result.budgetExhausted ==> !result.receipt && err == {}
      ensures !result.started ==> dispatches == old(dispatches)
      ensures !result.started && StickyContext(script) ==> NotAdmitted(result) || Explained(err, repeat, decision)
      ensures result.started ==> result.receipt && OneDispatch(old(dispatches), from, id, repeat)
      ensures result.started ==> Reports(script, parent, dispatches, err)
      ensures result.started ==> Cleared(script, hasAdmit, timed, check)
      ensures AdmittedAs(script, hasAdmit, timed, check, result)
      ensures result.receipt && !result.started && result.settled ==> NeverExecuted(coordinator.State(), id.attempt)
      ensures BegunAs(begun, id, result, err)
      ensures result.started ==> result.hooked || CloseTried(coordinator.State(), id)
      ensures AtEase(context) && old(Available(id)) && old(Following(repeat)) ==>
        result.started && AddedBy(old(coordinator.State()), id, result.hooked)
      ensures result.started && repeat.Some? ==>
        && Grows(Latest().grant.value.ledger, coordinator.State())
        && decision.action == repeat.value.decision.action
        && Latest().limit == EarliestDeadline(context, deadline, Absent)
    {
      result, err, decision := NothingRun, {}, if repeat.Some? then repeat.value.decision else NoDecision;
      var granted;
      granted, begun := BeginFor(id, repeat);
      if granted.Err? { err := {granted.error}; return; }
      if !granted.value { result := NothingRun.(budgetExhausted := true); return; }
      ghost var start, middle := old(coordinator.State()), coordinator.State();
      if repeat.Some? { CloseTriedKept(start, middle, repeat.value.previous); }
      result, err, decision := RunBegun(context, id, repeat, timed, start, begun, from, check);
    }

    /** The rest of Boundary.run, seen from the ledger before Begin. */
    method RunBegun(context: Option<Time>, id: Identity, repeat: Option<Repeat>, timed: bool, ghost start: Ledger,
                    ghost begun: Ledger, ghost from: nat, ghost check: nat)
      returns (result: BoundaryResult, err: Failure, decision: Decision)
      requires coordinator.Valid() && Ready(repeat) && Allocated(id) && Grows(start, coordinator.State())
      requires from <= tick == check
      requires BegunBetween(start, begun, id, coordinator.State()) && |coordinator.events| > |start.events|
      modifies coordinator, this`tick, this`dispatches
      ensures coordinator.Valid() && Grows(start, coordinator.State()) && tick >= old(tick)
      ensures repeat.Some? ==> SameWindow(decision, repeat.value.decision)
      ensures result.receipt && Accounted(result, err) && !result.budgetExhausted && Allocated(id)
      ensures BegunBetween(start, begun, id, coordinator.State()) && |coordinator.events| > |start.events|
      ensures !result.started ==> dispatches == old(dispatches)
      ensures !result.started && StickyContext(script) ==> NotAdmitted(result) || Explained(err, repeat, decision)
      ensures result.started ==> OneDispatch(old(dispatches), from, id, repeat)
      ensures result.started ==> Reports(script, parent, dispatches, err)
      ensures result.started ==> Cleared(script, hasAdmit, timed, check)
      ensures AdmittedAs(script, hasAdmit, timed, check, result)
      ensures !result.started && result.settled ==> NeverExecuted(coordinator.State(), id.attempt)
      ensures result.started ==> result.hooked || CloseTried(coordinator.State(), id)
      ensures AtEase(context) && old(Startable(id, repeat)) && OnlyAdds(start, old(coordinator.State()), id)
              && id.attempt !in start.events
              ==> result.started && AddedBy(start, id, result.hooked)
      ensures result.started && repeat.Some? ==>
        && Grows(Latest().grant.value.ledger, coordinator.State())
        && decision.action == repeat.value.decision.action
        && Latest().limit == EarliestDeadline(context, deadline, Absent)
    {
      ghost var middle := coordinator.State();
      result, err, decision := RunAllocated(context, id, repeat, timed);
      GrowsKeepsBudget(middle, coordinator.State());
      GrowsTransitive(start, middle, coordinator.State());
      GrowsTransitive(BeginStep(begun, id).0, middle, coordinator.State());
      ClosableKept(middle, coordinator.State(), id, true);
      if result.started && OnlyTouches(middle, coordinator.State(), id) && OnlyAdds(start, middle, id)
         && id.attempt !in start.events {
        AddThenTouch(start, middle, coordinator.State(), id);
      }
    }

    /** Coordinator.Begin, after whatever the others did. */
    method BeginNow(id: Identity) returns (r: Result<bool, Error>, ghost begun: Ledger)
      requires coordinator.Valid()
      modifies coordinator, this`tick
      ensures coordinator.Valid() && Grows(old(coordinator.State()), coordinator.State()) && tick == old(tick) + 1
      ensures BeginAnswers(begun, id, r)
      ensures r == Ok(true) ==>
        && id.attempt !in old(coordinator.State()).events && Allocated(id)
        && |coordinator.events| > old(|coordinator.events|)
        && BegunBetween(old(coordinator.State()), begun, id, coordinator.State())
      ensures Calm(script, parent) && old(Available(id)) ==>
        && r == Ok(true)
        && coordinator.State() == Stores(old(coordinator.State()), Event(id, BeforeDispatch, false, Unknown))
    {
      ghost var start := coordinator.State();
      Yield();
      begun := coordinator.State();
      GrowsKeepsBudget(start, begun);
      var granted := coordinator.Begin(id);
      InsertSize(begun.events, id.attempt, Event(id, BeforeDispatch, false, Unknown));
      GrowsTransitive(start, begun, coordinator.State());
      r := if granted.Err? then Err(granted.error) else Ok(granted.value.started);
    }

    /** In a calm run, Begin leaves the identity ready to start. */
    method BeginFor(id: Identity, ghost repeat: Option<Repeat>) returns (r: Result<bool, Error>, ghost begun: Ledger)
      requires coordinator.Valid()
      modifies coordinator, this`tick
      ensures coordinator.Valid() && Grows(old(coordinator.State()), coordinator.State()) && tick == old(tick) + 1
      ensures BeginAnswers(begun, id, r)
      ensures r == Ok(true) ==>
        && id.attempt !in old(coordinator.State()).events && Allocated(id)
        && |coordinator.events| > old(|coordinator.events|)
        && BegunBetween(old(coordinator.State()), begun, id, coordinator.State())
      ensures Calm(script, parent) && old(Available(id)) && old(Following(repeat)) ==>
        r == Ok(true) && OnlyAdds(old(coordinator.State()), coordinator.State(), id) && Startable(id, repeat)
    {
      r, begun := BeginNow(id);
    }

    /** boundedContext: the derived context's own deadline. */
    method BoundedContext() returns (err: Failure, bounded: Option<Time>)
      modifies this`tick
      ensures tick == old(tick) + 1
      ensures HonestDeadlines(script, parent) ==> bounded != Some(Absent)
      ensures err == {} ==>
        var limit := EarliestDeadline(parent, deadline, Absent);
        if limit == Absent then bounded == parent else bounded.Some? && bounded.value <= limit
      ensures err == {} || err == {InvalidBoundary}
      ensures var limit := EarliestDeadline(parent, deadline, Absent);
        && (err == {} <==> Bounds(script, old(tick), limit))
        && (err == {} && limit != Absent ==> Some(bounded) == script.bounded(old(tick)))
      ensures AtEase(parent) ==> err == {} && RoomyContext(script, bounded)
    {
      var limit := EarliestDeadline(parent, deadline, Absent);
      var made := script.bounded(tick);
      tick := tick + 1;
      if limit == Absent { return {}, parent; }
      if made.None? || made.value.None? || made.value.value > limit { return {InvalidBoundary}, parent; }
      return {}, made.value;
    }

    /** Sequence.decide: facts, classification, evidence, replay decision and start window. */
    method DecideRepeat(id: Identity, runErr: Failure)
      returns (err: Failure, replay: Replay, decision: Decision, asked: nat, read: nat)
      requires coordinator.Valid()
      modifies coordinator, this`tick
      ensures coordinator.Valid() && Grows(old(coordinator.State()), coordinator.State()) && tick > old(tick)
      ensures err == {} && IsRepeat(decision.action) ==>
        && decision.action == (if replay.useFallback then Fallback else Retry) && decision.notBefore != Absent
        && old(tick) <= asked < read < tick && ScheduledFrom(script, decision, parent, deadline, asked, read)
      ensures err == {} && IsRepeat(decision.action) ==> Posed(script, asked)
      ensures err == {} ==> Offered(script, replay) && (IsRepeat(decision.action) || Declined(script, id, decision))
      ensures Calm(script, parent) ==> coordinator.State() == old(coordinator.State())
      ensures AtEase(parent) && Hopeful(id) ==>
        && err == {} && IsRepeat(decision.action) && Roomy(script, decision.deadline)
        && Waitable(script, decision.notBefore, tick) && Permits(script, coordinator.events[id.attempt], replay)
    {
      var event, remaining;
      err, event, remaining, replay := Gather(id, runErr);
      decision, asked, read := NoDecision, 0, 0;
      if err != {} { return; }
      DecideGrantsExactlySafeRepeats(event, remaining, replay);
      err, decision, asked, read := Resolve(event, remaining, replay);
    }

    /** The answer of Sequence.decide: the replay decision, and a window if it is a repeat. */
    method Resolve(event: Event, remaining: int, replay: Replay)
      returns (err: Failure, decision: Decision, asked: nat, read: nat)
      modifies this`tick
      ensures tick >= old(tick)
      ensures Decide(event, remaining, replay).Err? ==> err == {InvalidEvent}
      ensures err == {} && IsRepeat(decision.action) ==>
        && decision.action == (if replay.useFallback then Fallback else Retry) && decision.notBefore != Absent
        && old(tick) == asked < read < tick && ScheduledFrom(script, decision, parent, deadline, asked, read)
        && script.schedule(asked).err == {}
      ensures err == {} && !IsRepeat(decision.action) ==>
        decision.event == event && DeclinedBy(replay, remaining, decision)
      ensures AtEase(parent) && Decide(event, remaining, replay).Ok?
              && IsRepeat(Decide(event, remaining, replay).value.action) ==>
        && err == {} && IsRepeat(decision.action) && Roomy(script, decision.deadline)
        && Waitable(script, decision.notBefore, tick)
    {
      decision, asked, read := NoDecision, 0, 0;
      var decided := Decide(event, remaining, replay);
      if decided.Err? { err := {decided.error}; return; }
      DecideGrantsExactlySafeRepeats(event, remaining, replay);
      err, decision := {}, decided.value;
      if IsRepeat(decision.action) { err, decision, asked, read := PlanWindow(decision); }
    }

    /** The questions of Sequence.decide: facts, classification, evidence, cancellation. */
    method Gather(id: Identity, runErr: Failure) returns (err: Failure, event: Event, remaining: int, replay: Replay)
      requires coordinator.Valid()
      modifies coordinator, this`tick
      ensures coordinator.Valid() && Grows(old(coordinator.State()), coordinator.State()) && tick > old(tick)
      ensures err == {} ==>
        && Allocated(id) && coordinator.events[id.attempt] == event && remaining == Remaining(coordinator.State())
        && Offered(script, replay) && Gathered(script, tick, replay)
      ensures tick == old(tick) + 2 ==> runErr <= err && script.settlement(old(tick) + 1) <= err
      ensures Calm(script, parent) ==> coordinator.State() == old(coordinator.State())
      ensures Calm(script, parent) && Hopeful(id) ==>
        err == {} && Permits(script, coordinator.events[id.attempt], replay)
    {
      event, remaining, err := ReadReceipt(id);
      replay := Replay(false, false, false, false, false, false);
      if err != {} { err := runErr + err; return; }
      err, replay := AskHost();
    }

    /** Classification, evidence, cancellation; the first error is the answer. */
    method AskHost() returns (err: Failure, replay: Replay)
      modifies this`tick
      ensures old(tick) < tick <= old(tick) + 3
      ensures tick == old(tick) + 1 ==> err == script.classify(old(tick))
      ensures tick == old(tick) + 2 ==> err == script.replay(old(tick) + 1).err
      ensures tick == old(tick) + 3 ==> err == script.context(old(tick) + 2)
      ensures err == {} ==> Offered(script, replay) && Gathered(script, tick, replay)
      ensures Calm(script, parent) ==> err == {}
    {
      replay := Replay(false, false, false, false, false, false);
      err := script.classify(tick);
      tick := tick + 1;
      if err != {} { return; }
      var evidence := script.replay(tick);
      tick := tick + 1;
      replay, err := evidence.value, evidence.err;
      if err != {} { return; }
      err := script.context(tick);
      tick := tick + 1;
    }

    /** The scheduling half of Sequence.decide. */
    method PlanWindow(decision: Decision) returns (err: Failure, scheduled: Decision, asked: nat, read: nat)
      requires IsRepeat(decision.action)
      modifies this`tick
      ensures tick > old(tick)
      ensures err == {} && IsRepeat(scheduled.action) ==>
        && scheduled.action == decision.action && scheduled.notBefore != Absent
        && old(tick) <= asked < read < tick && ScheduledFrom(script, scheduled, parent, deadline, asked, read)
      ensures err == {} && !IsRepeat(scheduled.action) ==>
        && scheduled.event == decision.event && scheduled.action == Defer && scheduled.reason == DeadlineExhausted
        && scheduled.deadline != Absent && scheduled.deadline <= scheduled.notBefore
      ensures asked == old(tick) && (script.schedule(old(tick)).err != {} ==> err == script.schedule(old(tick)).err)
      ensures AtEase(parent) ==>
        && err == {} && IsRepeat(scheduled.action) && Roomy(script, scheduled.deadline)
        && Waitable(script, scheduled.notBefore, tick)
    {
      if AtEase(parent) { CalmSchedule(script, parent, deadline, decision, tick); }
      var wanted := script.schedule(tick);
      asked, read := tick, tick + 1;
      tick := tick + 1;
      if wanted.err != {} { return wanted.err, decision, asked, read; }
      var input := wanted.value.(now := script.now(tick),
                                 deadline := EarliestDeadline(parent, wanted.value.deadline, deadline));
      var (planned, scheduleErr) := ScheduleRepeat(decision, input);
      if scheduleErr.Some? { return {scheduleErr.value}, planned, asked, read; }
      ScheduleIsLeastWindow(decision, input);
      tick := tick + 1;
      return {}, planned, asked, read;
    }

    /** The middle of Sequence.advance: decide again on the facts known after the wait. */
    method Redecide(id: Identity, replay: Replay, scheduled: Decision) returns (err: Failure, decision: Decision)
      requires coordinator.Valid()
      modifies coordinator, this`tick
      ensures coordinator.Valid() && Grows(old(coordinator.State()), coordinator.State()) && tick > old(tick)
      ensures err == {} ==> SameWindow(decision, scheduled) && script.context(old(tick) + 2) == {}
      ensures err == {} ==> tick == old(tick) + 3
      ensures old(tick) + 2 <= tick <= old(tick) + 3
      ensures tick == old(tick) + 3 && script.context(old(tick) + 2) != {} ==> err == script.context(old(tick) + 2)
      ensures err == {} && IsRepeat(decision.action) ==>
        decision.action == (if replay.useFallback then Fallback else Retry)
      ensures Calm(script, parent) ==> coordinator.State() == old(coordinator.State())
      ensures err == {} && !IsRepeat(decision.action) && Offered(script, replay) ==> Declined(script, id, decision)
      ensures Calm(script, parent) && Hopeful(id) && RepeatSafe(coordinator.events[id.attempt], replay) ==>
        err == {} && IsRepeat(decision.action)
    {
      decision := scheduled;
      var event, remaining;
      event, remaining, err := ReadReceipt(id);
      if err != {} { return; }
      err := script.context(tick);
      tick := tick + 1;
      if err != {} { return; }
      var decided := Decide(event, remaining, replay);
      if decided.Err? { return {decided.error}, decision; }
      DecideGrantsExactlySafeRepeats(event, remaining, replay);
      decision := decided.value.(notBefore := scheduled.notBefore, deadline := scheduled.deadline);
      assert !IsRepeat(decision.action) ==> DeclinedBy(replay, remaining, decision);
    }

    /** The attempt is over, or a hook will end it. */
    ghost predicate Over(id: Identity, hooked: bool)
      reads coordinator
    {
      Allocated(id) && (hooked || coordinator.events[id.attempt].phase == Terminal)
    }

    /** The attempt has ended, and nothing else is known now that was not known before. */
    ghost predicate ClosedQuietly(before: Ledger, id: Identity)
      reads coordinator
    {
      && OnlyTouches(before, coordinator.State(), id) && id.attempt in coordinator.events
      && coordinator.events[id.attempt].phase == Terminal
      && SameFacts(before.events[id.attempt], coordinator.events[id.attempt])
    }

    /** The hook that Boundary.invoke left on the Lifetime, unless another goroutine's Close already ran it - which then
        left the facts as any attempt to close does. */
    method RunHook(id: Identity, hooked: bool)
      requires coordinator.Valid() && Closable(coordinator.State(), id, hooked)
      modifies coordinator, this`tick
      ensures coordinator.Valid() && Grows(old(coordinator.State()), coordinator.State()) && tick > old(tick)
      ensures CloseTried(coordinator.State(), id)
      ensures Calm(script, parent) && old(Over(id, hooked)) ==> ClosedQuietly(old(coordinator.State()), id)
    {
      ghost var start := coordinator.State();
      var already := script.closed(tick) && CloseTried(coordinator.State(), id);
      tick := tick + 1;
      if hooked && !already {
        var _, _ := CloseReceipt(id, false);
        TouchThenStore(start, start, ClosingEvent(start.events[id.attempt], false));
      }
    }

    /** Lifetime.Close of the previous result runs its cleanup and its hook; a settlement error found afterwards stops
        the sequence. */
    method CloseLifetime(id: Identity, last: BoundaryResult) returns (err: Failure)
      requires coordinator.Valid() && Closable(coordinator.State(), id, last.hooked)
      modifies coordinator, this`tick
      ensures coordinator.Valid() && Grows(old(coordinator.State()), coordinator.State()) && tick >= old(tick)
      ensures CloseTried(coordinator.State(), id)
      ensures last.lifetime && script.cleanup(old(tick)) != {} ==> err == script.cleanup(old(tick))
      ensures !(last.lifetime && script.cleanup(old(tick)) != {}) ==> tick >= 1 && err == script.settlement(tick - 1)
      ensures Calm(script, parent) && old(Over(id, last.hooked)) ==>
        err == {} && ClosedQuietly(old(coordinator.State()), id)
    {
      ghost var start := coordinator.State();
      err := if last.lifetime then script.cleanup(tick) else {};
      RunHook(id, last.hooked);
      if err != {} { return; }
      ghost var middle := coordinator.State();
      var event, remaining;
      event, remaining, err := ReadReceipt(id);
      GrowsTransitive(start, middle, coordinator.State());
      CloseTriedKept(middle, coordinator.State(), id);
      assert err == script.settlement(tick - 1);
    }

    /** An attempt that ended quietly is as repeatable as before. */
    lemma StaysHopeful(before: Ledger, id: Identity)
      requires ClosedQuietly(before, id) && id.attempt in before.events && Willing(script, before.events[id.attempt])
      requires before.events[id.attempt].identity == id
      requires coordinator.Valid() && |before.events| < coordinator.limit
      ensures Hopeful(id) && Repeatable(id)
    {
      TouchedSize(before, coordinator.State(), id);
      WillingKept(script, before.events[id.attempt], coordinator.events[id.attempt]);
    }

    /** In a calm run, everything a repeat after this attempt needs. */
    ghost predicate Promising(id: Identity, replay: Replay, scheduled: Decision)
      reads this, coordinator
    {
      && AtEase(parent) && Hopeful(id) && RepeatSafe(coordinator.events[id.attempt], replay)
      && Supplied(script, id.operation) && Waitable(script, scheduled.notBefore, tick)
    }

    /** Wait for the scheduled start, then check that it has come. */
    method WaitOut(bounded: Option<Time>, notBefore: Time) returns (err: Failure, checked: nat)
      requires notBefore != Absent
      modifies this`tick
      ensures old(tick) < tick <= old(tick) + 2 && checked == tick - 1
      ensures script.wait(old(tick)) != {} ==> err == script.wait(old(tick))
      ensures err == {} ==> tick == old(tick) + 2 && Waited(script, checked) && notBefore <= script.now(checked)
      ensures AtEase(bounded) && Waitable(script, notBefore, old(tick)) ==> err == {}
    {
      checked := tick;
      err := script.wait(tick);
      tick := tick + 1;
      if err != {} { return; }
      err, checked := CheckStart(bounded, notBefore);
    }

    /** Decide again, and let the host choose the next step. */
    method ChooseNext(id: Identity, replay: Replay, scheduled: Decision)
      returns (err: Failure, next: Identity, decision: Decision)
      requires coordinator.Valid()
      requires scheduled.action == (if replay.useFallback then Fallback else Retry)
      modifies coordinator, this`tick
      ensures coordinator.Valid() && Grows(old(coordinator.State()), coordinator.State()) && tick > old(tick)
      ensures err == {} && IsRepeat(decision.action) ==>
        && next.operation == id.operation && decision.action == scheduled.action && SameWindow(decision, scheduled)
        && tick == old(tick) + 4 && next == script.next(tick - 1).value
      ensures tick == old(tick) + 4 ==>
        var chosen := script.next(tick - 1);
        err == if chosen.err != {} then chosen.err
               else if chosen.value.operation != id.operation then {InvalidEvent} else {}
      ensures err == {} && !IsRepeat(decision.action) && Offered(script, replay) ==> Declined(script, id, decision)
      ensures Calm(script, parent) ==> coordinator.State() == old(coordinator.State())
      ensures Calm(script, parent) && Hopeful(id) && RepeatSafe(coordinator.events[id.attempt], replay)
              && Supplied(script, id.operation) ==>
        err == {} && IsRepeat(decision.action)
    {
      next := id;
      err, decision := Redecide(id, replay, scheduled);
      if err != {} || !IsRepeat(decision.action) { return; }
      var chosen := script.next(tick);
      tick := tick + 1;
      if chosen.err != {} { return chosen.err, id, decision; }
      if chosen.value.operation != id.operation { return {InvalidEvent}, id, decision; }
      next := chosen.value;
    }

    /** The second half of Sequence.advance: wait, re-check clock and facts, choose the next step. */
    method Choose(bounded: Option<Time>, id: Identity, replay: Replay, scheduled: Decision)
      returns (err: Failure, next: Identity, decision: Decision, checked: nat)
      requires coordinator.Valid()
      requires scheduled.action == (if replay.useFallback then Fallback else Retry) && scheduled.notBefore != Absent
      modifies coordinator, this`tick
      ensures coordinator.Valid() && Grows(old(coordinator.State()), coordinator.State()) && tick > old(tick)
      ensures err == {} && IsRepeat(decision.action) ==>
        && next.operation == id.operation && decision.action == scheduled.action && SameWindow(decision, scheduled)
        && old(tick) <= checked < tick && scheduled.notBefore <= script.now(checked)
        && Waited(script, checked) && next == script.next(tick - 1).value
      ensures script.wait(old(tick)) != {} ==> err == script.wait(old(tick))
      ensures err == {} && !IsRepeat(decision.action) && Offered(script, replay) ==> Declined(script, id, decision)
      ensures Calm(script, parent) ==> coordinator.State() == old(coordinator.State())
      ensures old(Promising(id, replay, scheduled)) && RoomyContext(script, bounded) ==>
        err == {} && IsRepeat(decision.action)
    {
      next, decision := id, scheduled;
      err, checked := WaitOut(bounded, scheduled.notBefore);
      if err != {} { return; }
      err, next, decision := ChooseNext(id, replay, scheduled);
    }

    /** The first half of Sequence.advance: a bounded context, then the release of the failed attempt. */
    method Release(id: Identity, last: BoundaryResult) returns (err: Failure, bounded: Option<Time>)
      requires coordinator.Valid() && Closable(coordinator.State(), id, last.hooked)
      modifies coordinator, this`tick
      ensures coordinator.Valid() && Grows(old(coordinator.State()), coordinator.State()) && tick > old(tick)
      ensures err == {} ==> CloseTried(coordinator.State(), id)
      ensures err == {} ==> Releasable(script, old(tick), last, EarliestDeadline(parent, deadline, Absent))
      ensures AtEase(parent) && old(Hopeful(id)) && old(Over(id, last.hooked)) ==>
        && err == {} && RoomyContext(script, bounded) && Hopeful(id) && Repeatable(id)
        && ClosedQuietly(old(coordinator.State()), id)
    {
      ghost var start := coordinator.State();
      ghost var calmly := AtEase(parent) && Hopeful(id) && Over(id, last.hooked);
      err, bounded := BoundedContext();
      assert coordinator.State() == start;
      if err != {} { return; }
      err := CloseLifetime(id, last);
      if calmly { StaysHopeful(start, id); }
    }

    /** Sequence.advance: release the failed attempt, wait, re-check clock and facts, choose the next step. */
    method Advance(id: Identity, last: BoundaryResult, replay: Replay, scheduled: Decision)
      returns (err: Failure, next: Identity, decision: Decision, checked: nat)
      requires coordinator.Valid()
      requires IsRepeat(scheduled.action) && scheduled.action == (if replay.useFallback then Fallback else Retry)
      requires scheduled.notBefore != Absent
      requires Closable(coordinator.State(), id, last.hooked)
      modifies coordinator, this`tick
      ensures coordinator.Valid() && Grows(old(coordinator.State()), coordinator.State()) && tick > old(tick)
      ensures err == {} && IsRepeat(decision.action) ==>
        && next.operation == id.operation && decision.action == scheduled.action && SameWindow(decision, scheduled)
        && old(tick) <= checked < tick && scheduled.notBefore <= script.now(checked)
        && CloseTried(coordinator.State(), id) && Waited(script, checked)
      ensures err == {} ==> Releasable(script, old(tick), last, EarliestDeadline(parent, deadline, Absent))
      ensures err == {} && !IsRepeat(decision.action) && Offered(script, replay) ==> Declined(script, id, decision)
      ensures old(Promising(id, replay, scheduled)) && old(Over(id, last.hooked)) ==>
        && err == {} && IsRepeat(decision.action) && next == script.next(tick - 1).value
        && OnlyTouches(old(coordinator.State()), coordinator.State(), id) && Repeatable(id)
    {
      next, decision, checked := id, scheduled, tick;
      ghost var start := coordinator.State();
      var bounded;
      err, bounded := Release(id, last);
      if err != {} { return; }
      ghost var tried := coordinator.State();
      err, next, decision, checked := Choose(bounded, id, replay, scheduled);
      GrowsTransitive(start, tried, coordinator.State());
      CloseTriedKept(tried, coordinator.State(), id);
    }

    /** completedDecision / terminalDecision: why the sequence ends with this attempt. */
    method CompletedDecision(id: Identity, last: BoundaryResult, err: Failure) returns (decision: Decision)
      requires coordinator.Valid()
      modifies coordinator, this`tick
      ensures coordinator.Valid() && Grows(old(coordinator.State()), coordinator.State()) && tick >= old(tick)
      ensures !IsRepeat(decision.action) && Completes(last, err, decision)
    {
      decision := NoDecision.(reason := ExecutionReturned, event := Event(id, BeforeDispatch, false, Unknown));
      if last.receipt {
        var event, _, _ := ReadReceipt(id);
        decision := decision.(event := event);
      }
      if last.budgetExhausted { decision := decision.(reason := BudgetExhausted); }
      else if last.admission == Denied { decision := decision.(reason := AdmissionDenied); }
      else if last.admission == Deferred {
        decision := decision.(action := Defer, reason := AdmissionDeferred, notBefore := last.retryAt);
      }
      if err != {} { decision := StopDecision(decision, err); }
    }

    /** runStep: a bounded context around one run of the Boundary. */
    method RunStep(id: Identity, repeat: Option<Repeat>)
      returns (result: BoundaryResult, err: Failure, decision: Decision)
      requires coordinator.Valid() && Ready(repeat)
      modifies coordinator, this`tick, this`dispatches
      ensures coordinator.Valid() && Grows(old(coordinator.State()), coordinator.State()) && tick > old(tick)
      ensures repeat.Some? ==> SameWindow(decision, repeat.value.decision)
      ensures result.receipt ==> Accounted(result, err)
      ensures result.receipt ==> id.attempt !in old(coordinator.State()).events && id.attempt in coordinator.events
      ensures result.started ==> |coordinator.events| > old(|coordinator.events|)
      ensures result.started ==> result.receipt && OneDispatch(old(dispatches), old(tick), id, repeat)
      ensures result.started ==> Reports(script, parent, dispatches, err)
      ensures !Bounds(script, old(tick), EarliestDeadline(parent, deadline, Absent)) ==>
        err == {InvalidBoundary} && !result.receipt
      ensures result.started ==> Cleared(script, hasAdmit, true, old(tick) + 3)
      ensures complete && AtEase(parent) && old(Available(id)) && old(Following(repeat)) ==>
        result.started && AddedBy(old(coordinator.State()), id, result.hooked)
      ensures result.started ==> Closable(coordinator.State(), id, result.hooked)
      ensures !result.started ==> dispatches == old(dispatches)
      ensures !result.started && StickyContext(script) ==> NotAdmitted(result) || Explained(err, repeat, decision)
      ensures result.started && repeat.Some? ==>
        && Grows(Latest().grant.value.ledger, coordinator.State())
        && (HonestDeadlines(script, parent) ==> Tightens(Latest().limit, deadline))
    {
      decision := if repeat.Some? then repeat.value.decision else NoDecision;
      var bounded;
      err, bounded := BoundedContext();
      if err != {} { return NothingRun.(admission := Denied), err, decision; }
      ghost var begun, check;
      result, err, decision, begun, check := RunBoundary(bounded, id, repeat, true);
      if HonestDeadlines(script, parent) {
        forall now | BeforeDeadline(now, EarliestDeadline(bounded, deadline, Absent))
          ensures BeforeDeadline(now, deadline)
        {
          EarliestIsConjunction(bounded, deadline, Absent, now);
        }
      }
    }

    /** What holds between two iterations of Sequence.Run. */
    ghost predicate Running(previous: Option<Identity>, decision: Decision, ticks: Ticks)
      reads this, coordinator
    {
      && coordinator.Valid() && LogIsSound(script, dispatches, coordinator.State())
      && (HonestDeadlines(script, parent) ==> WindowsTighten(script, dispatches) && StillTightens(deadline, dispatches))
      && (previous.Some? <==> dispatches != [])
      && (previous.Some? ==>
            && Latest().id == previous.value && IsRepeat(decision.action)
            && Latest().at < ticks.asked && ticks.checked < tick
            && Planned(script, decision.notBefore, ticks) && CloseTried(coordinator.State(), previous.value)
            && (HonestDeadlines(script, parent) ==> Tightens(deadline, AskedDeadline(script, ticks))))
    }

    /** A calm run in which the step can be taken: its slot is free, and the attempt it repeats may be repeated. */
    ghost predicate Poised(step: Identity, previous: Option<Identity>, planned: Decision)
      reads this, coordinator
    {
      && complete && AtEase(parent) && Available(step) && Unspent(script, tick, coordinator.State(), step)
      && (previous.Some? ==> planned.action == Wanted(script) && Repeatable(previous.value))
    }

    /** What a poised step leaves: its attempt was made, and Next still has names for others. */
    ghost predicate Made(start: Ledger, step: Identity, hooked: bool, from: nat)
      reads this, coordinator
    {
      && complete && AtEase(parent) && AddedBy(start, step, hooked) && step.attempt !in start.events
      && |coordinator.events| == |start.events| + 1 && Allocated(step)
      && Unspent(script, from, start, step) && start.operation == coordinator.operation
    }

    /** Run the step, as a repeat if there was an attempt before. */
    method TakeStep(step: Identity, previous: Option<Identity>, planned: Decision, ticks: Ticks)
      returns (last: BoundaryResult, err: Failure, decision: Decision)
      requires Running(previous, planned, ticks)
      modifies coordinator, this`tick, this`dispatches
      ensures coordinator.Valid() && Grows(old(coordinator.State()), coordinator.State()) && tick > old(tick)
      ensures last.started ==> Extends(old(dispatches), dispatches, step, deadline) && Latest().at < tick
      ensures last.started ==> Reports(script, parent, dispatches, err)
      ensures last.started ==> step.attempt !in old(coordinator.State()).events && step.attempt in coordinator.events
      ensures last.started ==> Follows(script, old(dispatches), Latest(), coordinator.State())
      ensures last.started && previous.Some? && HonestDeadlines(script, parent) ==>
        Tightens(Latest().limit, deadline) && Tightens(deadline, AskedDeadline(script, Latest().ticks))
      ensures last.started ==> Closable(coordinator.State(), step, last.hooked)
      ensures last.started ==> |coordinator.events| > old(|coordinator.events|)
      ensures !last.started ==> dispatches == old(dispatches)
      ensures old(Poised(step, previous, planned)) ==>
        last.started && Made(old(coordinator.State()), step, last.hooked, old(tick))
    {
      var repeat := if previous.Some? then Some(Repeat(previous.value, planned, ticks)) else None;
      last, err, decision := RunStep(step, repeat);
      AddingAddsOne(old(coordinator.State()), coordinator.State(), step);
      if last.started && previous.Some? { ClockReached(script, ticks.checked, Latest().at, planned.notBefore); }
    }

    /** The first half of an iteration: run the step and log its dispatch. */
    method Attempt(step: Identity, previous: Option<Identity>, planned: Decision, ticks: Ticks)
      returns (last: BoundaryResult, err: Failure, decision: Decision)
      requires Running(previous, planned, ticks)
      modifies coordinator, this`tick, this`dispatches
      ensures Logged() && Grows(old(coordinator.State()), coordinator.State()) && tick > old(tick)
      ensures HonestDeadlines(script, parent) ==> StillTightens(deadline, dispatches)
      ensures last.started ==> Extends(old(dispatches), dispatches, step, deadline)
      ensures last.started ==> dispatches != [] && Latest().id == step && Latest().at < tick
      ensures last.started ==> Reports(script, parent, dispatches, err)
      ensures last.started ==> Closable(coordinator.State(), step, last.hooked)
      ensures last.started ==> |coordinator.events| > old(|coordinator.events|)
      ensures !last.started ==> dispatches == old(dispatches)
      ensures old(Poised(step, previous, planned)) ==>
        last.started && Made(old(coordinator.State()), step, last.hooked, old(tick))
    {
      ghost var before, log := coordinator.State(), dispatches;
      last, err, decision := TakeStep(step, previous, planned, ticks);
      if last.started {
        LogExtended(script, log, Latest(), before, coordinator.State());
        if HonestDeadlines(script, parent) { WindowsExtended(script, log, Latest(), deadline); }
      } else {
        LogKept(script, log, before, coordinator.State());
      }
    }

    /** Decide on the failure, and take over a scheduled repeat's deadline. */
    method DecideWithin(step: Identity, runErr: Failure)
      returns (err: Failure, replay: Replay, decision: Decision, asked: nat, read: nat)
      requires coordinator.Valid()
      modifies coordinator, this`tick, this`deadline
      ensures coordinator.Valid() && Grows(old(coordinator.State()), coordinator.State()) && tick > old(tick)
      ensures HonestDeadlines(script, parent) ==> Tightens(deadline, old(deadline))
      ensures err == {} && IsRepeat(decision.action) ==>
        && decision.action == (if replay.useFallback then Fallback else Retry) && decision.notBefore != Absent
        && old(tick) <= asked < read < tick
        && RespectsBounds(decision.notBefore, script.schedule(asked).value.(now := script.now(read)))
        && (HonestDeadlines(script, parent) ==> Tightens(deadline, script.schedule(asked).value.deadline))
      ensures err == {} && IsRepeat(decision.action) ==> Posed(script, asked)
      ensures err == {} ==> Offered(script, replay) && (IsRepeat(decision.action) || Declined(script, step, decision))
      ensures Calm(script, parent) ==> coordinator.State() == old(coordinator.State())
      ensures old(AtEase(parent)) && old(Hopeful(step)) && Supplied(script, step.operation) ==>
        && err == {} && IsRepeat(decision.action) && Promising(step, replay, decision)
        && decision.action == Wanted(script)
    {
      err, replay, decision, asked, read := DecideRepeat(step, runErr);
      if err != {} || !IsRepeat(decision.action) { return; }
      if HonestDeadlines(script, parent) { WindowTightens(script, decision, parent, deadline, asked, read); }
      deadline := EarliestDeadline(parent, deadline, decision.deadline);
    }

    /** In a calm run, what is ready for the next iteration. */
    ghost predicate GoesOn(before: Ledger, step: Identity, next: Identity, decision: Decision)
      reads this, coordinator
    {
      && IsRepeat(decision.action) && decision.action == Wanted(script) && AtEase(parent)
      && tick > 0 && next == script.next(tick - 1).value
      && Repeatable(step) && OnlyTouches(before, coordinator.State(), step)
    }

    /** The second half: decide on the failure, tighten the deadline, advance. */
    method PlanNext(step: Identity, last: BoundaryResult, runErr: Failure)
      returns (err: Failure, next: Identity, decision: Decision, ticks: Ticks)
      requires coordinator.Valid() && Closable(coordinator.State(), step, last.hooked)
      modifies coordinator, this`tick, this`deadline
      ensures coordinator.Valid() && Grows(old(coordinator.State()), coordinator.State()) && tick > old(tick)
      ensures HonestDeadlines(script, parent) ==> Tightens(deadline, old(deadline))
      ensures err == {} ==> IsRepeat(decision.action) || Declined(script, step, decision)
      ensures err == {} && IsRepeat(decision.action) ==>
        && old(tick) <= ticks.asked && ticks.checked < tick && Planned(script, decision.notBefore, ticks)
        && next.operation == step.operation && CloseTried(coordinator.State(), step)
        && (HonestDeadlines(script, parent) ==> Tightens(deadline, AskedDeadline(script, ticks)))
      ensures old(AtEase(parent)) && old(Hopeful(step)) && old(Over(step, last.hooked))
              && Supplied(script, step.operation) ==>
        err == {} && GoesOn(old(coordinator.State()), step, next, decision)
    {
      next, ticks := step, NoTicks;
      var replay, asked, read;
      ghost var before := coordinator.State();
      err, replay, decision, asked, read := DecideWithin(step, runErr);
      if err != {} || !IsRepeat(decision.action) { return; }
      ghost var middle := coordinator.State();
      ClosableKept(before, middle, step, last.hooked);
      err, next, decision, ticks := AdvanceFrom(step, last, replay, decision, asked, read);
      GrowsTransitive(before, middle, coordinator.State());
    }

    /** Sequence.advance with its planning ticks. */
    method AdvanceFrom(step: Identity, last: BoundaryResult, replay: Replay, scheduled: Decision, asked: nat, read: nat)
      returns (err: Failure, next: Identity, decision: Decision, ticks: Ticks)
      requires coordinator.Valid() && Closable(coordinator.State(), step, last.hooked) && Offered(script, replay)
      requires IsRepeat(scheduled.action) && scheduled.action == (if replay.useFallback then Fallback else Retry)
      requires scheduled.notBefore != Absent && asked < read < tick
      requires Posed(script, asked)
      requires RespectsBounds(scheduled.notBefore, script.schedule(asked).value.(now := script.now(read)))
      modifies coordinator, this`tick
      ensures coordinator.Valid() && Grows(old(coordinator.State()), coordinator.State()) && tick > old(tick)
      ensures err == {} ==> IsRepeat(decision.action) || Declined(script, step, decision)
      ensures err == {} && IsRepeat(decision.action) ==>
        && ticks.asked == asked && ticks.checked < tick && Planned(script, decision.notBefore, ticks)
        && next.operation == step.operation && CloseTried(coordinator.State(), step)
      ensures old(Promising(step, replay, scheduled)) && old(Over(step, last.hooked))
              && scheduled.action == Wanted(script) ==>
        err == {} && GoesOn(old(coordinator.State()), step, next, decision)
    {
      var checked;
      err, next, decision, checked := Advance(step, last, replay, scheduled);
      ticks := Ticks(asked, read, checked);
    }

    /** The log and the windows survive whatever the others do to the Coordinator. */
    ghost predicate Logged()
      reads this, coordinator
    {
      && coordinator.Valid() && LogIsSound(script, dispatches, coordinator.State())
      && (HonestDeadlines(script, parent) ==> WindowsTighten(script, dispatches))
    }

    /** The end of an iteration that goes no further because of the attempt's own result. */
    method Conclude(step: Identity, last: BoundaryResult, err: Failure) returns (decision: Decision)
      requires Logged()
      modifies coordinator, this`tick
      ensures Logged() && Grows(old(coordinator.State()), coordinator.State()) && !IsRepeat(decision.action)
      ensures Completes(last, err, decision)
    {
      ghost var before := coordinator.State();
      decision := CompletedDecision(step, last, err);
      LogKept(script, dispatches, before, coordinator.State());
    }

    /** The end of an iteration after a started, failed attempt: stop, or be ready for the next one. */
    method Proceed(step: Identity, last: BoundaryResult, runErr: Failure)
      returns (again: bool, err: Failure, next: Identity, decision: Decision, ticks: Ticks)
      requires Logged() && dispatches != [] && Latest().id == step && Latest().at < tick
      requires Closable(coordinator.State(), step, last.hooked)
      requires HonestDeadlines(script, parent) ==> StillTightens(deadline, dispatches)
      modifies coordinator, this`tick, this`deadline
      ensures Logged() && Grows(old(coordinator.State()), coordinator.State())
      ensures again ==> Running(Some(step), decision, ticks) && next.operation == step.operation
      ensures !again ==> !IsRepeat(decision.action)
      ensures !again ==> if err == {} then Declined(script, step, decision) else Stopped(decision, err)
      ensures |coordinator.events| >= old(|coordinator.events|) && tick > old(tick)
      ensures old(AtEase(parent)) && old(Hopeful(step)) && old(Over(step, last.hooked))
              && Supplied(script, step.operation) ==>
        again && GoesOn(old(coordinator.State()), step, next, decision)
    {
      ghost var before := coordinator.State();
      err, next, decision, ticks := PlanNext(step, last, runErr);
      LogKept(script, dispatches, before, coordinator.State());
      GrowsKeepsBudget(before, coordinator.State());
      if err != {} { return false, err, next, StopDecision(decision, err), ticks; }
      again := IsRepeat(decision.action);
    }

    /** What an iteration does once its attempt returned. */
    method AfterAttempt(step: Identity, repeating: bool, last: BoundaryResult, runErr: Failure, reached: Decision)
      returns (again: bool, err: Failure, next: Identity, decision: Decision, ticks: Ticks)
      requires Logged() && (HonestDeadlines(script, parent) ==> StillTightens(deadline, dispatches))
      requires last.started ==> dispatches != [] && Latest().id == step && Latest().at < tick
      requires last.started ==> Closable(coordinator.State(), step, last.hooked)
      modifies coordinator, this`tick, this`deadline
      ensures Logged() && Grows(old(coordinator.State()), coordinator.State())
      ensures again ==> last.started && Retriable(runErr) && next.operation == step.operation
      ensures again ==> Running(Some(step), decision, ticks)
      ensures !again ==> !IsRepeat(decision.action)
      ensures again ==> |coordinator.events| >= old(|coordinator.events|) && tick > old(tick)
      ensures !again ==> EndsWith(script, TraceEntry(step, last.started, runErr), decision, err)
      ensures (!last.started || !Retriable(runErr)) && (repeating && !last.started ==> IsRepeat(reached.action)) ==>
        Completes(last, runErr, decision)
      ensures old(AtEase(parent)) && old(Hopeful(step)) && old(Over(step, last.hooked))
              && Supplied(script, step.operation) && last.started && Retriable(runErr) ==>
        again && GoesOn(old(coordinator.State()), step, next, decision)
    {
      again, err, next, decision, ticks := false, runErr, step, reached, NoTicks;
      if repeating && !last.started && !IsRepeat(decision.action) { return; }
      if !last.started || runErr == {} || IsControlError(runErr) {
        decision := Conclude(step, last, runErr);
      } else {
        again, err, next, decision, ticks := Proceed(step, last, runErr);
      }
    }

    /** In a calm run, ready for the next step after a started one. */
    lemma Replenished(before: Ledger, middle: Ledger, step: Identity, next: Identity, from: nat)
      requires coordinator.Valid() && before.operation == coordinator.operation
      requires OnlyAdds(before, middle, step) && OnlyTouches(middle, coordinator.State(), step)
      requires step.attempt !in before.events && |before.events| + 1 < coordinator.limit
      requires Unspent(script, from, before, step) && from < tick && next == script.next(tick - 1).value
      requires Supplied(script, before.operation)
      ensures Available(next) && Unspent(script, tick, coordinator.State(), next)
      ensures |coordinator.events| == |before.events| + 1
    {
      AddedSize(before, coordinator.State(), step);
    }

    /** The rest of an iteration, seen from its beginning: the ledger `start` at tick `from`. */
    method Continue(step: Identity, repeating: bool, last: BoundaryResult, runErr: Failure, reached: Decision,
                    ghost start: Ledger, ghost from: nat)
      returns (again: bool, err: Failure, next: Identity, decision: Decision, ticks: Ticks)
      requires Logged() && (HonestDeadlines(script, parent) ==> StillTightens(deadline, dispatches))
      requires last.started ==> dispatches != [] && Latest().id == step && Latest().at < tick
      requires last.started ==> Closable(coordinator.State(), step, last.hooked)
      requires last.started ==> |coordinator.events| > |start.events|
      requires Grows(start, coordinator.State()) && tick > from
      modifies coordinator, this`tick, this`deadline
      ensures Logged() && Grows(start, coordinator.State())
      ensures again ==> last.started && Retriable(runErr) && next.operation == step.operation
      ensures again ==> |coordinator.events| > |start.events| && Running(Some(step), decision, ticks)
      ensures !again ==> !IsRepeat(decision.action)
      ensures !again ==> EndsWith(script, TraceEntry(step, last.started, runErr), decision, err)
      ensures old(Ripe(start, step, last.hooked, from)) && last.started && Retriable(runErr) ==>
        again && Poised(next, Some(step), decision) && |coordinator.events| == |start.events| + 1
    {
      ghost var middle := coordinator.State();
      ghost var calmly := Ripe(start, step, last.hooked, from) && last.started && Retriable(runErr);
      if calmly { RipeIsHopeful(start, step, last.hooked, from); }
      again, err, next, decision, ticks := AfterAttempt(step, repeating, last, runErr, reached);
      GrowsTransitive(start, middle, coordinator.State());
      if calmly { Replenished(start, middle, step, next, from); }
    }

    /** A failed attempt that a calm run must repeat. */
    ghost predicate Ripe(start: Ledger, step: Identity, hooked: bool, from: nat)
      reads this, coordinator
    {
      && Made(start, step, hooked, from) && Supplied(script, coordinator.operation)
      && Willing(script, coordinator.events[step.attempt]) && |start.events| + 1 < coordinator.limit
    }

    lemma RipeIsHopeful(start: Ledger, step: Identity, hooked: bool, from: nat)
      requires coordinator.Valid() && Ripe(start, step, hooked, from)
      ensures AtEase(parent) && Hopeful(step) && Over(step, hooked) && Supplied(script, step.operation)
    {
    }

    /** One iteration of Sequence.Run; `fact` is what was known of a started attempt when it returned. */
    method Iterate(step: Identity, previous: Option<Identity>, planned: Decision, known: Ticks)
      returns (again: bool, entry: TraceEntry, err: Failure, next: Identity, decision: Decision, ticks: Ticks,
               ghost fact: Event)
      requires Running(previous, planned, known)
      modifies coordinator, this`tick, this`dispatches, this`deadline
      ensures Logged() && Grows(old(coordinator.State()), coordinator.State())
      ensures if entry.started then Extends(old(dispatches), dispatches, step, old(deadline))
              else dispatches == old(dispatches)
      ensures entry.id == step && (again ==> entry.started && Retriable(entry.err) && next.operation == step.operation)
      ensures again ==> |coordinator.events| > old(|coordinator.events|) && Running(Some(step), decision, ticks)
      ensures !again ==> !IsRepeat(decision.action) && EndsWith(script, entry, decision, err)
      ensures entry.started ==> Reports(script, parent, dispatches, entry.err) && fact.identity == step
      ensures old(Poised(step, previous, planned)) && Supplied(script, coordinator.operation) ==>
        && entry.started
        && (Willing(script, fact) && Retriable(entry.err) && old(|coordinator.events|) + 1 < coordinator.limit ==>
              again && Poised(next, Some(step), decision) && |coordinator.events| == old(|coordinator.events|) + 1)
    {
      ghost var start := coordinator.State();
      var last;
      last, err, decision := Attempt(step, previous, planned, known);
      entry := TraceEntry(step, last.started, err);
      fact := if last.started then coordinator.events[step.attempt] else NoDecision.event;
      again, err, next, decision, ticks := Continue(step, previous.Some?, last, err, decision, start, old(tick));
    }

    /** The trace so far, and the step that would come next. */
    ghost predicate Tracked(trace: seq<TraceEntry>, start: Identity, limit: Time, again: bool, step: Identity)
      reads this
    {
      && TraceIsTrue(trace, dispatches, start) && (dispatches != [] ==> dispatches[0].deadline == limit)
      && (again ==>
            && AllRetriable(trace) && |trace| == |dispatches|
            && step.operation == start.operation && (trace == [] ==> step == start && deadline == limit))
    }

    /** One iteration with its trace entry and its facts. */
    method TracedIteration(step: Identity, previous: Option<Identity>, planned: Decision, known: Ticks,
                           before: seq<TraceEntry>, ghost start: Identity, ghost limit: Time, ghost seen: seq<Event>)
      returns (again: bool, trace: seq<TraceEntry>, err: Failure, next: Identity, decision: Decision, ticks: Ticks,
               ghost facts: seq<Event>)
      requires Running(previous, planned, known) && Tracked(before, start, limit, true, step)
      requires Told(script, parent, dispatches, before, seen)
      modifies coordinator, this`tick, this`dispatches, this`deadline
      ensures Logged() && Grows(old(coordinator.State()), coordinator.State())
      ensures Tracked(trace, start, limit, again, next) && Told(script, parent, dispatches, trace, facts)
      ensures Adds(before, seen, trace, facts) && |trace| == |before| + 1
      ensures again ==> |coordinator.events| > old(|coordinator.events|) && Running(Some(step), decision, ticks)
      ensures !again ==> Finished(script, trace, decision, err)
      ensures old(Poised(step, previous, planned)) && Supplied(script, coordinator.operation) ==>
        Moves(script, old(|coordinator.events|), coordinator.limit, again, trace, facts,
              Poised(next, Some(step), decision), |coordinator.events|)
    {
      ghost var log := dispatches;
      var entry;
      ghost var fact;
      again, entry, err, next, decision, ticks, fact := Iterate(step, previous, planned, known);
      TraceExtended(before, log, entry, dispatches, start);
      trace := before + [entry];
      facts := if entry.started then seen + [fact] else seen;
      EntryAppended(script, before, seen, entry, fact, decision, err);
      if entry.started { ToldExtended(script, parent, log, before, seen, Latest(), entry, fact); }
      else { ToldLonger(script, parent, log, before, seen, entry); }
    }

    /** The check before each iteration, which a poised run passes. */
    method CheckPoised(ghost step: Identity, ghost previous: Option<Identity>, ghost planned: Decision)
      returns (err: Failure)
      modifies this`tick
      ensures tick == old(tick) + 1 && err == StartError(script, old(tick), parent, deadline, Absent)
      ensures old(Poised(step, previous, planned)) ==> err == {} && Poised(step, previous, planned)
    {
      var at;
      err, at := CheckStart(parent, Absent);
      if old(Poised(step, previous, planned)) {
        UnspentLater(script, old(tick), tick, coordinator.State(), step);
      }
    }

    /** The check before each iteration leaves everything else as it is. */
    method CheckTurn(step: Identity, previous: Option<Identity>, planned: Decision, known: Ticks,
                     ghost before: seq<TraceEntry>, ghost start: Identity, ghost limit: Time)
      returns (err: Failure)
      requires Running(previous, planned, known) && Tracked(before, start, limit, true, step)
      modifies this`tick
      ensures Running(previous, planned, known) && Tracked(before, start, limit, true, step)
      ensures Logged() && Tracked(before, start, limit, false, step) && coordinator.State() == old(coordinator.State())
      ensures err != {} ==> Finished(script, before, StopDecision(planned, err), err)
      ensures old(Poised(step, previous, planned)) ==> err == {} && Poised(step, previous, planned)
    {
      err := CheckPoised(step, previous, planned);
      assert coordinator.State() == old(coordinator.State()) && dispatches == old(dispatches);
      if err != {} { StoppedEnds(script, before, planned, err); }
    }

    lemma Begins(start: Identity)
      requires coordinator.Valid() && dispatches == []
      ensures Running(None, NoDecision, NoTicks) && Tracked([], start, deadline, true, start)
    {
    }

    /** One iteration, seen from the beginning of the run. */
    method CheckedTurn(step: Identity, previous: Option<Identity>, planned: Decision, known: Ticks,
                       before: seq<TraceEntry>, ghost start: Identity, ghost limit: Time, ghost seen: seq<Event>,
                       ghost origin: Ledger, ghost poised: bool)
      returns (again: bool, trace: seq<TraceEntry>, err: Failure, next: Identity, decision: Decision, ticks: Ticks,
               ghost facts: seq<Event>, ghost ready: bool)
      requires Running(previous, planned, known) && Tracked(before, start, limit, true, step)
      requires Told(script, parent, dispatches, before, seen)
      requires Grows(origin, coordinator.State()) && |before| + |origin.events| <= |coordinator.events|
      requires poised ==> Poised(step, previous, planned) && Supplied(script, coordinator.operation)
      modifies coordinator, this`tick, this`dispatches, this`deadline
      ensures Logged() && Grows(origin, coordinator.State())
      ensures Tracked(trace, start, limit, again, next) && Told(script, parent, dispatches, trace, facts)
      ensures |trace| <= |before| + 1 && (again ==> |trace| + |origin.events| <= |coordinator.events|)
      ensures again ==> |coordinator.events| > old(|coordinator.events|) && Running(Some(step), decision, ticks)
      ensures !again ==> Finished(script, trace, decision, err)
      ensures ready ==> again && Poised(next, Some(step), decision) && Supplied(script, coordinator.operation)
      ensures
        Steady(script, Remaining(origin), |origin.events|, before, seen, true, poised, old(|coordinator.events|)) ==>
        Steady(script, Remaining(origin), |origin.events|, trace, facts, again, ready, |coordinator.events|)
    {
      ghost var middle := coordinator.State();
      again, trace, err, next, decision, ticks, facts :=
        TracedIteration(step, previous, planned, known, before, start, limit, seen);
      GrowsTransitive(origin, middle, coordinator.State());
      ready := again && Poised(next, Some(step), decision) && Supplied(script, coordinator.operation);
      SteadyStep(script, Remaining(origin), |origin.events|, before, seen, poised, |middle.events|, trace, facts, again,
                 ready, |coordinator.events|);
    }

    /** One turn of the loop: cancellation and the sequence deadline are checked before anything runs. */
    method Turn(step: Identity, previous: Option<Identity>, planned: Decision, known: Ticks,
                before: seq<TraceEntry>, ghost start: Identity, ghost limit: Time, ghost seen: seq<Event>,
                ghost origin: Ledger, ghost poised: bool)
      returns (again: bool, trace: seq<TraceEntry>, err: Failure, next: Identity, decision: Decision, ticks: Ticks,
               ghost facts: seq<Event>, ghost ready: bool)
      requires Running(previous, planned, known) && Tracked(before, start, limit, true, step)
      requires Told(script, parent, dispatches, before, seen)
      requires Grows(origin, coordinator.State()) && |before| + |origin.events| <= |coordinator.events|
      requires poised ==> Poised(step, previous, planned) && Supplied(script, coordinator.operation)
      modifies coordinator, this`tick, this`dispatches, this`deadline
      ensures Logged() && Grows(origin, coordinator.State())
      ensures Tracked(trace, start, limit, again, next) && Told(script, parent, dispatches, trace, facts)
      ensures |trace| <= |before| + 1 && (again ==> |trace| + |origin.events| <= |coordinator.events|)
      ensures again ==> |coordinator.events| > old(|coordinator.events|) && Running(Some(step), decision, ticks)
      ensures !again ==> Finished(script, trace, decision, err)
      ensures ready ==> again && Poised(next, Some(step), decision) && Supplied(script, coordinator.operation)
      ensures
        Steady(script, Remaining(origin), |origin.events|, before, seen, true, poised, old(|coordinator.events|)) ==>
        Steady(script, Remaining(origin), |origin.events|, trace, facts, again, ready, |coordinator.events|)
    {
      err := CheckTurn(step, previous, planned, known, before, start, limit);
      if err != {} {
        again, trace, next, decision, ticks, facts := false, before, step, StopDecision(planned, err), NoTicks, seen;
        ready := false;
        SteadyStops(script, Remaining(origin), |origin.events|, before, seen, |coordinator.events|,
                    |coordinator.events|);
      } else {
        again, trace, err, next, decision, ticks, facts, ready :=
          CheckedTurn(step, previous, planned, known, before, start, limit, seen, origin, poised);
      }
    }

    /** The loop of Sequence.Run, for any starting point. */
    method Loop(start: Identity, ghost limit: Time)
      returns (trace: seq<TraceEntry>, decision: Decision, err: Failure, ghost facts: seq<Event>)
      requires Running(None, NoDecision, NoTicks) && Tracked([], start, limit, true, start)
      modifies coordinator, this`tick, this`dispatches, this`deadline
      ensures Logged() && Grows(old(coordinator.State()), coordinator.State())
      ensures Tracked(trace, start, limit, false, start) && Told(script, parent, dispatches, trace, facts)
      ensures |trace| <= old(Remaining(coordinator.State())) + 1
      ensures Finished(script, trace, decision, err)
      ensures old(Poised(start, None, NoDecision)) && Supplied(script, coordinator.operation) ==>
        Persists(script, trace, facts, old(Remaining(coordinator.State())))
    {
      trace, decision, err, facts := [], NoDecision, {}, [];
      var step, previous: Option<Identity>, ticks := start, None, NoTicks;
      ghost var origin := coordinator.State();
      ghost var calmly := Poised(start, None, NoDecision) && Supplied(script, coordinator.operation);
      ghost var poised := calmly;
      while true
        invariant Running(previous, decision, ticks) && Grows(origin, coordinator.State())
        invariant Tracked(trace, start, limit, true, step) && Told(script, parent, dispatches, trace, facts)
        invariant |trace| + |origin.events| <= |coordinator.events|
        invariant poised ==> Poised(step, previous, decision) && Supplied(script, coordinator.operation)
        invariant calmly ==>
          Steady(script, Remaining(origin), |origin.events|, trace, facts, true, poised, |coordinator.events|)
        decreases coordinator.limit - |coordinator.events|
      {
        var again, next;
        again, trace, err, next, decision, ticks, facts, poised :=
          Turn(step, previous, decision, ticks, trace, start, limit, facts, origin, poised);
        if !again { return; }
        previous, step := Some(step), next;
      }
    }

    /** Sequence.Run: dispatch the first step, then repeat when, and only when, explicit replay and scheduling permit.
        `facts` tells what was known of each dispatched attempt when it returned. */
    method RunSequence(start: Identity)
      returns (trace: seq<TraceEntry>, decision: Decision, err: Failure, ghost facts: seq<Event>)
      requires coordinator.Valid() && dispatches == []
      modifies coordinator, this`tick, this`dispatches, this`deadline
      ensures coordinator.Valid() && Grows(old(coordinator.State()), coordinator.State())
      ensures LogIsSound(script, dispatches, coordinator.State())
      ensures HonestDeadlines(script, parent) ==> WindowsHold(script, dispatches, parent, old(deadline))
      ensures |trace| <= old(Remaining(coordinator.State())) + 1 && TraceIsTrue(trace, dispatches, start)
      ensures Told(script, parent, dispatches, trace, facts)
      ensures !IsRepeat(decision.action) && (trace == [] ==> err != {})
      ensures trace != [] ==> EndsWith(script, trace[|trace| - 1], decision, err)
      ensures old(Poised(start, None, NoDecision)) && Supplied(script, coordinator.operation) ==>
        Persists(script, trace, facts, old(Remaining(coordinator.State())))
    {
      trace, decision, err, facts := [], NoDecision, {}, [];
      if !complete { err := {InvalidBoundary}; return; }
      if Poised(start, None, NoDecision) { RoomyEarliest(script, parent, deadline, Absent); }
      deadline := EarliestDeadline(parent, deadline, Absent);
      ghost var limit := deadline;
      Begins(start);
      trace, decision, err, facts := Loop(start, limit);
      if HonestDeadlines(script, parent) { WindowsStayInside(script, dispatches, parent, old(deadline)); }
    }

    function Latest(): Dispatch
      requires dispatches != []
      reads this
    {
      dispatches[|dispatches| - 1]
    }

    /** Exactly one more Dispatch was invoked, of this identity, soundly started since `from`. */
    ghost predicate OneDispatch(before: seq<Dispatch>, from: nat, id: Identity, repeat: Option<Repeat>)
      reads this
    {
      && |dispatches| == |before| + 1 && dispatches == before + [Latest()]
      && Latest().id == id && Latest().deadline == deadline && DispatchIsSound(script, Latest(), repeat, from, tick)
    }

    /** Coordinator.AuthorizeRepeat at one instant, after whatever the others did. */
    method SwapNow(event: Event, next: Identity, replay: Replay, outstanding: Failure)
      returns (answer: Result<Decision, Error>, grant: Grant)
      requires coordinator.Valid() && outstanding == {}
      modifies coordinator, this`tick
      ensures coordinator.Valid() && tick > old(tick)
      ensures Grows(old(coordinator.State()), coordinator.State())
      ensures answer == Err(EventChanged) ==> Overtaken(coordinator.State(), event)
      ensures answer.Err? ==>
        answer.error == AuthorizationCancelled || answer.error == EventChanged || answer.error == InvalidEvent
      ensures answer == Err(AuthorizationCancelled) ==> script.context(tick - 1) != {}
      ensures Granted(answer) ==>
        && GrantIsSound(grant, next) && grant.expected == event && grant.replay == replay
        && grant.action == answer.value.action
        && Grows(old(coordinator.State()), grant.ledger) && Grows(grant.ledger, coordinator.State())
      ensures Calm(script, parent) && MayRepeat(old(coordinator.State()), event, next, replay) ==>
        && Granted(answer)
        && coordinator.State() == Stores(old(coordinator.State()), Event(next, Dispatched, false, Unknown))
    {
      Yield();
      ghost var start := old(coordinator.State());
      var before := coordinator.State();
      var cancelled := script.context(tick) != {};
      tick := tick + 1;
      answer := coordinator.AuthorizeRepeat(event, next, replay, cancelled);
      SwapFacts(before, event, next, replay, cancelled);
      grant := Grant(before, event, replay, if answer.Ok? then answer.value.action else Stop, outstanding);
      GrowsTransitive(start, before, coordinator.State());
    }
  }

  /** A granted repeat: sound at its instant, of the scheduled action, on the scheduled attempt. */
  ghost predicate Authorized(script: Script, r: SwapResult, next: Identity, repeat: Repeat)
    requires r.Answered?
  {
    && GrantIsSound(r.grant, next) && r.grant.expected.identity == repeat.previous
    && r.grant.action == r.decision.action == repeat.decision.action
    && (NeverSafeDuplicate(script) ==> !r.grant.replay.safeDuplicate)
  }

  /** A run whose identity is refused fails, one beyond the budget reports that, and every other has a receipt. */
  predicate BegunAs(begun: Ledger, id: Identity, result: BoundaryResult, err: Failure) {
    match BeginStep(begun, id).1
    case Err(_) => err == {InvalidEvent} && !result.receipt && !result.budgetExhausted
    case Ok(answer) => if answer.started then result.receipt else result.budgetExhausted
  }

  /** What Begin reported to the Boundary. */
  predicate BeginAnswers(begun: Ledger, id: Identity, r: Result<bool, Error>) {
    match BeginStep(begun, id).1
    case Err(error) => r == Err(error)
    case Ok(result) => r == Ok(result.started)
  }

  /** Between the two ledgers there was an instant, `begun`, at which Begin gave the identity its slot. */
  ghost predicate BegunBetween(before: Ledger, begun: Ledger, id: Identity, after: Ledger) {
    && Attempt.Inv(begun) && Grows(before, begun)
    && Allocates(begun, id) && Grows(BeginStep(begun, id).0, after)
  }

  /** `event` was `id`'s stored event at some moment between the two ledgers. */
  predicate Between(before: Ledger, event: Event, after: Ledger, id: Identity) {
    && event.identity == id && ValidEvent(event)
    && (id.attempt in before.events ==> Le(before.events[id.attempt], event))
    && id.attempt in after.events && Le(event, after.events[id.attempt])
  }

  /** The facts of the last pass, known to have been overtaken. */
  predicate Pending(ledger: Ledger, seen: Event, id: Identity) {
    && seen.identity == id && ValidEvent(seen)
    && Overtaken(ledger, seen) && ValidEvent(ledger.events[id.attempt]) && Le(seen, ledger.events[id.attempt])
  }

  lemma PendingHasRoom(ledger: Ledger, seen: Event, id: Identity)
    requires Pending(ledger, seen, id)
    ensures Headroom(seen) > 0
  {
    HeadroomDecreases(seen, ledger.events[id.attempt]);
  }

  lemma PassShrinks(ledger: Ledger, seen: Event, event: Event, id: Identity)
    requires Pending(ledger, seen, id) && ValidEvent(event) && Le(ledger.events[id.attempt], event)
    ensures Headroom(event) < Headroom(seen)
  {
    var stored := ledger.events[id.attempt];
    HeadroomDecreases(seen, stored);
    if event != stored { HeadroomDecreases(stored, event); }
  }

  /** The attempt's facts are final in phase but no longer those the evidence was issued for. */
  predicate Overtaken(ledger: Ledger, event: Event) {
    && event.identity.attempt in ledger.events
    && ledger.events[event.identity.attempt].phase == Terminal
    && ledger.events[event.identity.attempt] != event
  }

  predicate MayRepeat(ledger: Ledger, expected: Event, next: Identity, replay: Replay) {
    RepeatRules(ledger, expected, next, replay, if replay.useFallback then Fallback else Retry)
  }

  lemma SwapFacts(before: Ledger, event: Event, next: Identity, replay: Replay, cancelled: bool)
    requires Attempt.Inv(before)
    ensures var (after, answer) := AuthorizeStep(before, event, next, replay, cancelled);
      && (answer == Err(EventChanged) ==> Overtaken(after, event))
      && (answer == Err(AuthorizationCancelled) ==> cancelled)
      && (answer.Err? ==>
            answer.error == AuthorizationCancelled || answer.error == EventChanged || answer.error == InvalidEvent)
      && (Granted(answer) ==> GrantIsSound(Grant(before, event, replay, answer.value.action, {}), next))
      && (!cancelled && MayRepeat(before, event, next, replay) ==>
            Granted(answer) && after == Stores(before, Event(next, Dispatched, false, Unknown)))
  {
    AuthorizeExact(before, event, next, replay, cancelled);
    AuthorizeFailsExactly(before, event, next, replay, cancelled);
  }

  /** The pass's own decision and the swap agree on the action, because a reserved slot leaves budget. */
  lemma SameAction(ledger: Ledger, event: Event, remaining: int, replay: Replay)
    requires Attempt.Inv(ledger) && remaining == Remaining(ledger)
    requires event.identity.attempt in ledger.events && ledger.events[event.identity.attempt] == event
    ensures RepeatSafe(event, replay) ==>
      && Decide(event, remaining + 1, replay).Ok?
      && Decide(event, remaining + 1, replay).value.action == (if replay.useFallback then Fallback else Retry)
  {
    DecideGrantsExactlySafeRepeats(event, remaining + 1, replay);
  }

  predicate Accepts(ledger: Ledger, event: Event) {
    && event.identity.attempt in ledger.events && ValidEvent(event)
    && Le(ledger.events[event.identity.attempt], event)
  }

  lemma UpdateAccepts(ledger: Ledger, event: Event)
    requires Attempt.Inv(ledger)
    ensures var (after, err) := UpdateStep(ledger, event);
      && (err.None? ==> after == Stores(ledger, event))
      && (err.Some? ==> err.value == InvalidEvent)
      && (err.Some? ==> after == ledger && !Accepts(ledger, event))
  {
  }

  lemma ClosingIsUpdate(event: Event, notExecuted: bool)
    requires ValidEvent(event) && (notExecuted ==> NotContradicted(event))
    ensures ValidEvent(ClosingEvent(event, notExecuted)) && Le(event, ClosingEvent(event, notExecuted))
  {
  }

  const NoDecision :=
    Decision(Stop, NotRetryable, Event(Identity("", ""), BeforeDispatch, false, Unknown), Absent, Absent)

  predicate SameWindow(a: Decision, b: Decision) {
    a.notBefore == b.notBefore && a.deadline == b.deadline
  }

  predicate Admissible(result: BoundaryResult) {
    && result.receipt && !result.started && result.closes == 0 && !result.hooked && !result.settled
    && !result.notExecuted && !result.budgetExhausted
  }

  /** The reservation of a run that got an identity is settled, or owed by exactly one hook on the returned
      Lifetime, or the refused ledger write is in the returned error; and NotExecuted is claimed only if
      Dispatch was never invoked. */
  predicate Accounted(result: BoundaryResult, err: Failure) {
    && (result.notExecuted ==> !result.started)
    && (result.hooked ==> result.started && result.lifetime && result.closes == 0)
    && (!result.hooked ==> result.closes == 1 && (result.settled || InvalidEvent in err))
  }

  /** A first dispatch has no grant; a repeat has a sound one, of the scheduled action on the scheduled attempt. */
  ghost predicate DispatchIsSound(script: Script, d: Dispatch, repeat: Option<Repeat>, from: nat, to: nat) {
    && (d.grant.Some? <==> repeat.Some?) && from <= d.at < to
    && (repeat.Some? ==>
          && GrantIsSound(d.grant.value, d.id)
          && d.grant.value.expected.identity == repeat.value.previous
          && d.grant.value.action == repeat.value.decision.action
          && d.notBefore == repeat.value.decision.notBefore && d.ticks == repeat.value.ticks && 1 <= d.passes <= 3
          && BeforeDeadline(script.now(d.at), d.limit)
          && (NeverSafeDuplicate(script) ==> !d.grant.value.replay.safeDuplicate))
  }

  /** No context reports the zero instant - the encoding of "no deadline" - as its deadline. */
  ghost predicate HonestDeadlines(script: Script, parent: Option<Time>) {
    parent != Some(Absent) && forall t :: script.bounded(t) != Some(Some(Absent))
  }

  /** The window of a scheduled repeat: it starts no earlier than backoff, hint and cooldown allow - as given by
      the host at some tick and counted from a clock reading - and ends with the tightest known deadline. */
  ghost predicate ScheduledFrom(script: Script, d: Decision, parent: Option<Time>, deadline: Time, asked: nat,
                                read: nat) {
    var input := script.schedule(asked).value.(now := script.now(read));
    && RespectsBounds(d.notBefore, input)
    && d.deadline == EarliestDeadline(parent, input.deadline, deadline)
    && BeforeDeadline(d.notBefore, d.deadline)
  }

  /** A repeat's failure was classified, its evidence given and its start waited for, all without an error; that start
      respects backoff, hint and cooldown as one answer of Schedule gave them, counted from the clock reading taken for
      that answer, and a later reading has reached it. */
  ghost predicate Planned(script: Script, notBefore: Time, ticks: Ticks) {
    && ticks.asked < ticks.read < ticks.checked && notBefore <= script.now(ticks.checked)
    && Posed(script, ticks.asked) && Waited(script, ticks.checked)
    && RespectsBounds(notBefore, script.schedule(ticks.asked).value.(now := script.now(ticks.read)))
  }

  /** The deadline that answer asked for. */
  function AskedDeadline(script: Script, ticks: Ticks): Time {
    script.schedule(ticks.asked).value.deadline
  }

  /** The sequence deadline taken over from a scheduled repeat is within the old one and the one asked for. */
  lemma WindowTightens(script: Script, d: Decision, parent: Option<Time>, deadline: Time, asked: nat, read: nat)
    requires HonestDeadlines(script, parent) && ScheduledFrom(script, d, parent, deadline, asked, read)
    ensures Tightens(EarliestDeadline(parent, deadline, d.deadline), deadline)
    ensures Tightens(EarliestDeadline(parent, deadline, d.deadline), script.schedule(asked).value.deadline)
  {
    var wanted := script.schedule(asked).value.deadline;
    forall now: Time | BeforeDeadline(now, EarliestDeadline(parent, deadline, d.deadline))
      ensures BeforeDeadline(now, deadline) && BeforeDeadline(now, wanted)
    {
      EarliestIsConjunction(parent, deadline, d.deadline, now);
      EarliestIsConjunction(parent, wanted, deadline, now);
    }
  }

  datatype TraceEntry = TraceEntry(id: Identity, started: bool, err: Failure)

  /** The evidence was given by the Replay callback. */
  ghost predicate Offered(script: Script, replay: Replay) {
    exists t :: script.replay(t).value == replay
  }

  /** The replay decision on these facts is not a repeat, or its window does not open before the deadline. */
  predicate DeclinedBy(replay: Replay, remaining: int, d: Decision) {
    var r := Decide(d.event, remaining, replay);
    && r.Ok?
    && if IsRepeat(r.value.action)
       then d.action == Defer && d.reason == DeadlineExhausted && d.deadline != Absent && d.deadline <= d.notBefore
       else d.action == r.value.action && d.reason == r.value.reason
  }

  ghost predicate Declined(script: Script, id: Identity, d: Decision) {
    && d.event.identity == id
    && exists replay, remaining :: Offered(script, replay) && DeclinedBy(replay, remaining, d)
  }

  predicate Stopped(d: Decision, err: Failure) {
    && d.action == Stop
    && (Canceled in err ==> d.reason == Cancelled)
    && (Canceled !in err && DeadlineExceeded in err ==> d.reason == DeadlineExhausted)
    && (Canceled !in err && DeadlineExceeded !in err ==> d.reason == NotRetryable)
  }

  /** Why a sequence ends with this attempt's own result. */
  predicate Completes(last: BoundaryResult, err: Failure, d: Decision) {
    if err != {} then Stopped(d, err)
    else if last.budgetExhausted then d.action == Stop && d.reason == BudgetExhausted
    else if last.admission == Denied then d.action == Stop && d.reason == AdmissionDenied
    else if last.admission == Deferred then
      d.action == Defer && d.reason == AdmissionDeferred && d.notBefore == last.retryAt
    else d.action == Stop && d.reason == ExecutionReturned
  }

  /** The end of a sequence whose last attempt has this entry: the attempt's own error if it was refused, succeeded or
      broke the contract; no error if the evidence declined a repeat; otherwise the error that stopped the sequence. */
  ghost predicate EndsWith(script: Script, entry: TraceEntry, d: Decision, err: Failure) {
    if !entry.started || !Retriable(entry.err) then err == entry.err
    else if err == {} then Declined(script, entry.id, d)
    else Stopped(d, err)
  }

  /** The calm run so far, with `count` identities known and `base` of them from before the run: while every attempt's
      facts permit a repeat and there is budget, the next one is poised. */
  ghost predicate Steady(script: Script, budget: int, base: nat, trace: seq<TraceEntry>, facts: seq<Event>, again: bool,
                         poised: bool, count: nat)
  {
    && (again ==> |facts| == |trace|)
    && (again && AllWilling(script, facts) && |trace| < budget ==> poised && count == base + |trace|)
    && (!again ==> Persists(script, trace, facts, budget))
  }

  /** What one more turn adds to the trace and to the facts. */
  predicate Adds(before: seq<TraceEntry>, seen: seq<Event>, trace: seq<TraceEntry>, facts: seq<Event>) {
    && |before| <= |trace| <= |before| + 1 && |seen| <= |facts| <= |seen| + 1 && |facts| <= |trace|
    && facts[..|seen|] == seen
  }

  /** What a poised turn does, with `known` identities before it and `count` after it: it makes an attempt, and unless
      that ends the sequence, the next one is ready. */
  ghost predicate Moves(script: Script, known: nat, limit: int, again: bool, trace: seq<TraceEntry>, facts: seq<Event>,
                        ready: bool, count: nat)
  {
    && |facts| == |trace| > 0
    && (Willing(script, facts[|facts| - 1]) && Retriable(trace[|trace| - 1].err) && known + 1 < limit ==>
          again && ready && count == known + 1)
  }

  lemma SteadyStep(script: Script, budget: int, base: nat, before: seq<TraceEntry>, seen: seq<Event>, poised: bool,
                   known: nat, trace: seq<TraceEntry>, facts: seq<Event>, again: bool, ready: bool, count: nat)
    requires Adds(before, seen, trace, facts) && |trace| == |before| + 1
    requires again ==> |facts| == |trace| && Retriable(trace[|before|].err)
    requires poised ==> Moves(script, known, base + budget, again, trace, facts, ready, count)
    ensures Steady(script, budget, base, before, seen, true, poised, known) ==>
      Steady(script, budget, base, trace, facts, again, ready, count)
  {
    if Steady(script, budget, base, before, seen, true, poised, known) {
      if !again {
        PersistsAtLast(script, before, seen, trace, facts, budget);
      } else if AllWilling(script, facts) && |trace| < budget {
        WillingPrefix(script, facts, |seen|);
        assert Willing(script, facts[|seen|]);
      }
    }
  }

  lemma SteadyStops(script: Script, budget: int, base: nat, before: seq<TraceEntry>, seen: seq<Event>, known: nat,
                    count: nat)
    ensures Steady(script, budget, base, before, seen, true, false, known) ==>
      Steady(script, budget, base, before, seen, false, false, count)
  {
    if Steady(script, budget, base, before, seen, true, false, known) {
      PersistsAtLast(script, before, seen, before, seen, budget);
    }
  }

  /** A sequence that is stopped before its next attempt. */
  lemma StoppedEnds(script: Script, trace: seq<TraceEntry>, planned: Decision, err: Failure)
    requires AllRetriable(trace) && err != {}
    ensures Finished(script, trace, StopDecision(planned, err), err)
  {
  }

  /** What the trace says of each dispatch: the facts known when it returned are its own, and its error includes what
      the callback returned - in a calm run, is just that. */
  ghost predicate Told(script: Script, parent: Option<Time>, log: seq<Dispatch>, trace: seq<TraceEntry>,
                       facts: seq<Event>)
  {
    && |facts| == |log| <= |trace|
    && (forall i :: 0 <= i < |facts| ==> ToldOf(script, parent, log[i], trace[i], facts[i]))
  }

  ghost predicate ToldOf(script: Script, parent: Option<Time>, d: Dispatch, entry: TraceEntry, fact: Event) {
    && fact.identity == d.id && script.dispatch(d.called).err <= entry.err
    && (Calm(script, parent) ==> entry.err == script.dispatch(d.called).err)
  }

  lemma EntryAppended(script: Script, before: seq<TraceEntry>, seen: seq<Event>, entry: TraceEntry, fact: Event,
                      d: Decision, err: Failure)
    requires |seen| == |before|
    ensures var trace, facts := before + [entry], if entry.started then seen + [fact] else seen;
      && Adds(before, seen, trace, facts) && trace[|trace| - 1] == entry
      && (entry.started ==> |facts| == |trace| && facts[|facts| - 1] == fact)
      && (!IsRepeat(d.action) && EndsWith(script, entry, d, err) ==> Finished(script, trace, d, err))
  {
  }

  lemma ToldExtended(script: Script, parent: Option<Time>, log: seq<Dispatch>, trace: seq<TraceEntry>,
                     facts: seq<Event>, d: Dispatch, entry: TraceEntry, fact: Event)
    requires Told(script, parent, log, trace, facts) && |log| == |trace| && ToldOf(script, parent, d, entry, fact)
    ensures Told(script, parent, log + [d], trace + [entry], facts + [fact])
  {
  }

  lemma ToldLonger(script: Script, parent: Option<Time>, log: seq<Dispatch>, trace: seq<TraceEntry>,
                   facts: seq<Event>, entry: TraceEntry)
    requires Told(script, parent, log, trace, facts)
    ensures Told(script, parent, log, trace + [entry], facts)
  {
  }

  lemma UnspentLater(script: Script, from: nat, to: nat, ledger: Ledger, step: Identity)
    requires Unspent(script, from, ledger, step) && from <= to
    ensures Unspent(script, to, ledger, step)
  {
  }

  /** The sequence is over, with this decision and error. */
  ghost predicate Finished(script: Script, trace: seq<TraceEntry>, d: Decision, err: Failure) {
    && !IsRepeat(d.action) && (trace == [] ==> err != {})
    && (trace != [] ==> EndsWith(script, trace[|trace| - 1], d, err))
  }

  /** Next will not name an attempt that is known, nor the coming one. */
  ghost predicate Unspent(script: Script, from: nat, ledger: Ledger, step: Identity) {
    forall t :: t >= from ==>
      script.next(t).value.attempt !in ledger.events && script.next(t).value.attempt != step.attempt
  }

  ghost predicate AllWilling(script: Script, facts: seq<Event>) {
    forall i {:trigger Willing(script, facts[i])} :: 0 <= i < |facts| ==> Willing(script, facts[i])
  }

  /** The sequence makes a first attempt, and as long as the facts of every attempt - `facts[i]` is what was known when
      attempt i returned - permit a repeat, it does not end with a failure before its budget is used up. */
  ghost predicate Persists(script: Script, trace: seq<TraceEntry>, facts: seq<Event>, budget: int) {
    && |facts| <= |trace| && (budget >= 1 ==> facts != [])
    && (facts != [] && AllWilling(script, facts) && Retriable(trace[|facts| - 1].err) ==> |facts| >= budget)
  }

  lemma WillingPrefix(script: Script, facts: seq<Event>, n: nat)
    requires AllWilling(script, facts) && n <= |facts|
    ensures AllWilling(script, facts[..n])
  {
    forall i | 0 <= i < n ensures Willing(script, facts[..n][i]) {
      assert Willing(script, facts[i]);
    }
  }

  /** The last turn: if everything so far could be repeated within the budget, an attempt was made, and it was the last
      one because it did not fail, or may not be repeated, or used up the budget. */
  lemma PersistsAtLast(script: Script, before: seq<TraceEntry>, seen: seq<Event>, trace: seq<TraceEntry>,
                       facts: seq<Event>, budget: int)
    requires |seen| == |before| && Adds(before, seen, trace, facts)
    requires AllWilling(script, seen) && |before| < budget ==>
      && |facts| == |trace| == |before| + 1
      && !(Willing(script, facts[|seen|]) && Retriable(trace[|before|].err) && |before| + 1 < budget)
    ensures Persists(script, trace, facts, budget)
  {
    if AllWilling(script, facts) { WillingPrefix(script, facts, |seen|); }
    if |facts| == |seen| + 1 && AllWilling(script, facts) { assert Willing(script, facts[|seen|]); }
  }

  /** Only errors of the attempt itself, not of the contract, may lead to a repeat. */
  predicate Retriable(err: Failure) {
    err != {} && !IsControlError(err)
  }

  ghost predicate AllRetriable(trace: seq<TraceEntry>) {
    forall i :: 0 <= i < |trace| ==> trace[i].started && Retriable(trace[i].err)
  }

  /** The trace lists the run's attempts in order: all of one operation, each entry but the last one a started
      attempt that failed on its own account, and each started entry one invocation of Dispatch. */
  ghost predicate TraceIsTrue(trace: seq<TraceEntry>, dispatches: seq<Dispatch>, start: Identity) {
    && |dispatches| <= |trace| <= |dispatches| + 1
    && (forall i :: 0 <= i < |trace| ==> (trace[i].started <==> i < |dispatches|))
    && (forall i :: 0 <= i < |dispatches| ==> trace[i].id == dispatches[i].id)
    && (forall i :: 0 <= i < |trace| - 1 ==> Retriable(trace[i].err))
    && (forall i :: 0 <= i < |trace| ==> trace[i].id.operation == start.operation)
    && (trace != [] ==> trace[0].id == start)
  }

  lemma TraceExtended(trace: seq<TraceEntry>, log: seq<Dispatch>, entry: TraceEntry, dispatches: seq<Dispatch>,
                      start: Identity)
    requires TraceIsTrue(trace, log, start) && AllRetriable(trace) && |trace| == |log|
    requires entry.id.operation == start.operation && (trace == [] ==> entry.id == start)
    requires entry.started ==>
      |dispatches| == |log| + 1 && dispatches[..|log|] == log && dispatches[|log|].id == entry.id
    requires !entry.started ==> dispatches == log
    ensures TraceIsTrue(trace + [entry], dispatches, start)
    ensures entry.started && Retriable(entry.err) ==> AllRetriable(trace + [entry])
  {
    assert forall i :: 0 <= i < |log| ==> dispatches[i].id == log[i].id;
  }

  function StopDecision(decision: Decision, err: Failure): Decision {
    decision.(action := Stop,
              reason := if Canceled in err then Cancelled
                        else if DeadlineExceeded in err then DeadlineExhausted else NotRetryable)
  }

  /** A cancelled context stays cancelled. */
  ghost predicate StickyContext(script: Script) {
    forall s: nat, t: nat :: s <= t && script.context(s) != {} ==> script.context(t) != {}
  }

  /** A start that did not happen left an error, or the repeat was no longer wanted. */
  predicate Explained(err: Failure, repeat: Option<Repeat>, decision: Decision) {
    err != {} || (repeat.Some? && !IsRepeat(decision.action))
  }

  predicate NotAdmitted(result: BoundaryResult) {
    result.budgetExhausted || result.admission == Denied || result.admission == Deferred
  }

  ghost predicate NondecreasingClock(script: Script) {
    forall s: nat, t: nat :: s <= t ==> script.now(s) <= script.now(t)
  }

  lemma ClockReached(script: Script, checked: nat, at: nat, start: Time)
    requires checked <= at && start <= script.now(checked)
    ensures NondecreasingClock(script) ==> start <= script.now(at)
  {
  }

  /** A repeat in the log of a sequence: authorized against the dispatch just before it, in at most three passes, and
      started inside the window that its own schedule gave it. */
  ghost predicate RepeatIsSound(script: Script, previous: Dispatch, d: Dispatch) {
    && d.grant.Some? && GrantIsSound(d.grant.value, d.id) && d.grant.value.expected.identity == previous.id
    && 1 <= d.passes <= 3
    && previous.at < d.ticks.asked && d.ticks.checked < d.at && Planned(script, d.notBefore, d.ticks)
    && (NondecreasingClock(script) ==> d.notBefore <= script.now(d.at))
    && BeforeDeadline(script.now(d.at), d.limit)
    && (NeverSafeDuplicate(script) ==> !d.grant.value.replay.safeDuplicate)
  }

  /** The Dispatch callbacks of one sequence: distinct identities, every repeat sound, and - without a licence to
      duplicate - every attempt but the latest proven never executed and never committed. */
  ghost predicate LogIsSound(script: Script, log: seq<Dispatch>, ledger: Ledger) {
    && (forall i :: 0 <= i < |log| ==> log[i].id.attempt in ledger.events)
    && (forall i, j :: 0 <= i < j < |log| ==> log[i].id.attempt != log[j].id.attempt)
    && (log != [] ==> log[0].grant.None?)
    && (forall i :: 0 < i < |log| ==> RepeatIsSound(script, log[i - 1], log[i]))
    && (NeverSafeDuplicate(script) ==>
          forall i :: 0 <= i < |log| - 1 ==> NeverExecuted(ledger, log[i].id.attempt))
  }

  predicate NeverExecuted(ledger: Ledger, key: string) {
    key in ledger.events && ledger.events[key].outcome == NotExecuted && !ledger.events[key].committed
  }

  /** Deadlines only tighten from attempt to attempt; a repeat's is within the one its Schedule answer asked for, and
      its own limit is within it. */
  ghost predicate WindowsTighten(script: Script, log: seq<Dispatch>) {
    && (forall i, j :: 0 <= i < j < |log| ==> Tightens(log[j].deadline, log[i].deadline))
    && (forall i :: 0 < i < |log| ==> Tightens(log[i].deadline, AskedDeadline(script, log[i].ticks)))
    && (forall i :: 0 < i < |log| ==> Tightens(log[i].limit, log[i].deadline))
  }

  /** And all of them are within what the caller set: the sequence's own deadline and the context's. */
  ghost predicate WindowsHold(script: Script, log: seq<Dispatch>, parent: Option<Time>, own: Time) {
    && WindowsTighten(script, log)
    && (forall i :: 0 <= i < |log| ==> Tightens(log[i].deadline, own))
    && (forall i :: 0 <= i < |log| && parent.Some? ==> Tightens(log[i].deadline, parent.value))
  }

  lemma WindowsStayInside(script: Script, log: seq<Dispatch>, parent: Option<Time>, own: Time)
    requires HonestDeadlines(script, parent) && WindowsTighten(script, log)
    requires log != [] ==> log[0].deadline == EarliestDeadline(parent, own, Absent)
    ensures WindowsHold(script, log, parent, own)
  {
    forall i, now: Time | 0 <= i < |log| && BeforeDeadline(now, log[i].deadline)
      ensures BeforeDeadline(now, own) && (parent.Some? ==> BeforeDeadline(now, parent.value))
    {
      assert Tightens(log[i].deadline, log[0].deadline);
      EarliestIsConjunction(parent, own, Absent, now);
    }
  }

  ghost predicate StillTightens(deadline: Time, log: seq<Dispatch>) {
    forall i :: 0 <= i < |log| ==> Tightens(deadline, log[i].deadline)
  }

  lemma LogKept(script: Script, log: seq<Dispatch>, before: Ledger, after: Ledger)
    requires LogIsSound(script, log, before) && Grows(before, after) && Attempt.Inv(after)
    ensures LogIsSound(script, log, after)
  {
  }

  /** A dispatch that may come next in the log: a first one, or a sound repeat of the last one. */
  ghost predicate Follows(script: Script, log: seq<Dispatch>, d: Dispatch, ledger: Ledger) {
    if log == [] then d.grant.None?
    else RepeatIsSound(script, log[|log| - 1], d) && Grows(d.grant.value.ledger, ledger)
  }

  lemma LogExtended(script: Script, log: seq<Dispatch>, d: Dispatch, before: Ledger, after: Ledger)
    requires LogIsSound(script, log, before) && Grows(before, after) && Attempt.Inv(after)
    requires d.id.attempt !in before.events && d.id.attempt in after.events && Follows(script, log, d, after)
    ensures LogIsSound(script, log + [d], after)
  {
    LogKept(script, log, before, after);
    var all := log + [d];
    if log != [] && NeverSafeDuplicate(script) { RepeatedNeverExecuted(script, log[|log| - 1], d, after); }
    RepeatsExtended(script, log, d);
    assert forall i :: 0 <= i < |log| ==> all[i] == log[i];
  }

  lemma RepeatsExtended(script: Script, log: seq<Dispatch>, d: Dispatch)
    requires forall i :: 0 < i < |log| ==> RepeatIsSound(script, log[i - 1], log[i])
    requires log != [] ==> RepeatIsSound(script, log[|log| - 1], d)
    ensures forall i :: 0 < i < |log + [d]| ==> RepeatIsSound(script, (log + [d])[i - 1], (log + [d])[i])
  {
    var all := log + [d];
    forall i | 0 < i < |all| ensures RepeatIsSound(script, all[i - 1], all[i]) {
      if i < |log| { assert all[i] == log[i] && all[i - 1] == log[i - 1]; }
    }
  }

  lemma RepeatedNeverExecuted(script: Script, previous: Dispatch, d: Dispatch, after: Ledger)
    requires RepeatIsSound(script, previous, d) && Grows(d.grant.value.ledger, after) && Attempt.Inv(after)
    requires NeverSafeDuplicate(script)
    ensures NeverExecuted(after, previous.id.attempt)
  {
    var g := d.grant.value;
    assert g.expected.outcome == NotExecuted;
    assert Le(g.expected, after.events[g.expected.identity.attempt]);
  }

  lemma WindowsExtended(script: Script, log: seq<Dispatch>, d: Dispatch, deadline: Time)
    requires WindowsTighten(script, log) && StillTightens(deadline, log) && d.deadline == deadline
    requires log != [] ==> Tightens(d.limit, deadline) && Tightens(deadline, AskedDeadline(script, d.ticks))
    ensures WindowsTighten(script, log + [d]) && StillTightens(deadline, log + [d])
  {
    var all := log + [d];
    forall i, j | 0 <= i < j < |all| ensures Tightens(all[j].deadline, all[i].deadline) {
      assert i < |log|;
    }
    forall i | 0 < i < |all| ensures Tightens(all[i].limit, all[i].deadline) {}
    forall i | 0 < i < |all| ensures Tightens(all[i].deadline, AskedDeadline(script, all[i].ticks)) {}
  }

  datatype SwapResult = Blocked(err: Failure) | Changed | Answered(decision: Decision, grant: Grant)

  function ClosingEvent(event: Event, notExecuted: bool): Event {
    event.(phase := Terminal, outcome := if notExecuted then NotExecuted else event.outcome)
  }

  /** Nothing is known that would contradict "never executed". */
  predicate NotContradicted(event: Event) {
    !event.committed && event.outcome != Completed
  }

  ghost predicate NeverSafeDuplicate(script: Script) {
    forall t :: !script.replay(t).value.safeDuplicate
  }

  // ---------------------------------------------------------------------------------------------
  // Consequences

  /** A failed attempt is repeated: in a calm run, if its facts and those of all attempts before it permit a repeat and
      the budget allows one more, the sequence has made another attempt after it. */
  lemma FailuresAreRepeated(script: Script, trace: seq<TraceEntry>, facts: seq<Event>, budget: int, i: nat)
    requires Persists(script, trace, facts, budget) && i < |facts| && AllWilling(script, facts[..i + 1])
    requires Retriable(trace[i].err) && i + 1 < budget
    ensures i + 1 < |facts|
  {
    assert facts[..|facts|] == facts;
  }

  /** A host that always cooperates: its attempts fail, are worth repeating at once, and are named by their tick. */
  function Cooperative(operation: string): Script {
    Script(
      _ => [], _ => [], _ => 1, _ => {}, _ => Some(Some(2)), _ => {}, _ => AdmitAnswer(Unreserved, Absent, false, {}),
      (t: nat) => DispatchAnswer([], false, {HostError(t)}), _ => {}, _ => {}, _ => false, _ => {}, _ => {},
      _ => Reply(Replay(true, true, false, false, false, false), {}),
      _ => Reply(ScheduleInput(Absent, 0, Hint(false, Absent, "", "", 0), RejectHint, Absent, Absent), {}),
      _ => {}, (t: nat) => Reply(Identity(operation, seq(t + 1, _ => 'r')), {}))
  }

  /** Such a run is calm, and evidence of non-execution makes its facts repeatable without any licence to duplicate. */
  lemma CooperativeRunsAreCalm(operation: string, event: Event)
    requires event.outcome == NotExecuted && !event.committed
    ensures var script := Cooperative(operation);
      Calm(script, None) && Supplied(script, operation) && Willing(script, event) && NeverSafeDuplicate(script)
  {
    var script := Cooperative(operation);
    forall s: nat, t: nat | s + 1 < t ensures Reached(script, s, t) {
    }
    forall s: nat, t: nat | s != t ensures script.next(s).value.attempt != script.next(t).value.attempt {
      assert |script.next(s).value.attempt| == s + 1 && |script.next(t).value.attempt| == t + 1;
    }
  }

  /** At-most-once effect: if the evidence never licenses duplicates, then whatever anyone does to the Coordinator
      after (or during) the run, every attempt dispatched before the latest one stays proven never executed. */
  lemma AtMostOneAttemptEverExecutes(script: Script, log: seq<Dispatch>, ledger: Ledger, later: seq<Op>, i: nat)
    requires Attempt.Inv(ledger) && LogIsSound(script, log, ledger) && NeverSafeDuplicate(script)
    requires i < |log| - 1
    ensures NeverExecuted(Run(ledger, later), log[i].id.attempt)
  {
    NotExecutedForever(ledger, later, log[i].id.attempt);
  }

  /** The repeat window in plain inequalities: the last clock reading before an authorized repeat is at or after the
      start that its own schedule allows, and before the caller's, the context's and the schedule's deadline. */
  lemma RepeatsStartInsideTheirWindow(script: Script, log: seq<Dispatch>, ledger: Ledger, parent: Option<Time>,
                                      own: Time,
                                      i: nat)
    requires LogIsSound(script, log, ledger) && WindowsHold(script, log, parent, own) && 0 < i < |log|
    requires HonestDeadlines(script, parent) && NondecreasingClock(script)
    ensures var d := log[i];
      var asked, now, start := script.schedule(d.ticks.asked).value, script.now(d.at), script.now(d.ticks.read);
      && log[i - 1].at < d.ticks.asked < d.ticks.read < d.at
      && now >= start + asked.backoff && (asked.cooldown != Absent ==> now >= asked.cooldown)
      && (asked.hint.present && HintStart(asked.hint).Ok? ==> now >= asked.hint.notBefore + asked.hint.uncertainty)
      && BeforeDeadline(now, own) && BeforeDeadline(now, asked.deadline) && (parent.Some? ==> now < parent.value)
  {
    var d := log[i];
    assert RepeatIsSound(script, log[i - 1], log[i]);
    assert Tightens(d.limit, d.deadline) && Tightens(d.deadline, own);
    assert Tightens(d.deadline, AskedDeadline(script, d.ticks));
    assert BeforeDeadline(script.now(d.at), d.deadline);
  }

  /** The bound of three passes is tight: an attempt that ended with nothing known can become visible and then be
      known complete between the passes, before the third one is granted. */
  lemma ThreePassesHappen(previous: Identity, next: Identity)
    requires previous.operation != "" && previous.attempt != "" && next.attempt != ""
    requires previous.attempt != next.attempt && next.operation == previous.operation
    ensures var replay := Replay(true, true, true, true, true, false);
      var ended := Event(previous, Terminal, false, Unknown);
      var visible := ended.(committed := true);
      var done := visible.(outcome := Completed);
      var l0 := Ledger(previous.operation, 2, map[previous.attempt := ended,
                                                  next.attempt := Event(next, BeforeDispatch, false, Unknown)]);
      var l1, l2 := Run(l0, [Update(visible)]), Run(l0, [Update(visible), Update(done)]);
      && Attempt.Inv(l0) && CloseTried(l0, previous) && Headroom(ended) == 2
      && AuthorizeStep(l1, ended, next, replay, false).1 == Err(EventChanged)
      && AuthorizeStep(l2, visible, next, replay, false).1 == Err(EventChanged)
      && Granted(AuthorizeStep(l2, done, next, replay, false).1)
  {
    var ended := Event(previous, Terminal, false, Unknown);
    var visible := ended.(committed := true);
    var done := visible.(outcome := Completed);
    var waiting := Event(next, BeforeDispatch, false, Unknown);
    var l0 := Ledger(previous.operation, 2, map[previous.attempt := ended, next.attempt := waiting]);
    InsertSize(map[previous.attempt := ended], next.attempt, waiting);
    assert l0.events == map[previous.attempt := ended][next.attempt := waiting];
    var l1 := Apply(l0, Update(visible));
    var l2 := Apply(l1, Update(done));
    assert [Update(visible), Update(done)] == [Update(visible)] + [Update(done)];
    RunConcat(l0, [Update(visible)], [Update(done)]);
    assert Run(l0, [Update(visible)]) == l1 && Run(l1, [Update(done)]) == l2;
  }
}
