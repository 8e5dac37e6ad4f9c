/** The settlement protocol of one Receipt (policy/execution/boundary.go), as a state machine over the
    atomic steps between its mutex operations. Any number of goroutines may run Record, Reconcile, close
    and authorizeRepeat; others use the shared Coordinator directly. A run is an arbitrary sequence of
    actions, so a lemma about `Exec(init, actions)` speaks of every interleaving. */
module Receipt {
  import opened Wrappers
  import opened Attempt

  type Thread = int

  /** Where a goroutine stands. `Writing`-like points hold the mutex `mu`; from `Finishing` on the goroutine
      holds the `settling` channel instead, and the mutex is free while host callbacks run. */
  datatype Pc =
    | Idle
    | RecordLocked(event: Event)
    | RecordRead(event: Event, previous: Event)
    | RecordWritten(event: Event, previous: Event)
    | ReconcileLocked
    | CloseLocked(notExecuted: bool)
    | CloseRead(event: Event)
    | CloseWritten(event: Event)
    | Settling(event: Event)
    | Finishing(event: Event)
    | InFinish(event: Event)
    | Checking(expected: Event, next: Identity, replay: Replay)
    | Authorizing(expected: Event, next: Identity, replay: Replay)
    | Leaving

  datatype Grant = Grant(ledger: Ledger, expected: Event, next: Identity, replay: Replay,
                         decision: Decision, settlement: Option<Error>)

  datatype State = State(
    ledger: Ledger, id: Identity, hasFinish: bool,
    mu: Option<Thread>, settling: Option<Thread>, closed: bool, err: Option<Error>,
    pcs: map<Thread, Pc>,
    finishes: seq<Event>,    // the events handed to Finish, in call order
    grants: seq<Grant>)      // the successful repeat authorizations, with the ledger at that instant

  /** What the host decides when a goroutine reaches a callback. */
  datatype Answer = Answer(cleanupContext: bool, finish: Option<Error>, start: bool, cancelled: bool)

  datatype Act =
    | Foreign(op: Op)
    | Enter(thread: Thread, entry: Pc)
    | Advance(thread: Thread, answer: Answer)

  function At(s: State, t: Thread): Pc {
    if t in s.pcs then s.pcs[t] else Idle
  }

  predicate HoldsMutex(pc: Pc) {
    pc.RecordLocked? || pc.RecordRead? || pc.RecordWritten? || pc.ReconcileLocked? || pc.CloseLocked?
    || pc.CloseRead? || pc.CloseWritten? || pc.Settling?
  }

  predicate HoldsToken(pc: Pc) {
    pc.Finishing? || pc.InFinish? || pc.Checking? || pc.Authorizing? || pc.Leaving?
  }

  predicate Stored?(s: State) {
    s.id.attempt in s.ledger.events
  }

  function Stored(s: State): Event
    requires Stored?(s)
  {
    s.ledger.events[s.id.attempt]
  }

  function Goto(s: State, t: Thread, pc: Pc): State {
    s.(pcs := s.pcs[t := pc])
  }

  function Unlock(s: State, t: Thread): State {
    Goto(s, t, Idle).(mu := None)
  }

  /** lock / lockAuthorization succeed only while no one settles and the mutex is free. */
  function EnterStep(s: State, t: Thread, entry: Pc): State {
    if At(s, t) != Idle || s.mu.Some? || s.settling.Some? then s
    else match entry
      case RecordLocked(_) => Goto(s, t, entry).(mu := Some(t))
      case ReconcileLocked => Goto(s, t, entry).(mu := Some(t))
      case CloseLocked(_) => Goto(s, t, entry).(mu := Some(t))
      case Checking(_, _, _) => if s.err.Some? then s else Goto(s, t, entry).(settling := Some(t))
      case _ => s
  }

  /** Record, after lock(): identity check, Coordinator.Snapshot, Coordinator.Update, then settle or unlock. */
  function RecordStep(s: State, t: Thread, pc: Pc): State
    requires pc.RecordLocked? || pc.RecordRead? || pc.RecordWritten?
  {
    match pc
    case RecordLocked(event) =>
      if event.identity != s.id || SnapshotOf(s.ledger, s.id).Err? then Unlock(s, t)
      else Goto(s, t, RecordRead(event, SnapshotOf(s.ledger, s.id).value.0))
    case RecordRead(event, previous) =>
      var (ledger, err) := UpdateStep(s.ledger, event);
      if err.Some? then Unlock(s, t) else Goto(s, t, RecordWritten(event, previous)).(ledger := ledger)
    case RecordWritten(event, previous) =>
      if s.closed && previous != event then Goto(s, t, Settling(event)) else Unlock(s, t)
  }

  function ReconcileStep(s: State, t: Thread): State {
    if !s.closed || SnapshotOf(s.ledger, s.id).Err? then Unlock(s, t)
    else Goto(s, t, Settling(SnapshotOf(s.ledger, s.id).value.0))
  }

  /** close, after lock(): Snapshot, force Terminal (and NotExecuted), Update, mark closed, settle. */
  function CloseStep(s: State, t: Thread, pc: Pc): State
    requires pc.CloseLocked? || pc.CloseRead? || pc.CloseWritten?
  {
    match pc
    case CloseLocked(notExecuted) =>
      if s.closed || SnapshotOf(s.ledger, s.id).Err? then Unlock(s, t)
      else
        var event := SnapshotOf(s.ledger, s.id).value.0;
        Goto(s, t, CloseRead(event.(phase := Terminal, outcome := if notExecuted then NotExecuted else event.outcome)))
    case CloseRead(event) =>
      var (ledger, err) := UpdateStep(s.ledger, event);
      if err.Some? then Unlock(s, t) else Goto(s, t, CloseWritten(event)).(ledger := ledger)
    case CloseWritten(event) => Goto(s, t, Settling(event)).(closed := true)
  }

  /** settle publishes the token and releases the mutex; finishSettlement then runs the host's callbacks. */
  function SettleStep(s: State, t: Thread, pc: Pc, answer: Answer): State
    requires pc.Settling? || pc.Finishing? || pc.InFinish?
  {
    match pc
    case Settling(event) =>
      if !s.hasFinish then Unlock(s, t)
      else Goto(s, t, Finishing(event)).(mu := None, settling := Some(t))
    case Finishing(event) =>
      if !answer.cleanupContext then Goto(s, t, Leaving).(err := Some(InvalidBoundary))
      else Goto(s, t, InFinish(event)).(finishes := s.finishes + [event])
    case InFinish(event) => Goto(s, t, Leaving).(err := answer.finish)
  }

  /** authorizeRepeat, holding the token: the clock check outside the mutex, then the compare-and-swap. */
  function RepeatStep(s: State, t: Thread, pc: Pc, answer: Answer): State
    requires pc.Checking? || pc.Authorizing?
  {
    match pc
    case Checking(expected, next, replay) =>
      if !answer.start then Goto(s, t, Leaving) else Goto(s, t, Authorizing(expected, next, replay))
    case Authorizing(expected, next, replay) =>
      var (ledger, r) := AuthorizeStep(s.ledger, expected, next, replay, answer.cancelled);
      Goto(s, t, Leaving).(
        ledger := ledger,
        grants := if Granted(r) then s.grants + [Grant(s.ledger, expected, next, replay, r.value, s.err)] else s.grants)
  }

  function AdvanceStep(s: State, t: Thread, answer: Answer): State {
    var pc := At(s, t);
    if pc.RecordLocked? || pc.RecordRead? || pc.RecordWritten? then RecordStep(s, t, pc)
    else if pc.ReconcileLocked? then ReconcileStep(s, t)
    else if pc.CloseLocked? || pc.CloseRead? || pc.CloseWritten? then CloseStep(s, t, pc)
    else if pc.Settling? || pc.Finishing? || pc.InFinish? then SettleStep(s, t, pc, answer)
    else if pc.Checking? || pc.Authorizing? then RepeatStep(s, t, pc, answer)
    else if pc.Leaving? && s.mu.None? then Goto(s, t, Idle).(settling := None)
    else s
  }

  function Step(s: State, act: Act): State {
    match act
    case Foreign(op) => s.(ledger := Apply(s.ledger, op))
    case Enter(t, entry) => EnterStep(s, t, entry)
    case Advance(t, answer) => AdvanceStep(s, t, answer)
  }

  function Exec(s: State, acts: seq<Act>): State
    decreases |acts|
  {
    if acts == [] then s else Exec(Step(s, acts[0]), acts[1..])
  }

  /** A receipt right after Begin allocated its identity. */
  ghost predicate Initial(s: State) {
    && Attempt.Inv(s.ledger) && s.id.operation == s.ledger.operation && Stored?(s)
    && s.mu.None? && s.settling.None? && !s.closed && s.err.None?
    && s.pcs == map[] && s.finishes == [] && s.grants == []
  }

  // ---------------------------------------------------------------------------------------------
  // The invariant

  ghost predicate Serial(s: State) {
    && (s.mu.Some? ==> s.settling.None? && HoldsMutex(At(s, s.mu.value)))
    && (s.settling.Some? ==> HoldsToken(At(s, s.settling.value)))
    && (forall t :: At(s, t) != Idle ==> s.mu == Some(t) || s.settling == Some(t))
  }

  /** Everything handed to Finish so far is at most `event`. */
  ghost predicate Bounded(s: State, event: Event) {
    forall i :: 0 <= i < |s.finishes| ==> Le(s.finishes[i], event)
  }

  ghost predicate PcFacts(s: State, pc: Pc)
    requires Stored?(s)
  {
    match pc
    case RecordRead(event, _) => event.identity == s.id
    case RecordWritten(event, _) =>
      event.identity == s.id && Le(event, Stored(s)) && Bounded(s, event) && (s.closed ==> event.phase == Terminal)
    case CloseRead(event) => !s.closed && event.identity == s.id && event.phase == Terminal
    case CloseWritten(event) => !s.closed && event.identity == s.id && event.phase == Terminal && Le(event, Stored(s))
    case Settling(event) => s.closed && event.phase == Terminal && Le(event, Stored(s)) && Bounded(s, event)
    case Finishing(event) =>
      s.hasFinish && s.closed && event.phase == Terminal && Le(event, Stored(s)) && Bounded(s, event)
    case InFinish(event) => s.closed && s.finishes != [] && s.finishes[|s.finishes| - 1] == event
    case Checking(_, _, _) => s.err.None?
    case Authorizing(_, _, _) => s.err.None?
    case _ => true
  }

  ghost predicate Chain(events: seq<Event>) {
    && (forall i :: 0 <= i < |events| ==> events[i].phase == Terminal)
    && (forall i, j :: 0 <= i < j < |events| ==> Le(events[i], events[j]))
  }

  /** A grant followed the rules at its instant, with no settlement error outstanding. */
  predicate FollowedRules(g: Grant) {
    RepeatRules(g.ledger, g.expected, g.next, g.replay, g.decision.action) && g.settlement.None?
  }

  ghost predicate Settlement(s: State) {
    && Attempt.Inv(s.ledger) && s.id.operation == s.ledger.operation && Stored?(s)
    && (s.closed ==> Stored(s).phase == Terminal)
    && (s.finishes != [] ==> s.closed && s.hasFinish)
    && Chain(s.finishes) && Bounded(s, Stored(s))
    && (s.mu.Some? ==> PcFacts(s, At(s, s.mu.value)))
    && (s.settling.Some? ==> PcFacts(s, At(s, s.settling.value)))
  }

  ghost predicate GrantsAreSound(s: State) {
    forall i :: 0 <= i < |s.grants| ==> FollowedRules(s.grants[i])
  }

  ghost predicate Protocol(s: State) {
    Serial(s) && Settlement(s) && GrantsAreSound(s)
  }

  /** The lock and the token stay where they are, are given back, or the first is exchanged for the second. */
  predicate Handover(s: State, s': State, t: Thread) {
    var pc := At(s', t);
    && s'.pcs == s.pcs[t := pc]
    && ((s.mu == Some(t) && s'.mu == s.mu && s'.settling == s.settling && HoldsMutex(pc))
        || (s.mu == Some(t) && s'.mu.None? && s'.settling == s.settling && pc.Idle?)
        || (s.mu == Some(t) && s'.mu.None? && s'.settling == Some(t) && HoldsToken(pc))
        || (s.settling == Some(t) && s'.mu == s.mu && s'.settling == s.settling && HoldsToken(pc)))
  }

  lemma HandoverKeepsSerial(s: State, s': State, t: Thread)
    requires Serial(s) && At(s, t) != Idle && Handover(s, s', t)
    ensures Serial(s')
  {
    assert forall u :: u != t ==> At(s', u) == At(s, u);
  }

  /** A write of this receipt's own event: the stored facts become that event and dominate all of Finish's. */
  lemma OwnWrite(s: State, event: Event)
    requires Settlement(s) && event.identity == s.id
    ensures var (after, err) := UpdateStep(s.ledger, event);
      && Attempt.Inv(after) && after.operation == s.ledger.operation && s.id.attempt in after.events
      && (err.Some? ==> after == s.ledger)
      && (err.None? ==> after.events[s.id.attempt] == event && Bounded(s, event) && Le(Stored(s), event)
                        && (s.closed ==> event.phase == Terminal))
  {
    UpdateSafe(s.ledger, event);
  }

  lemma ForeignKeepsProtocol(s: State, op: Op)
    requires Protocol(s)
    ensures Protocol(s.(ledger := Apply(s.ledger, op)))
  {
    var s' := s.(ledger := Apply(s.ledger, op));
    ApplySafe(s.ledger, op);
    assert Le(Stored(s), Stored(s')) && ValidEvent(Stored(s'));
    assert forall u :: At(s', u) == At(s, u);
  }

  lemma EnterKeepsProtocol(s: State, t: Thread, entry: Pc)
    requires Protocol(s)
    ensures Protocol(EnterStep(s, t, entry))
  {
    var s' := EnterStep(s, t, entry);
    assert forall u :: u != t ==> At(s', u) == At(s, u);
  }

  lemma RecordWriteKeepsProtocol(s: State, t: Thread, pc: Pc)
    requires Protocol(s) && pc == At(s, t) && pc.RecordRead?
    ensures Protocol(RecordStep(s, t, pc))
  {
    var s' := RecordStep(s, t, pc);
    OwnWrite(s, pc.event);
    HandoverKeepsSerial(s, s', t);
  }

  lemma RecordReadKeepsProtocol(s: State, t: Thread, pc: Pc)
    requires Protocol(s) && pc == At(s, t) && pc.RecordLocked?
    ensures Protocol(RecordStep(s, t, pc))
  {
    var s' := RecordStep(s, t, pc);
    HandoverKeepsSerial(s, s', t);
  }

  lemma RecordDoneKeepsProtocol(s: State, t: Thread, pc: Pc)
    requires Protocol(s) && pc == At(s, t) && pc.RecordWritten?
    ensures Protocol(RecordStep(s, t, pc))
  {
    var s' := RecordStep(s, t, pc);
    HandoverKeepsSerial(s, s', t);
  }

  lemma ReconcileKeepsProtocol(s: State, t: Thread)
    requires Protocol(s) && At(s, t).ReconcileLocked?
    ensures Protocol(ReconcileStep(s, t))
  {
    var s' := ReconcileStep(s, t);
    HandoverKeepsSerial(s, s', t);
  }

  lemma CloseWriteKeepsProtocol(s: State, t: Thread, pc: Pc)
    requires Protocol(s) && pc == At(s, t) && pc.CloseRead?
    ensures Protocol(CloseStep(s, t, pc))
  {
    var s' := CloseStep(s, t, pc);
    OwnWrite(s, pc.event);
    HandoverKeepsSerial(s, s', t);
  }

  lemma CloseKeepsProtocol(s: State, t: Thread, pc: Pc)
    requires Protocol(s) && pc == At(s, t) && (pc.CloseLocked? || pc.CloseWritten?)
    ensures Protocol(CloseStep(s, t, pc))
  {
    var s' := CloseStep(s, t, pc);
    HandoverKeepsSerial(s, s', t);
  }

  lemma SettleKeepsProtocol(s: State, t: Thread, pc: Pc, answer: Answer)
    requires Protocol(s) && pc == At(s, t)
    requires pc.Settling? || pc.Finishing? || pc.InFinish?
    ensures Protocol(SettleStep(s, t, pc, answer))
  {
    var s' := SettleStep(s, t, pc, answer);
    HandoverKeepsSerial(s, s', t);
  }

  lemma CheckKeepsProtocol(s: State, t: Thread, pc: Pc, answer: Answer)
    requires Protocol(s) && pc == At(s, t) && pc.Checking?
    ensures Protocol(RepeatStep(s, t, pc, answer))
  {
    var s' := RepeatStep(s, t, pc, answer);
    HandoverKeepsSerial(s, s', t);
  }

  lemma SwapKeepsProtocol(s: State, t: Thread, pc: Pc, answer: Answer)
    requires Protocol(s) && pc == At(s, t) && pc.Authorizing?
    ensures Protocol(RepeatStep(s, t, pc, answer))
  {
    var s' := RepeatStep(s, t, pc, answer);
    var (ledger, r) := AuthorizeStep(s.ledger, pc.expected, pc.next, pc.replay, answer.cancelled);
    AuthorizeSafe(s.ledger, pc.expected, pc.next, pc.replay, answer.cancelled);
    assert Le(Stored(s), Stored(s')) && ValidEvent(Stored(s'));
    if Granted(r) {
      AuthorizeExact(s.ledger, pc.expected, pc.next, pc.replay, answer.cancelled);
      assert FollowedRules(Grant(s.ledger, pc.expected, pc.next, pc.replay, r.value, s.err));
    }
    HandoverKeepsSerial(s, s', t);
  }

  lemma AdvanceKeepsProtocol(s: State, t: Thread, answer: Answer)
    requires Protocol(s)
    ensures Protocol(AdvanceStep(s, t, answer))
  {
    var pc := At(s, t);
    if pc.RecordRead? { RecordWriteKeepsProtocol(s, t, pc); }
    else if pc.RecordLocked? { RecordReadKeepsProtocol(s, t, pc); }
    else if pc.RecordWritten? { RecordDoneKeepsProtocol(s, t, pc); }
    else if pc.ReconcileLocked? { ReconcileKeepsProtocol(s, t); }
    else if pc.CloseRead? { CloseWriteKeepsProtocol(s, t, pc); }
    else if pc.CloseLocked? || pc.CloseWritten? { CloseKeepsProtocol(s, t, pc); }
    else if pc.Settling? || pc.Finishing? || pc.InFinish? { SettleKeepsProtocol(s, t, pc, answer); }
    else if pc.Checking? { CheckKeepsProtocol(s, t, pc, answer); }
    else if pc.Authorizing? { SwapKeepsProtocol(s, t, pc, answer); }
    else if pc.Leaving? && s.mu.None? {
      var s' := AdvanceStep(s, t, answer);
      assert forall u :: u != t ==> At(s', u) == At(s, u);
    }
  }

  lemma {:induction false} ExecKeepsProtocol(s: State, acts: seq<Act>)
    requires Protocol(s)
    ensures Protocol(Exec(s, acts))
    decreases |acts|
  {
    if acts != [] {
      match acts[0] {
        case Foreign(op) => ForeignKeepsProtocol(s, op);
        case Enter(t, entry) => EnterKeepsProtocol(s, t, entry);
        case Advance(t, answer) => AdvanceKeepsProtocol(s, t, answer);
      }
      ExecKeepsProtocol(Step(s, acts[0]), acts[1..]);
    }
  }

  // ---------------------------------------------------------------------------------------------
  // What every interleaving guarantees

  predicate InCallback(pc: Pc) {
    pc.InFinish? || pc.Checking? || pc.Authorizing?
  }

  lemma InitialProtocol(s: State)
    requires Initial(s)
    ensures Protocol(s)
  {
    assert forall t :: At(s, t) == Idle;
  }

  /** Finish is never called before close, receives a nondecreasing chain of Terminal events bounded by the
      stored facts, never overlaps itself or an authorization, and every granted repeat met all its rules at
      the instant it was granted, with no settlement error outstanding. Foreign updates may interleave anywhere. */
  lemma EveryInterleavingSettlesSerially(s: State, acts: seq<Act>)
    requires Initial(s)
    ensures var s' := Exec(s, acts);
      && (s'.finishes != [] ==> s'.closed)
      && Chain(s'.finishes)
      && (s.id.attempt in s'.ledger.events
          && forall i :: 0 <= i < |s'.finishes| ==> Le(s'.finishes[i], s'.ledger.events[s.id.attempt]))
      && (forall t, u :: InCallback(At(s', t)) && InCallback(At(s', u)) ==> t == u)
      && (forall i :: 0 <= i < |s'.grants| ==> FollowedRules(s'.grants[i]))
  {
    InitialProtocol(s);
    ExecKeepsProtocol(s, acts);
    ExecExtends(s, acts);
    var s' := Exec(s, acts);
    forall t, u | InCallback(At(s', t)) && InCallback(At(s', u)) ensures t == u {
      assert At(s', t) != Idle && At(s', u) != Idle;
    }
  }

  /** History is never rewritten and a closed receipt stays closed. */
  predicate Extends(s: State, s': State) {
    && s'.id == s.id && s'.hasFinish == s.hasFinish && (s.closed ==> s'.closed)
    && s.finishes <= s'.finishes && s.grants <= s'.grants
  }

  lemma SettleExtends(s: State, t: Thread, pc: Pc, answer: Answer)
    requires pc.Settling? || pc.Finishing? || pc.InFinish?
    ensures Extends(s, SettleStep(s, t, pc, answer))
  {
  }

  lemma RepeatExtends(s: State, t: Thread, pc: Pc, answer: Answer)
    requires pc.Checking? || pc.Authorizing?
    ensures Extends(s, RepeatStep(s, t, pc, answer))
  {
  }

  lemma LockedExtends(s: State, t: Thread, pc: Pc)
    ensures pc.RecordLocked? || pc.RecordRead? || pc.RecordWritten? ==> Extends(s, RecordStep(s, t, pc))
    ensures pc.CloseLocked? || pc.CloseRead? || pc.CloseWritten? ==> Extends(s, CloseStep(s, t, pc))
    ensures Extends(s, ReconcileStep(s, t))
  {
  }

  lemma StepExtends(s: State, act: Act)
    ensures Extends(s, Step(s, act))
  {
    if act.Advance? {
      var pc := At(s, act.thread);
      if pc.Settling? || pc.Finishing? || pc.InFinish? { SettleExtends(s, act.thread, pc, act.answer); }
      else if pc.Checking? || pc.Authorizing? { RepeatExtends(s, act.thread, pc, act.answer); }
      else { LockedExtends(s, act.thread, pc); }
    }
  }

  lemma {:induction false} ExecExtends(s: State, acts: seq<Act>)
    ensures Extends(s, Exec(s, acts))
    decreases |acts|
  {
    if acts != [] {
      StepExtends(s, acts[0]);
      ExecExtends(Step(s, acts[0]), acts[1..]);
    }
  }

  /** The compare-and-swap is the linearization point: it changes the ledger exactly when it logs a grant. */
  lemma DenialChangesNothing(s: State, t: Thread, answer: Answer)
    requires Protocol(s) && At(s, t).Authorizing?
    ensures var s' := AdvanceStep(s, t, answer);
      && (|s'.grants| == |s.grants| ==> s'.ledger == s.ledger)
      && (s'.ledger != s.ledger <==> |s'.grants| == |s.grants| + 1)
      && Remaining(s'.ledger) == Remaining(s.ledger)
  {
    var Authorizing(expected, next, replay) := At(s, t);
    AuthorizeExact(s.ledger, expected, next, replay, answer.cancelled);
  }

  // ---------------------------------------------------------------------------------------------
  // Nothing is lost when the attempt's facts go through its Receipt

  /** No one updates this attempt's event around its receipt. Authorizations of any attempt, this one included, are
      allowed: a repeat is started by the previous attempt's receipt. */
  predicate ThroughReceipt(s: State, act: Act) {
    act.Foreign? && act.op.Update? ==> act.op.event.identity.attempt != s.id.attempt
  }

  predicate Acknowledged(s: State)
    requires Stored?(s)
  {
    s.err.None? ==> s.finishes != [] && s.finishes[|s.finishes| - 1] == Stored(s)
  }

  function Active(s: State): Pc {
    if s.mu.Some? then At(s, s.mu.value) else if s.settling.Some? then At(s, s.settling.value) else Idle
  }

  /** Where the current facts are: already acknowledged, or on their way to Finish. */
  predicate Delivered(s: State)
    requires Stored?(s)
  {
    s.hasFinish ==>
      match Active(s)
      case RecordRead(_, previous) => s.closed ==> previous == Stored(s) && Acknowledged(s)
      case RecordWritten(event, previous) =>
        s.closed ==> Stored(s) == event && (previous == event ==> Acknowledged(s))
      case CloseWritten(event) => Stored(s) == event
      case Settling(event) => Stored(s) == event
      case Finishing(event) => Stored(s) == event
      case InFinish(event) => Stored(s) == event
      case _ => s.closed ==> Acknowledged(s)
  }

  /** Nothing but an update can touch a Terminal attempt; in particular it can no longer be started. */
  lemma TerminalIsLeftAlone(ledger: Ledger, op: Op, key: string)
    requires key in ledger.events && ledger.events[key].phase == Terminal
    requires op.Update? ==> op.event.identity.attempt != key
    ensures key in Apply(ledger, op).events && Apply(ledger, op).events[key] == ledger.events[key]
  {
  }

  lemma ForeignKeepsDelivered(s: State, op: Op)
    requires Protocol(s) && Delivered(s) && ThroughReceipt(s, Foreign(op))
    ensures Stored?(s.(ledger := Apply(s.ledger, op))) && Delivered(s.(ledger := Apply(s.ledger, op)))
  {
    var s' := s.(ledger := Apply(s.ledger, op));
    ApplySafe(s.ledger, op);
    assert Active(s') == Active(s);
    if Stored(s).phase == Terminal {
      TerminalIsLeftAlone(s.ledger, op, s.id.attempt);
      assert Stored(s') == Stored(s) && Acknowledged(s') == Acknowledged(s);
    } else {
      assert !s.closed;
    }
  }

  lemma WriteKeepsDelivered(s: State, t: Thread, answer: Answer)
    requires Protocol(s) && Delivered(s) && (At(s, t).RecordRead? || At(s, t).CloseRead?)
    ensures Stored?(AdvanceStep(s, t, answer)) && Delivered(AdvanceStep(s, t, answer))
  {
    OwnWrite(s, At(s, t).event);
  }

  lemma RecordKeepsDelivered(s: State, t: Thread)
    requires Protocol(s) && Delivered(s) && At(s, t).RecordLocked?
    ensures Stored?(RecordStep(s, t, At(s, t))) && Delivered(RecordStep(s, t, At(s, t)))
  {
    assert Active(s) == At(s, t);
  }

  lemma RecordedKeepsDelivered(s: State, t: Thread)
    requires Protocol(s) && Delivered(s) && At(s, t).RecordWritten?
    ensures Stored?(RecordStep(s, t, At(s, t))) && Delivered(RecordStep(s, t, At(s, t)))
  {
    assert Active(s) == At(s, t);
  }

  lemma ReconcileKeepsDelivered(s: State, t: Thread)
    requires Protocol(s) && Delivered(s) && At(s, t).ReconcileLocked?
    ensures Stored?(ReconcileStep(s, t)) && Delivered(ReconcileStep(s, t))
  {
    assert Active(s) == At(s, t);
  }

  lemma ClosingKeepsDelivered(s: State, t: Thread, answer: Answer)
    requires Protocol(s) && Delivered(s)
    requires At(s, t).CloseLocked? || At(s, t).CloseWritten? || At(s, t).Settling?
    ensures Stored?(AdvanceStep(s, t, answer)) && Delivered(AdvanceStep(s, t, answer))
  {
    assert Active(s) == At(s, t);
  }

  lemma CallbackKeepsDelivered(s: State, t: Thread, answer: Answer)
    requires Protocol(s) && Delivered(s) && HoldsToken(At(s, t)) && !At(s, t).Authorizing?
    ensures Stored?(AdvanceStep(s, t, answer)) && Delivered(AdvanceStep(s, t, answer))
  {
  }

  lemma SwapKeepsDelivered(s: State, t: Thread, answer: Answer)
    requires Protocol(s) && Delivered(s) && At(s, t).Authorizing?
    ensures Stored?(AdvanceStep(s, t, answer)) && Delivered(AdvanceStep(s, t, answer))
  {
    var Authorizing(expected, next, replay) := At(s, t);
    AuthorizeSafe(s.ledger, expected, next, replay, answer.cancelled);
    AuthorizeExact(s.ledger, expected, next, replay, answer.cancelled);
  }

  lemma AdvanceKeepsDelivered(s: State, t: Thread, answer: Answer)
    requires Protocol(s) && Delivered(s)
    ensures Stored?(AdvanceStep(s, t, answer)) && Delivered(AdvanceStep(s, t, answer))
  {
    var pc := At(s, t);
    if pc.Authorizing? { SwapKeepsDelivered(s, t, answer); }
    else if pc.RecordRead? || pc.CloseRead? { WriteKeepsDelivered(s, t, answer); }
    else if pc.CloseLocked? || pc.CloseWritten? || pc.Settling? { ClosingKeepsDelivered(s, t, answer); }
    else if pc.RecordLocked? { RecordKeepsDelivered(s, t); }
    else if pc.RecordWritten? { RecordedKeepsDelivered(s, t); }
    else if pc.ReconcileLocked? { ReconcileKeepsDelivered(s, t); }
    else if HoldsToken(pc) { CallbackKeepsDelivered(s, t, answer); }
  }

  lemma {:induction false} ExecKeepsDelivered(s: State, acts: seq<Act>)
    requires Protocol(s) && Delivered(s)
    requires forall i :: 0 <= i < |acts| ==> ThroughReceipt(s, acts[i])
    ensures Stored?(Exec(s, acts)) && Delivered(Exec(s, acts))
    decreases |acts|
  {
    if acts != [] {
      var s' := Step(s, acts[0]);
      assert ThroughReceipt(s, acts[0]);
      match acts[0] {
        case Foreign(op) => ForeignKeepsProtocol(s, op); ForeignKeepsDelivered(s, op);
        case Enter(t, entry) => EnterKeepsProtocol(s, t, entry); EnterKeepsDelivered(s, t, entry);
        case Advance(t, answer) => AdvanceKeepsProtocol(s, t, answer); AdvanceKeepsDelivered(s, t, answer);
      }
      StepExtends(s, acts[0]);
      ExecKeepsDelivered(s', acts[1..]);
    }
  }

  lemma EnterKeepsDelivered(s: State, t: Thread, entry: Pc)
    requires Protocol(s) && Delivered(s)
    ensures Stored?(EnterStep(s, t, entry)) && Delivered(EnterStep(s, t, entry))
  {
  }

  /** If every fact about the attempt goes through its Receipt, then whenever the receipt is closed, nobody is
      inside it and no settlement error is outstanding, the host's Finish has acknowledged exactly the current facts. */
  lemma QuiescentReceiptIsSettled(s: State, acts: seq<Act>)
    requires Initial(s) && s.hasFinish
    requires forall i :: 0 <= i < |acts| ==> ThroughReceipt(s, acts[i])
    ensures var s' := Exec(s, acts);
      s.id.attempt in s'.ledger.events &&
      (s'.closed && s'.mu.None? && s'.settling.None? && s'.err.None? ==>
         s'.finishes != [] && s'.finishes[|s'.finishes| - 1] == s'.ledger.events[s.id.attempt])
  {
    InitialProtocol(s);
    ExecKeepsDelivered(s, acts);
    ExecExtends(s, acts);
  }

  lemma {:induction false} ExecConcat(s: State, first: seq<Act>, second: seq<Act>)
    ensures Exec(s, first + second) == Exec(Exec(s, first), second)
    decreases |first|
  {
    if first == [] {
      assert first + second == second;
    } else {
      assert (first + second)[1..] == first[1..] + second;
      ExecConcat(Step(s, first[0]), first[1..], second);
    }
  }

  // ---------------------------------------------------------------------------------------------
  // What each operation does when nobody else moves

  function Advances(s: State, t: Thread, a: Answer, n: nat): State
    decreases n
  {
    if n == 0 then s else Advances(AdvanceStep(s, t, a), t, a, n - 1)
  }

  /** One goroutine alone: it enters, and then takes its next n steps; no operation has more than seven. */
  function Alone(t: Thread, entry: Pc, a: Answer, n: nat): seq<Act> {
    [Enter(t, entry)] + seq(n, _ => Advance(t, a))
  }

  lemma {:induction false} ExecAdvances(s: State, t: Thread, a: Answer, n: nat)
    ensures Exec(s, seq(n, _ => Advance(t, a))) == Advances(s, t, a, n)
    decreases n
  {
    var acts: seq<Act> := seq(n, _ => Advance(t, a));
    if n > 0 {
      assert acts[0] == Advance(t, a) && acts[1..] == seq(n - 1, _ => Advance(t, a));
      ExecAdvances(AdvanceStep(s, t, a), t, a, n - 1);
    }
  }

  lemma ExecAlone(s: State, t: Thread, entry: Pc, a: Answer, n: nat)
    ensures Exec(s, Alone(t, entry, a, n)) == Advances(EnterStep(s, t, entry), t, a, n)
  {
    assert Alone(t, entry, a, n)[1..] == seq(n, _ => Advance(t, a));
    ExecAdvances(EnterStep(s, t, entry), t, a, n);
  }

  lemma {:induction false} IdleStays(s: State, t: Thread, a: Answer, n: nat)
    requires At(s, t) == Idle
    ensures Advances(s, t, a, n) == s
    decreases n
  {
    if n > 0 { IdleStays(s, t, a, n - 1); }
  }

  /** Settling `event`: Finish is called with it, and its answer replaces the settlement error; without a context for
      it nothing is called and that is the error; without Finish nothing happens. */
  function Settled(s: State, event: Event, a: Answer): State {
    if !s.hasFinish then s
    else if !a.cleanupContext then s.(err := Some(InvalidBoundary))
    else s.(finishes := s.finishes + [event], err := a.finish)
  }

  ghost predicate Quiet(s: State, t: Thread) {
    s.mu.None? && s.settling.None? && At(s, t) == Idle
  }

  /** The goroutine has left, everything else being as in `done`. */
  function Left(done: State, t: Thread): State {
    done.(mu := None, settling := None, pcs := done.pcs[t := Idle])
  }

  lemma LeavingAlone(s: State, t: Thread, a: Answer, n: nat)
    requires s.mu.None? && At(s, t) == Leaving && n >= 1
    ensures Advances(s, t, a, n) == Left(s, t)
  {
    IdleStays(Left(s, t), t, a, n - 1);
  }

  lemma FinishingAlone(s: State, t: Thread, event: Event, a: Answer, n: nat)
    requires s.mu.None? && s.settling == Some(t) && At(s, t) == Finishing(event) && s.hasFinish && n >= 3
    ensures Advances(s, t, a, n) == Left(Settled(s, event, a), t)
  {
    var s1 := AdvanceStep(s, t, a);
    assert Advances(s, t, a, n) == Advances(s1, t, a, n - 1);
    if !a.cleanupContext {
      LeavingAlone(s1, t, a, n - 1);
      assert s1.pcs[t := Idle] == s.pcs[t := Idle];
    } else {
      var s2 := AdvanceStep(s1, t, a);
      assert Advances(s1, t, a, n - 1) == Advances(s2, t, a, n - 2);
      LeavingAlone(s2, t, a, n - 2);
      assert s2.pcs[t := Idle] == s.pcs[t := Idle];
    }
  }

  lemma SettlesAlone(s: State, t: Thread, event: Event, a: Answer, n: nat)
    requires s.mu == Some(t) && s.settling.None? && At(s, t) == Settling(event) && n >= 4
    ensures Advances(s, t, a, n) == Left(Settled(s, event, a), t)
  {
    var s1 := AdvanceStep(s, t, a);
    if s.hasFinish {
      FinishingAlone(s1, t, event, a, n - 1);
      assert s1.pcs[t := Idle] == s.pcs[t := Idle];
    } else {
      IdleStays(s1, t, a, n - 1);
    }
  }

  ghost predicate Begun(s: State) {
    Attempt.Inv(s.ledger) && s.id.operation == s.ledger.operation && Stored?(s)
  }

  function Written(s: State, event: Event): State {
    s.(ledger := s.ledger.(events := s.ledger.events[s.id.attempt := event]))
  }

  /** Record: an event of this attempt that extends the stored facts is stored; on a closed receipt, facts that
      changed are settled at once. */
  function Recorded(s: State, event: Event, a: Answer): State
    requires Stored?(s)
  {
    if event.identity != s.id || !ValidEvent(event) || !Le(Stored(s), event) then s
    else if s.closed && event != Stored(s) then Settled(Written(s, event), event, a)
    else Written(s, event)
  }

  lemma RecordAlone(s: State, t: Thread, event: Event, a: Answer, n: nat)
    requires Quiet(s, t) && Begun(s) && n >= 7
    ensures Exec(s, Alone(t, RecordLocked(event), a, n)) == Left(Recorded(s, event, a), t)
  {
    ExecAlone(s, t, RecordLocked(event), a, n);
    var s0 := s.(mu := Some(t), pcs := s.pcs[t := RecordLocked(event)]);
    assert EnterStep(s, t, RecordLocked(event)) == s0;
    RecordLockedAlone(s0, t, event, a, n);
    assert Recorded(s0, event, a) == Recorded(s, event, a).(mu := Some(t), pcs := s0.pcs);
    assert s0.pcs[t := Idle] == s.pcs[t := Idle];
  }

  lemma RecordLockedAlone(s: State, t: Thread, event: Event, a: Answer, n: nat)
    requires s.mu == Some(t) && s.settling.None? && At(s, t) == RecordLocked(event) && Begun(s) && n >= 7
    ensures Advances(s, t, a, n) == Left(Recorded(s, event, a), t)
  {
    var s1 := AdvanceStep(s, t, a);
    if event.identity != s.id {
      IdleStays(s1, t, a, n - 1);
    } else {
      UpdateExact(s.ledger, event);
      assert s1 == s.(pcs := s.pcs[t := RecordRead(event, Stored(s))]);
      RecordReadAlone(s1, t, event, Stored(s), a, n - 1);
      assert s1.pcs[t := Idle] == s.pcs[t := Idle];
    }
  }

  lemma RecordReadAlone(s: State, t: Thread, event: Event, previous: Event, a: Answer, n: nat)
    requires s.mu == Some(t) && s.settling.None? && At(s, t) == RecordRead(event, previous) && n >= 6
    ensures
      var (ledger, err) := UpdateStep(s.ledger, event);
      var written := s.(ledger := ledger);
      Advances(s, t, a, n)
      == Left(if err.None? && s.closed && previous != event then Settled(written, event, a) else written, t)
  {
    var (ledger, err) := UpdateStep(s.ledger, event);
    var s1 := AdvanceStep(s, t, a);
    if err.Some? {
      assert ledger == s.ledger;
      IdleStays(s1, t, a, n - 1);
    } else {
      assert s1 == s.(ledger := ledger, pcs := s.pcs[t := RecordWritten(event, previous)]);
      RecordWrittenAlone(s1, t, event, previous, a, n - 1);
      assert s1.pcs[t := Idle] == s.pcs[t := Idle];
    }
  }

  lemma RecordWrittenAlone(s: State, t: Thread, event: Event, previous: Event, a: Answer, n: nat)
    requires s.mu == Some(t) && s.settling.None? && At(s, t) == RecordWritten(event, previous) && n >= 5
    ensures Advances(s, t, a, n) == Left(if s.closed && previous != event then Settled(s, event, a) else s, t)
  {
    var s1 := AdvanceStep(s, t, a);
    if s.closed && previous != event {
      SettlesAlone(s1, t, event, a, n - 1);
      assert s1.pcs[t := Idle] == s.pcs[t := Idle];
    } else {
      IdleStays(s1, t, a, n - 1);
    }
  }

  /** Reconcile: a closed receipt's current facts are settled again, whatever the last settlement answered; an open
      receipt is left alone. */
  function Reconciled(s: State, a: Answer): State
    requires Stored?(s)
  {
    if s.closed then Settled(s, Stored(s), a) else s
  }

  lemma ReconcileAlone(s: State, t: Thread, a: Answer, n: nat)
    requires Quiet(s, t) && Begun(s) && n >= 5
    ensures Exec(s, Alone(t, ReconcileLocked, a, n)) == Left(Reconciled(s, a), t)
  {
    ExecAlone(s, t, ReconcileLocked, a, n);
    var s0 := s.(mu := Some(t), pcs := s.pcs[t := ReconcileLocked]);
    assert EnterStep(s, t, ReconcileLocked) == s0;
    ReconcileLockedAlone(s0, t, a, n);
    assert Reconciled(s0, a) == Reconciled(s, a).(mu := Some(t), pcs := s0.pcs);
    assert s0.pcs[t := Idle] == s.pcs[t := Idle];
  }

  lemma ReconcileLockedAlone(s: State, t: Thread, a: Answer, n: nat)
    requires s.mu == Some(t) && s.settling.None? && At(s, t) == ReconcileLocked && Begun(s) && n >= 5
    ensures Advances(s, t, a, n) == Left(Reconciled(s, a), t)
  {
    var s1 := AdvanceStep(s, t, a);
    if s.closed {
      assert s1 == s.(pcs := s.pcs[t := Settling(Stored(s))]);
      SettlesAlone(s1, t, Stored(s), a, n - 1);
      assert s1.pcs[t := Idle] == s.pcs[t := Idle];
    } else {
      IdleStays(s1, t, a, n - 1);
    }
  }

  /** The facts at the end of an attempt. */
  function EndOf(stored: Event, notExecuted: bool): Event {
    Event(stored.identity, Terminal, stored.committed, if notExecuted then NotExecuted else stored.outcome)
  }

  /** close: the attempt ends, as not executed if so asked, and is settled; a closed receipt is left alone, and so is
      one whose visible or completed output contradicts that end. */
  function Closed(s: State, notExecuted: bool, a: Answer): State
    requires Stored?(s)
  {
    var ended := EndOf(Stored(s), notExecuted);
    if s.closed || (notExecuted && (Stored(s).committed || Stored(s).outcome == Completed)) then s
    else Settled(Written(s, ended).(closed := true), ended, a)
  }

  lemma CloseAlone(s: State, t: Thread, notExecuted: bool, a: Answer, n: nat)
    requires Quiet(s, t) && Begun(s) && n >= 7
    ensures Exec(s, Alone(t, CloseLocked(notExecuted), a, n)) == Left(Closed(s, notExecuted, a), t)
  {
    ExecAlone(s, t, CloseLocked(notExecuted), a, n);
    var s0 := s.(mu := Some(t), pcs := s.pcs[t := CloseLocked(notExecuted)]);
    assert EnterStep(s, t, CloseLocked(notExecuted)) == s0;
    CloseLockedAlone(s0, t, notExecuted, a, n);
    assert Closed(s0, notExecuted, a) == Closed(s, notExecuted, a).(mu := Some(t), pcs := s0.pcs);
    assert s0.pcs[t := Idle] == s.pcs[t := Idle];
  }

  lemma EndIsWritten(s: State, notExecuted: bool)
    requires Begun(s)
    ensures var ended := EndOf(Stored(s), notExecuted); var (ledger, err) := UpdateStep(s.ledger, ended);
      && (err.Some? <==> notExecuted && (Stored(s).committed || Stored(s).outcome == Completed))
      && (err.None? ==> ledger == Written(s, ended).ledger)
  {
    UpdateExact(s.ledger, EndOf(Stored(s), notExecuted));
  }

  lemma CloseLockedAlone(s: State, t: Thread, notExecuted: bool, a: Answer, n: nat)
    requires s.mu == Some(t) && s.settling.None? && At(s, t) == CloseLocked(notExecuted) && Begun(s) && n >= 7
    ensures Advances(s, t, a, n) == Left(Closed(s, notExecuted, a), t)
  {
    var s1 := AdvanceStep(s, t, a);
    CloseReads(s, t, notExecuted, a);
    assert Advances(s, t, a, n) == Advances(s1, t, a, n - 1);
    if s.closed {
      IdleStays(s1, t, a, n - 1);
    } else {
      EndIsWritten(s, notExecuted);
      CloseReadAlone(s1, t, EndOf(Stored(s), notExecuted), a, n - 1);
      assert s1.pcs[t := Idle] == s.pcs[t := Idle];
    }
  }

  lemma CloseReads(s: State, t: Thread, notExecuted: bool, a: Answer)
    requires s.mu == Some(t) && At(s, t) == CloseLocked(notExecuted) && Begun(s)
    ensures AdvanceStep(s, t, a)
         == if s.closed then Unlock(s, t) else Goto(s, t, CloseRead(EndOf(Stored(s), notExecuted)))
  {
  }

  lemma CloseReadAlone(s: State, t: Thread, event: Event, a: Answer, n: nat)
    requires s.mu == Some(t) && s.settling.None? && At(s, t) == CloseRead(event) && n >= 6
    ensures
      var (ledger, err) := UpdateStep(s.ledger, event);
      Advances(s, t, a, n)
      == Left(if err.None? then Settled(s.(ledger := ledger, closed := true), event, a) else s, t)
  {
    var (ledger, err) := UpdateStep(s.ledger, event);
    var s1 := AdvanceStep(s, t, a);
    if err.Some? {
      IdleStays(s1, t, a, n - 1);
    } else {
      var s2 := AdvanceStep(s1, t, a);
      assert Advances(s, t, a, n) == Advances(s1, t, a, n - 1) == Advances(s2, t, a, n - 2);
      SettlesAlone(s2, t, event, a, n - 2);
      assert s2.pcs[t := Idle] == s.pcs[t := Idle];
    }
  }

  /** authorizeRepeat: with the clock's consent the ledger takes the compare-and-swap, and a grant is logged with the
      settlement error at that instant; otherwise nothing happens. */
  function Authorized(s: State, expected: Event, next: Identity, replay: Replay, a: Answer): State {
    var (ledger, r) := AuthorizeStep(s.ledger, expected, next, replay, a.cancelled);
    var grant := if Granted(r) then [Grant(s.ledger, expected, next, replay, r.value, s.err)] else [];
    if a.start then s.(ledger := ledger, grants := s.grants + grant) else s
  }

  /** An outstanding settlement error refuses the authorization before anything else. */
  lemma AuthorizeAlone(s: State, t: Thread, expected: Event, next: Identity, replay: Replay, a: Answer, n: nat)
    requires Quiet(s, t) && n >= 3
    ensures Exec(s, Alone(t, Checking(expected, next, replay), a, n))
         == if s.err.Some? then s else Left(Authorized(s, expected, next, replay, a), t)
  {
    var pc := Checking(expected, next, replay);
    ExecAlone(s, t, pc, a, n);
    if s.err.Some? {
      IdleStays(s, t, a, n);
    } else {
      var s0 := s.(settling := Some(t), pcs := s.pcs[t := pc]);
      assert EnterStep(s, t, pc) == s0;
      CheckingAlone(s0, t, expected, next, replay, a, n);
      SwapFrame(s, s0, expected, next, replay, a);
      assert s0.pcs[t := Idle] == s.pcs[t := Idle];
    }
  }

  lemma SwapFrame(s: State, s': State, expected: Event, next: Identity, replay: Replay, a: Answer)
    requires s' == s.(settling := s'.settling, pcs := s'.pcs)
    ensures Authorized(s', expected, next, replay, a)
         == Authorized(s, expected, next, replay, a).(settling := s'.settling, pcs := s'.pcs)
  {
  }

  lemma CheckingAlone(s: State, t: Thread, expected: Event, next: Identity, replay: Replay, a: Answer, n: nat)
    requires s.mu.None? && s.settling == Some(t) && At(s, t) == Checking(expected, next, replay) && n >= 3
    ensures Advances(s, t, a, n) == Left(Authorized(s, expected, next, replay, a), t)
  {
    var s1 := RepeatStep(s, t, At(s, t), a);
    assert AdvanceStep(s, t, a) == s1;
    assert s1.pcs[t := Idle] == s.pcs[t := Idle];
    if a.start {
      SwapAlone(s1, t, expected, next, replay, a, n - 1);
      SwapFrame(s, s1, expected, next, replay, a);
    } else {
      LeavingAlone(s1, t, a, n - 1);
    }
  }

  lemma SwapAlone(s: State, t: Thread, expected: Event, next: Identity, replay: Replay, a: Answer, n: nat)
    requires s.mu.None? && s.settling == Some(t) && At(s, t) == Authorizing(expected, next, replay) && n >= 2
    requires a.start
    ensures Advances(s, t, a, n) == Left(Authorized(s, expected, next, replay, a), t)
  {
    var s1 := RepeatStep(s, t, At(s, t), a);
    assert AdvanceStep(s, t, a) == s1;
    LeavingAlone(s1, t, a, n - 1);
    assert s1.pcs[t := Idle] == s.pcs[t := Idle];
  }

  lemma FourSteps(s: State, a: Act, b: Act, c: Act, d: Act)
    ensures Exec(s, [a, b, c, d]) == Step(Step(Step(Step(s, a), b), c), d)
  {
    assert [a, b, c, d][1..] == [b, c, d] && [b, c, d][1..] == [c, d] && [c, d][1..] == [d];
    var s1 := Step(s, a);
    var s2 := Step(s1, b);
    var s3 := Step(s2, c);
    assert Exec(s, [a, b, c, d]) == Exec(s1, [b, c, d]) == Exec(s2, [c, d]) == Exec(s3, [d]);
    assert [d][1..] == [] && Exec(s3, [d]) == Exec(Step(s3, d), []);
  }

  const Go := Advance(0, Answer(true, None, true, false))

  /** close alone, up to the point where the receipt is marked closed. */
  lemma CloseMarks(s: State, ended: Event)
    requires Initial(s) && s.hasFinish && ended == Stored(s).(phase := Terminal) && ValidEvent(ended)
    ensures Exec(s, [Enter(0, CloseLocked(false)), Go, Go, Go])
         == s.(ledger := s.ledger.(events := s.ledger.events[s.id.attempt := ended]), closed := true,
               mu := Some(0), pcs := map[0 := Settling(ended)])
  {
    FourSteps(s, Enter(0, CloseLocked(false)), Go, Go, Go);
    var s1 := s.(mu := Some(0), pcs := map[0 := CloseLocked(false)]);
    assert Step(s, Enter(0, CloseLocked(false))) == s1;
    assert Step(s1, Go) == s1.(pcs := map[0 := CloseRead(ended)]);
  }

  lemma FinishBegins(s: State, ended: Event)
    requires s.hasFinish && s.mu == Some(0) && s.settling.None? && s.pcs == map[0 := Settling(ended)]
    ensures Step(Step(s, Go), Go)
         == s.(mu := None, settling := Some(0), pcs := map[0 := InFinish(ended)], finishes := s.finishes + [ended])
  {
    assert Step(s, Go) == s.(mu := None, settling := Some(0), pcs := map[0 := Finishing(ended)]);
  }

  lemma FinishEnds(s: State, ended: Event)
    requires s.mu.None? && s.settling == Some(0) && s.pcs == map[0 := InFinish(ended)]
    ensures Step(Step(s, Go), Go) == s.(settling := None, pcs := map[0 := Idle], err := None)
  {
    assert Step(s, Go) == s.(pcs := map[0 := Leaving], err := None);
  }

  lemma FinishAcknowledges(s: State, ended: Event)
    requires s.hasFinish && s.mu == Some(0) && s.settling.None? && s.pcs == map[0 := Settling(ended)]
    ensures Exec(s, [Go, Go, Go, Go])
         == s.(mu := None, pcs := map[0 := Idle], finishes := s.finishes + [ended], err := None)
  {
    FourSteps(s, Go, Go, Go, Go);
    FinishBegins(s, ended);
    FinishEnds(Step(Step(s, Go), Go), ended);
  }

  /** Without that discipline the guarantee is lost: a Coordinator.Update behind the receipt's back leaves a
      quiet, error-free, closed receipt whose host never saw the current facts. */
  lemma BypassLosesFacts(id: Identity) returns (s: State, acts: seq<Act>)
    requires id.operation != "" && id.attempt != ""
    ensures Initial(s) && s.id == id && s.hasFinish
    ensures var s' := Exec(s, acts);
      && s'.closed && s'.mu.None? && s'.settling.None? && s'.err.None? && s'.finishes != [] && Stored?(s')
      && s'.finishes[|s'.finishes| - 1] != Stored(s')
  {
    var started := Event(id, Dispatched, false, Unknown);
    var ended := Event(id, Terminal, false, Unknown);
    var late := Event(id, Terminal, true, Unknown);
    s := State(Ledger(id.operation, 1, map[id.attempt := started]), id, true, None, None, false, None, map[], [], []);
    var closing := [Enter(0, CloseLocked(false)), Go, Go, Go];
    var settling := [Go, Go, Go, Go];
    var bypass := [Foreign(Update(late))];
    acts := closing + (settling + bypass);
    CloseMarks(s, ended);
    var marked := Exec(s, closing);
    FinishAcknowledges(marked, ended);
    var settled := Exec(marked, settling);
    ExecConcat(s, closing, settling + bypass);
    ExecConcat(marked, settling, bypass);
    assert Exec(settled, bypass) == Step(settled, bypass[0]) by { assert bypass[1..] == []; }
    assert settled.ledger.events[id.attempt] == ended;
  }
}
