/** Racing attempts (policy/execution/race.go). raceControl is a class refining three step functions; the race
    itself is a state machine whose steps are the critical sections and callbacks of the workers, of the
    collector that waits for them, and of the goroutine that drains late results. A run is any sequence of
    steps, so every interleaving of every number of workers is one. */
module Race {
  import opened Wrappers
  import opened Attempt
  import Sequence

  type Failure = Sequence.Failure
  type Plan = Identity
  type LifeId = int

  datatype Profile = CompleteOnly | EarlyOwned

  // ---------------------------------------------------------------------------------------------
  // raceControl

  datatype Control = Control(queue: seq<Plan>, err: Failure, finalized: bool)

  datatype Answer = Refused(err: Failure) | Exhausted | Granted(plan: Plan)

  function NextStep(c: Control, ctxErr: Failure): (Control, Answer) {
    if c.err != {} then (c, Refused(c.err))
    else if c.finalized then (c, Exhausted)
    else if ctxErr != {} then (c, Refused(ctxErr))
    else if c.queue == [] then (c, Exhausted)
    else (c.(queue := c.queue[1..]), Granted(c.queue[0]))
  }

  function ObserveStep(c: Control, err: Failure): Control {
    if Sequence.IsControlError(err) then c.(err := c.err + err) else c
  }

  function FinalizeStep(c: Control): (Control, Failure) {
    if c.err != {} then (c, c.err) else (c.(finalized := true), {})
  }

  class RaceControl {
    var queue: seq<Plan>
    var err: Failure
    var finalized: bool

    function State(): Control
      reads this
    {
      Control(queue, err, finalized)
    }

    constructor (plans: seq<Plan>)
      ensures State() == Control(plans, {}, false)
    {
      queue, err, finalized := plans, {}, false;
    }

    method Next(ctxErr: Failure) returns (answer: Answer)
      modifies this
      ensures (State(), answer) == NextStep(old(State()), ctxErr)
    {
      if err != {} { return Refused(err); }
      if finalized { return Exhausted; }
      if ctxErr != {} { return Refused(ctxErr); }
      if queue == [] { return Exhausted; }
      answer := Granted(queue[0]);
      queue := queue[1..];
    }

    method Observe(failure: Failure)
      modifies this
      ensures State() == ObserveStep(old(State()), failure)
    {
      if !Sequence.IsControlError(failure) { return; }
      err := err + failure;
    }

    method Finalize() returns (failure: Failure)
      modifies this
      ensures (State(), failure) == FinalizeStep(old(State()))
    {
      if err != {} { return err; }
      finalized := true;
      return {};
    }
  }

  // ---------------------------------------------------------------------------------------------
  // accept and checkWinner

  /** What Boundary.Run returned. */
  datatype Ran = Ran(life: Option<LifeId>, started: bool, hasReceipt: bool, stop: bool, hasPayload: bool,
                     runErr: Failure)

  datatype Reading = Reading(event: Event, err: Failure)

  /** Everything accept asks of the outside, in the order it asks. */
  datatype Answers = Answers(first: Reading, ctxBefore: Failure, verdict: bool, verdictErr: Failure,
                             second: Reading, ctxAfter: Failure)

  function Accept(profile: Profile, ran: Ran, a: Answers): (bool, Failure) {
    if ran.runErr != {} || !ran.started || !ran.hasReceipt then (false, ran.runErr)
    else if !ran.stop || !ran.hasPayload then (false, {})
    else if a.first.err != {} then (false, a.first.err)
    else if a.first.event.committed then (false, {InvalidEvent})
    else if profile == CompleteOnly && a.first.event.phase != Terminal then (false, {})
    else if profile == EarlyOwned && (ran.life.None? || a.first.event.phase < StreamOpened) then (false, {})
    else if a.ctxBefore != {} then (false, a.ctxBefore)
    else if a.verdictErr != {} || !a.verdict then (false, a.verdictErr)
    else if a.second.err != {} then (false, a.second.err)
    else if a.second.event.committed then (false, {InvalidEvent})
    else if a.ctxAfter != {} then (false, a.ctxAfter)
    else (true, {})
  }

  /** What a winner owes its caller: nothing visible yet, and either the attempt is over or its stream is owned. */
  predicate Presentable(profile: Profile, life: Option<LifeId>, event: Event) {
    && !event.committed
    && event.phase <= Terminal
    && (profile == CompleteOnly ==> event.phase == Terminal)
    && (profile == EarlyOwned ==> life.Some? && event.phase >= StreamOpened)
  }

  /** The acceptance conditions, without their order: every question answered well, twice where it is asked twice. */
  lemma AcceptsExactly(profile: Profile, ran: Ran, a: Answers)
    ensures Accept(profile, ran, a).0
       <==> && ran.runErr == {} && ran.started && ran.hasReceipt && ran.stop && ran.hasPayload
            && a.first.err == {} && a.second.err == {} && !a.first.event.committed && !a.second.event.committed
            && (profile == CompleteOnly ==> a.first.event.phase == Terminal)
            && (profile == EarlyOwned ==> ran.life.Some? && a.first.event.phase >= StreamOpened)
            && a.ctxBefore == {} && a.ctxAfter == {} && a.verdict && a.verdictErr == {}
  {
  }

  /** The attempt ran and handed over a result worth judging. */
  predicate Delivered(ran: Ran) {
    ran.runErr == {} && ran.started && ran.hasReceipt && ran.stop && ran.hasPayload
  }

  predicate InProfile(profile: Profile, ran: Ran, event: Event) {
    match profile
    case CompleteOnly => event.phase == Terminal
    case EarlyOwned => ran.life.Some? && event.phase >= StreamOpened
  }

  /** One question accept asks: it goes on when the answer is good, and otherwise stops with this error. */
  datatype Question = Question(good: bool, err: Failure)

  /** The questions in the order they are asked; a refusal without an error is not a failure of the attempt. */
  function Questions(profile: Profile, ran: Ran, a: Answers): seq<Question> {
    [Question(Delivered(ran), ran.runErr),
     Question(a.first.err == {}, a.first.err),
     Question(!a.first.event.committed, {InvalidEvent}),
     Question(InProfile(profile, ran, a.first.event), {}),
     Question(a.ctxBefore == {}, a.ctxBefore),
     Question(a.verdictErr == {} && a.verdict, a.verdictErr),
     Question(a.second.err == {}, a.second.err),
     Question(!a.second.event.committed, {InvalidEvent}),
     Question(a.ctxAfter == {}, a.ctxAfter)]
  }

  /** The first question with a bad answer has this error. */
  ghost predicate RejectedFor(profile: Profile, ran: Ran, a: Answers, err: Failure) {
    var q := Questions(profile, ran, a);
    exists k :: 0 <= k < |q| && !q[k].good && q[k].err == err && forall i :: 0 <= i < k ==> q[i].good
  }

  lemma FirstBadAnswer(profile: Profile, ran: Ran, a: Answers, k: nat)
    requires var q := Questions(profile, ran, a); k <= |q| && forall i :: 0 <= i < k ==> q[i].good
    ensures var q := Questions(profile, ran, a);
      && (k == |q| ==> Accept(profile, ran, a) == (true, {}))
      && (k < |q| && !q[k].good ==> Accept(profile, ran, a) == (false, q[k].err))
  {
    var q := Questions(profile, ran, a);
    assert k > 0 ==> q[0].good;
    assert k > 1 ==> q[1].good;
    assert k > 2 ==> q[2].good;
    assert k > 3 ==> q[3].good;
    assert k > 4 ==> q[4].good;
    assert k > 5 ==> q[5].good;
    assert k > 6 ==> q[6].good;
    assert k > 7 ==> q[7].good;
    assert k > 8 ==> q[8].good;
  }

  lemma {:induction false} SomeAnswerIsBad(profile: Profile, ran: Ran, a: Answers, k: nat)
    requires var q := Questions(profile, ran, a); k <= |q| && forall i :: 0 <= i < k ==> q[i].good
    ensures Accept(profile, ran, a) == (true, {}) || RejectedFor(profile, ran, a, Accept(profile, ran, a).1)
    decreases |Questions(profile, ran, a)| - k
  {
    var q := Questions(profile, ran, a);
    FirstBadAnswer(profile, ran, a, k);
    if k < |q| && q[k].good { SomeAnswerIsBad(profile, ran, a, k + 1); }
  }

  /** accept rejects exactly with the error of the first question that has a bad answer. */
  lemma RejectsWithFirstBadAnswer(profile: Profile, ran: Ran, a: Answers, err: Failure)
    ensures Accept(profile, ran, a) == (false, err) <==> RejectedFor(profile, ran, a, err)
  {
    var q := Questions(profile, ran, a);
    if RejectedFor(profile, ran, a, err) {
      var k :| 0 <= k < |q| && !q[k].good && q[k].err == err && forall i :: 0 <= i < k ==> q[i].good;
      FirstBadAnswer(profile, ran, a, k);
    }
    SomeAnswerIsBad(profile, ran, a, 0);
  }

  /** Because an attempt's facts only grow, what accept checks before the host's verdict still holds after it. */
  lemma AcceptedIsPresentable(profile: Profile, ran: Ran, a: Answers)
    requires ValidEvent(a.second.event) && Le(a.first.event, a.second.event)
    requires Accept(profile, ran, a).0
    ensures Presentable(profile, ran.life, a.second.event) && Accept(profile, ran, a).1 == {}
    ensures ran.started && ran.stop && ran.hasPayload && a.verdict
  {
  }

  // ---------------------------------------------------------------------------------------------
  // validate

  /** Plans a race may start from: one named operation, distinct attempts, none of them already allocated. */
  ghost predicate Eligible(ledger: Ledger, plans: seq<Plan>) {
    && (forall i :: 0 <= i < |plans| ==>
          plans[i].operation != "" && plans[i].operation == plans[0].operation && plans[i].attempt != "")
    && (forall i, j :: 0 <= i < j < |plans| ==> plans[i] != plans[j])
    && (forall i :: 0 <= i < |plans| ==> SnapshotOf(ledger, plans[i]).Err?)
  }

  method Validate(ledger: Ledger, workers: int, configured: bool, plans: seq<Plan>) returns (err: Option<Error>)
    ensures err.None? <==> workers >= 1 && configured && plans != [] && Eligible(ledger, plans)
    ensures err == Some(InvalidBoundary) <==> workers < 1 || !configured || plans == []
    ensures err.Some? ==> err.value == InvalidBoundary || err.value == InvalidEvent
  {
    if workers < 1 || !configured || plans == [] { return Some(InvalidBoundary); }
    var seen: set<Plan> := {};
    var operation := plans[0].operation;
    for k := 0 to |plans|
      invariant Eligible(ledger, plans[..k])
      invariant forall p :: p in seen <==> p in plans[..k]
    {
      var plan := plans[k];
      if plan.operation == "" || plan.operation != operation || plan.attempt == "" {
        return Some(InvalidEvent);
      }
      if plan in seen {
        assert plan in plans[..k];
        return Some(InvalidEvent);
      }
      if SnapshotOf(ledger, plan).Ok? { return Some(InvalidEvent); }
      seen := seen + {plan};
      assert plans[..k + 1] == plans[..k] + [plan];
    }
    assert plans[..|plans|] == plans;
    return None;
  }

  // ---------------------------------------------------------------------------------------------
  // The race as a state machine

  /** An accepted attempt on its way to the caller; `event` is the last snapshot that was checked. */
  datatype Won = Won(plan: Plan, life: Option<LifeId>, event: Event)

  datatype Pc =
    | Asking
    | Running(plan: Plan)
    | Judged(plan: Plan, ran: Ran, err: Failure)
    | Approved(won: Won)
    | Sending(won: Won)
    | Closing(plan: Plan, ran: Ran, err: Failure)
    | Accounting(plan: Plan, ran: Ran, err: Failure, closeErr: Failure)
    | Deciding(stop: bool, err: Failure)
    | Aborting(err: Failure)
    | Finished

  datatype Worker = Worker(pc: Pc, failures: Failure)

  datatype Message = Winning(won: Won) | Losing(err: Failure)

  datatype Main =
    | Collecting(received: nat, errors: Failure)
    | Checking(candidate: Option<Won>, err: Failure)
    | Verifying(won: Won)
    | Finalizing(won: Won)
    | Accepted(won: Won)
    | Nothing
    | Failed(err: Failure)

  datatype Mark = Handed(plan: Plan) | Fatal | Finalized

  datatype Entry = Entry(plan: Plan, accepted: bool, err: Failure)

  datatype State = State(
    profile: Profile, control: Control, workers: seq<Worker>, channel: seq<Message>, main: Main,
    journal: seq<Entry>, returned: set<LifeId>, closed: multiset<LifeId>, trace: seq<Mark>)

  /** errors.Is(err, ErrNoSuccessfulOutcome). */
  const NO_SUCCESS: Error := HostError(0)

  function Init(profile: Profile, plans: seq<Plan>, workers: nat): State {
    State(profile, Control(plans, {}, false), seq(workers, _ => Worker(Asking, {})), [], Collecting(0, {}),
          [], {}, multiset{}, [])
  }

  datatype Act =
    | Ask(w: nat, ctxErr: Failure)                      // control.next, and the end of the loop
    | Return(w: nat, ran: Ran, answers: Answers)        // Boundary.Run and accept returned
    | Observe(w: nat)                                   // control.observe(err)
    | Append(w: nat)                                    // journal an accepted attempt
    | Send(w: nat)                                      // the worker returns its winner
    | Close(w: nat, closeErr: Failure)                  // close a rejected result, read its settlement
    | Account(w: nat)                                   // control.observe(closeErr), then the journal
    | Decide(w: nat)                                    // control.failure(): go on or abort
    | Abort(w: nat)                                     // control.failure() again, joined to the worker's error
    | Receive | Cancel(ctxErr: Failure) | Drained       // the collector's select; ctxErr is context's own error
    | CheckFailure | CheckWinner(ctxErr: Failure, reading: Reading) | Finalize
    | Drain                                             // a late result is closed

  function Work(s: State, w: nat, worker: Worker): State
    requires w < |s.workers|
  {
    s.(workers := s.workers[w := worker])
  }

  function ObserveIn(s: State, err: Failure): State {
    s.(control := ObserveStep(s.control, err),
       trace := if Sequence.IsControlError(err) then s.trace + [Fatal] else s.trace)
  }

  function CloseIn(s: State, life: Option<LifeId>): State {
    if life.Some? then s.(closed := s.closed + multiset{life.value}) else s
  }

  function LifeOf(m: Message): Option<LifeId> {
    if m.Winning? then m.won.life else None
  }

  function CandidateLife(candidate: Option<Won>): Option<LifeId> {
    if candidate.Some? then candidate.value.life else None
  }

  function AskStep(s: State, w: nat, ctxErr: Failure): State
    requires w < |s.workers| && s.workers[w].pc == Asking
  {
    var failures := s.workers[w].failures;
    var (control, answer) := NextStep(s.control, ctxErr);
    match answer
    case Refused(err) => Work(s, w, Worker(Finished, failures)).(channel := s.channel + [Losing(err)])
    case Exhausted => Work(s, w, Worker(Finished, failures)).(channel := s.channel + [Losing(failures)])
    case Granted(plan) =>
      Work(s, w, Worker(Running(plan), failures)).(control := control, trace := s.trace + [Handed(plan)])
  }

  /** Results own distinct Lifetimes, and the receipt's snapshots grow. */
  predicate Possible(s: State, ran: Ran, a: Answers) {
    && (ran.life.Some? ==> ran.life.value !in s.returned)
    && ValidEvent(a.second.event) && Le(a.first.event, a.second.event)
  }

  function ReturnStep(s: State, w: nat, ran: Ran, a: Answers): State
    requires w < |s.workers| && s.workers[w].pc.Running? && Possible(s, ran, a)
  {
    var plan := s.workers[w].pc.plan;
    var (accepted, err) := Accept(s.profile, ran, a);
    Work(s, w, Worker(if accepted then Approved(Won(plan, ran.life, a.second.event)) else Judged(plan, ran, err),
                      s.workers[w].failures))
      .(returned := s.returned + (if ran.life.Some? then {ran.life.value} else {}))
  }

  function WorkerStep(s: State, w: nat, act: Act): State
    requires w < |s.workers|
  {
    var failures := s.workers[w].failures;
    match (act, s.workers[w].pc)
    case (Ask(_, ctxErr), Asking) => AskStep(s, w, ctxErr)
    case (Return(_, ran, answers), Running(_)) =>
      if Possible(s, ran, answers) then ReturnStep(s, w, ran, answers) else s
    case (Observe(_), Judged(plan, ran, err)) => Work(ObserveIn(s, err), w, Worker(Closing(plan, ran, err), failures))
    case (Append(_), Approved(won)) =>
      Work(s, w, Worker(Sending(won), failures)).(journal := s.journal + [Entry(won.plan, true, {})])
    case (Send(_), Sending(won)) => Work(s, w, Worker(Finished, failures)).(channel := s.channel + [Winning(won)])
    case (Close(_, closeErr), Closing(plan, ran, err)) =>
      Work(CloseIn(s, ran.life), w, Worker(Accounting(plan, ran, err, closeErr), failures + err + closeErr))
    case (Account(_), Accounting(plan, ran, err, closeErr)) =>
      Work(ObserveIn(s, closeErr), w,
           Worker(Deciding(closeErr != {} || (ran.runErr != {} && !ran.started), err + closeErr), failures))
        .(journal := s.journal + [Entry(plan, false, err + closeErr)])
    case (Decide(_), Deciding(stop, err)) =>
      Work(s, w, Worker(if stop || s.control.err != {} then Aborting(err) else Asking, failures))
    case (Abort(_), Aborting(err)) =>
      Work(s, w, Worker(Finished, failures)).(channel := s.channel + [Losing(err + s.control.err)])
    case _ => s
  }

  function ReceiveStep(s: State): State
    requires s.main.Collecting? && s.channel != []
  {
    var rest := s.(channel := s.channel[1..]);
    match s.channel[0]
    case Winning(won) => rest.(main := Checking(Some(won), {}))
    case Losing(err) => rest.(main := Collecting(s.main.received + 1, s.main.errors + err))
  }

  function MainStep(s: State, act: Act): State {
    match (act, s.main)
    case (Receive, Collecting(_, _)) => if s.channel != [] then ReceiveStep(s) else s
    case (Cancel(ctxErr), Collecting(_, _)) =>
      if ctxErr != {} && NO_SUCCESS !in ctxErr then s.(main := Checking(None, ctxErr)) else s
    case (Drained, Collecting(received, errors)) =>
      if received == |s.workers| then s.(main := Checking(None, if errors == {} then {NO_SUCCESS} else errors)) else s
    case (CheckFailure, Checking(candidate, err)) =>
      if s.control.err != {} then
        CloseIn(s, CandidateLife(candidate)).(main := Failed(s.control.err + err))
      else if candidate.Some? then s.(main := Verifying(candidate.value))
      else s.(main := if NO_SUCCESS in err then Nothing else Failed(err))
    case (CheckWinner(ctxErr, reading), Verifying(won)) =>
      if !ValidEvent(reading.event) || !Le(won.event, reading.event) then s
      else if ctxErr != {} then CloseIn(s, won.life).(main := Failed(ctxErr))
      else if reading.err != {} then CloseIn(s, won.life).(main := Failed(reading.err))
      else if reading.event.committed then CloseIn(s, won.life).(main := Failed({InvalidEvent}))
      else s.(main := Finalizing(won.(event := reading.event)))
    case (Finalize, Finalizing(won)) =>
      var (control, err) := FinalizeStep(s.control);
      if err != {} then CloseIn(s, won.life).(main := Failed(err))
      else s.(control := control, main := Accepted(won), trace := s.trace + [Finalized])
    case (Drain, _) =>
      if s.main.Collecting? || s.channel == [] then s
      else CloseIn(s, LifeOf(s.channel[0])).(channel := s.channel[1..])
    case _ => s
  }

  predicate ByWorker(act: Act) {
    act.Ask? || act.Return? || act.Observe? || act.Append? || act.Send? || act.Close? || act.Account?
    || act.Decide? || act.Abort?
  }

  function Step(s: State, act: Act): State {
    if ByWorker(act) then (if act.w < |s.workers| then WorkerStep(s, act.w, act) else s) else MainStep(s, act)
  }

  function Exec(s: State, acts: seq<Act>): State
    decreases |acts|
  {
    if acts == [] then s else Exec(Step(s, acts[0]), acts[1..])
  }

  // ---------------------------------------------------------------------------------------------
  // Linearization: the control's history

  function HandedIn(trace: seq<Mark>): seq<Plan> {
    if trace == [] then []
    else HandedIn(trace[..|trace| - 1]) + (if trace[|trace| - 1].Handed? then [trace[|trace| - 1].plan] else [])
  }

  /** Nothing is handed out after a fatal error or the finalization, and no race is finalized after a fatal error
      or twice. */
  ghost predicate Linear(trace: seq<Mark>) {
    forall i, j :: 0 <= i < j < |trace| ==> Follows(trace[i], trace[j])
  }

  predicate Follows(earlier: Mark, later: Mark) {
    && (earlier == Fatal || earlier == Finalized ==> !later.Handed?)
    && (earlier == Fatal || earlier == Finalized ==> later != Finalized)
  }

  ghost predicate ControlSound(c: Control, trace: seq<Mark>, accepted: bool, plans: seq<Plan>) {
    && HandedIn(trace) + c.queue == plans
    && (c.err != {} <==> Fatal in trace)
    && (c.finalized <==> Finalized in trace)
    && (accepted <==> c.finalized)
    && Linear(trace)
  }

  ghost predicate TraceSound(s: State, plans: seq<Plan>) {
    ControlSound(s.control, s.trace, s.main.Accepted?, plans)
  }

  lemma TraceGrows(trace: seq<Mark>, mark: Mark)
    requires Linear(trace) && forall i :: 0 <= i < |trace| ==> Follows(trace[i], mark)
    ensures Linear(trace + [mark])
    ensures HandedIn(trace + [mark]) == HandedIn(trace) + (if mark.Handed? then [mark.plan] else [])
    ensures forall m :: m in trace + [mark] <==> m in trace || m == mark
  {
    assert (trace + [mark])[..|trace|] == trace;
  }

  lemma FatalKeepsControl(c: Control, trace: seq<Mark>, accepted: bool, plans: seq<Plan>, err: Failure)
    requires ControlSound(c, trace, accepted, plans) && Sequence.IsControlError(err)
    ensures ControlSound(c.(err := c.err + err), trace + [Fatal], accepted, plans)
  {
    TraceGrows(trace, Fatal);
    assert c.err + err != {};
  }

  lemma GrantKeepsControl(c: Control, trace: seq<Mark>, accepted: bool, plans: seq<Plan>)
    requires ControlSound(c, trace, accepted, plans) && c.err == {} && !c.finalized && c.queue != []
    ensures ControlSound(c.(queue := c.queue[1..]), trace + [Handed(c.queue[0])], accepted, plans)
  {
    TraceGrows(trace, Handed(c.queue[0]));
    assert c.queue == [c.queue[0]] + c.queue[1..];
  }

  lemma FinalizeKeepsControl(c: Control, trace: seq<Mark>, plans: seq<Plan>)
    requires ControlSound(c, trace, false, plans) && c.err == {}
    ensures ControlSound(c.(finalized := true), trace + [Finalized], true, plans)
  {
    TraceGrows(trace, Finalized);
  }

  lemma ObserveKeepsTrace(s: State, plans: seq<Plan>, err: Failure)
    requires TraceSound(s, plans)
    ensures TraceSound(ObserveIn(s, err), plans)
  {
    if Sequence.IsControlError(err) { FatalKeepsControl(s.control, s.trace, s.main.Accepted?, plans, err); }
  }

  lemma AskKeepsTrace(s: State, plans: seq<Plan>, w: nat, ctxErr: Failure)
    requires TraceSound(s, plans) && w < |s.workers| && s.workers[w].pc == Asking
    ensures TraceSound(AskStep(s, w, ctxErr), plans)
  {
    var s' := AskStep(s, w, ctxErr);
    assert s'.main == s.main;
    if NextStep(s.control, ctxErr).1.Granted? {
      GrantKeepsControl(s.control, s.trace, s.main.Accepted?, plans);
      assert s'.control == s.control.(queue := s.control.queue[1..]);
      assert s'.trace == s.trace + [Handed(s.control.queue[0])];
    } else {
      assert s'.control == s.control && s'.trace == s.trace;
    }
  }

  /** What the control and its history look like after a step. */
  ghost predicate Leaves(s: State, s': State) {
    s'.control == s.control && s'.trace == s.trace && s'.main == s.main
  }

  /** Everything a worker does besides asking and observing. */
  predicate Quiet(pc: Pc, act: Act) {
    !(act.Ask? && pc.Asking?) && !(act.Observe? && pc.Judged?) && !(act.Account? && pc.Accounting?)
  }

  lemma QuietLeavesControl(s: State, w: nat, act: Act)
    requires w < |s.workers| && Quiet(s.workers[w].pc, act)
    ensures Leaves(s, WorkerStep(s, w, act))
  {
  }

  lemma ObservingLeavesTheRest(s: State, w: nat, act: Act)
    requires w < |s.workers|
    ensures var pc := s.workers[w].pc;
      && (act.Observe? && pc.Judged? ==> Leaves(ObserveIn(s, pc.err), WorkerStep(s, w, act)))
      && (act.Account? && pc.Accounting? ==> Leaves(ObserveIn(s, pc.closeErr), WorkerStep(s, w, act)))
  {
  }

  lemma LeavingKeepsTrace(s: State, s': State, plans: seq<Plan>)
    requires TraceSound(s, plans) && Leaves(s, s')
    ensures TraceSound(s', plans)
  {
  }

  lemma ObservingKeepsTrace(s: State, plans: seq<Plan>, w: nat, act: Act, err: Failure)
    requires TraceSound(s, plans) && w < |s.workers| && Leaves(ObserveIn(s, err), WorkerStep(s, w, act))
    ensures TraceSound(WorkerStep(s, w, act), plans)
  {
    ObserveKeepsTrace(s, plans, err);
    LeavingKeepsTrace(ObserveIn(s, err), WorkerStep(s, w, act), plans);
  }

  lemma WorkerKeepsTrace(s: State, plans: seq<Plan>, w: nat, act: Act)
    requires TraceSound(s, plans) && w < |s.workers|
    ensures TraceSound(WorkerStep(s, w, act), plans)
  {
    var pc := s.workers[w].pc;
    if Quiet(pc, act) {
      QuietLeavesControl(s, w, act);
      LeavingKeepsTrace(s, WorkerStep(s, w, act), plans);
    } else if act.Ask? {
      AskKeepsTrace(s, plans, w, act.ctxErr);
    } else {
      ObservingLeavesTheRest(s, w, act);
      ObservingKeepsTrace(s, plans, w, act, if act.Observe? then pc.err else pc.closeErr);
    }
  }

  lemma MainKeepsTrace(s: State, plans: seq<Plan>, act: Act)
    requires TraceSound(s, plans)
    ensures TraceSound(MainStep(s, act), plans)
  {
    if act.Finalize? && s.main.Finalizing? && s.control.err == {} {
      FinalizeKeepsControl(s.control, s.trace, plans);
    }
  }

  // ---------------------------------------------------------------------------------------------
  // Conservation: every handed plan and every returned Lifetime is in exactly one place

  datatype Token = PlanToken(plan: Plan) | LifeToken(life: LifeId)

  function One(b: bool): nat {
    if b then 1 else 0
  }

  function Life(life: Option<LifeId>, t: Token): nat {
    One(t.LifeToken? && life == Some(t.life))
  }

  function Holds(pc: Pc, t: Token): nat {
    match pc
    case Running(plan) => One(t == PlanToken(plan))
    case Judged(plan, ran, _) => One(t == PlanToken(plan)) + Life(ran.life, t)
    case Approved(won) => One(t == PlanToken(won.plan)) + Life(won.life, t)
    case Sending(won) => Life(won.life, t)
    case Closing(plan, ran, _) => One(t == PlanToken(plan)) + Life(ran.life, t)
    case Accounting(plan, _, _, _) => One(t == PlanToken(plan))
    case _ => 0
  }

  function InWorkers(workers: seq<Worker>, n: nat, t: Token): nat
    requires n <= |workers|
  {
    if n == 0 then 0 else InWorkers(workers, n - 1, t) + Holds(workers[n - 1].pc, t)
  }

  function InChannel(channel: seq<Message>, n: nat, t: Token): nat
    requires n <= |channel|
  {
    if n == 0 then 0 else InChannel(channel, n - 1, t) + Life(LifeOf(channel[n - 1]), t)
  }

  function InMain(main: Main, t: Token): nat {
    match main
    case Checking(candidate, _) => Life(CandidateLife(candidate), t)
    case Verifying(won) => Life(won.life, t)
    case Finalizing(won) => Life(won.life, t)
    case Accepted(won) => Life(won.life, t)
    case _ => 0
  }

  function InJournal(journal: seq<Entry>, n: nat, t: Token): nat
    requires n <= |journal|
  {
    if n == 0 then 0 else InJournal(journal, n - 1, t) + One(t == PlanToken(journal[n - 1].plan))
  }

  function InTrace(trace: seq<Mark>, n: nat, t: Token): nat
    requires n <= |trace|
  {
    if n == 0 then 0 else InTrace(trace, n - 1, t) + One(t.PlanToken? && trace[n - 1] == Handed(t.plan))
  }

  /** Where a token is now, counted over every place that could own it. */
  function Found(s: State, t: Token): nat {
    InWorkers(s.workers, |s.workers|, t) + InChannel(s.channel, |s.channel|, t) + InMain(s.main, t)
    + InJournal(s.journal, |s.journal|, t) + (if t.LifeToken? then s.closed[t.life] else 0)
  }

  /** How often it entered the race. */
  function Entered(s: State, t: Token): nat {
    InTrace(s.trace, |s.trace|, t) + One(t.LifeToken? && t.life in s.returned)
  }

  lemma {:induction false} WorkerChanges(workers: seq<Worker>, n: nat, w: nat, worker: Worker, t: Token)
    requires w < |workers| && n <= |workers|
    ensures var was, now := InWorkers(workers, n, t), InWorkers(workers[w := worker], n, t);
      if w < n then now + Holds(workers[w].pc, t) == was + Holds(worker.pc, t) else now == was
  {
    if n > 0 { WorkerChanges(workers, n - 1, w, worker, t); }
  }

  lemma {:induction false} ChannelPrefix(channel: seq<Message>, m: Message, n: nat, t: Token)
    requires n <= |channel|
    ensures InChannel(channel + [m], n, t) == InChannel(channel, n, t)
  {
    if n > 0 { ChannelPrefix(channel, m, n - 1, t); }
  }

  lemma ChannelAppend(channel: seq<Message>, m: Message, t: Token)
    ensures InChannel(channel + [m], |channel| + 1, t) == InChannel(channel, |channel|, t) + Life(LifeOf(m), t)
  {
    ChannelPrefix(channel, m, |channel|, t);
  }

  lemma {:induction false} ChannelTail(channel: seq<Message>, n: nat, t: Token)
    requires 1 <= n <= |channel|
    ensures InChannel(channel, n, t) == Life(LifeOf(channel[0]), t) + InChannel(channel[1..], n - 1, t)
  {
    if n > 1 { ChannelTail(channel, n - 1, t); }
  }

  lemma {:induction false} JournalPrefix(journal: seq<Entry>, e: Entry, n: nat, t: Token)
    requires n <= |journal|
    ensures InJournal(journal + [e], n, t) == InJournal(journal, n, t)
  {
    if n > 0 { JournalPrefix(journal, e, n - 1, t); }
  }

  lemma JournalAppend(journal: seq<Entry>, e: Entry, t: Token)
    ensures InJournal(journal + [e], |journal| + 1, t)
         == InJournal(journal, |journal|, t) + One(t == PlanToken(e.plan))
  {
    JournalPrefix(journal, e, |journal|, t);
  }

  lemma {:induction false} TracePrefix(trace: seq<Mark>, mark: Mark, n: nat, t: Token)
    requires n <= |trace|
    ensures InTrace(trace + [mark], n, t) == InTrace(trace, n, t)
  {
    if n > 0 { TracePrefix(trace, mark, n - 1, t); }
  }

  lemma TraceAppend(trace: seq<Mark>, mark: Mark, t: Token)
    ensures InTrace(trace + [mark], |trace| + 1, t)
         == InTrace(trace, |trace|, t) + One(t.PlanToken? && mark == Handed(t.plan))
  {
    TracePrefix(trace, mark, |trace|, t);
  }

  lemma ObserveKeepsBalance(s: State, err: Failure, t: Token)
    ensures Found(ObserveIn(s, err), t) == Found(s, t) && Entered(ObserveIn(s, err), t) == Entered(s, t)
  {
    TraceAppend(s.trace, Fatal, t);
  }

  lemma AskKeepsBalance(s: State, w: nat, ctxErr: Failure, t: Token)
    requires w < |s.workers| && s.workers[w].pc == Asking
    ensures Kept(s, AskStep(s, w, ctxErr), t)
  {
    var (_, answer) := NextStep(s.control, ctxErr);
    var s' := AskStep(s, w, ctxErr);
    WorkerChanges(s.workers, |s.workers|, w, s'.workers[w], t);
    if answer.Granted? {
      TraceAppend(s.trace, Handed(answer.plan), t);
    } else {
      ChannelAppend(s.channel, s'.channel[|s.channel|], t);
    }
  }

  lemma ReturnKeepsBalance(s: State, w: nat, ran: Ran, a: Answers, t: Token)
    requires w < |s.workers| && s.workers[w].pc.Running? && Possible(s, ran, a)
    ensures Kept(s, ReturnStep(s, w, ran, a), t)
  {
    WorkerChanges(s.workers, |s.workers|, w, ReturnStep(s, w, ran, a).workers[w], t);
  }

  ghost predicate Kept(s: State, s': State, t: Token) {
    Found(s', t) - Entered(s', t) == Found(s, t) - Entered(s, t)
  }

  lemma CloseInCounts(s: State, life: Option<LifeId>, t: Token)
    ensures Found(CloseIn(s, life), t) == Found(s, t) + Life(life, t) && Entered(CloseIn(s, life), t) == Entered(s, t)
  {
  }

  lemma WorkCounts(s: State, w: nat, worker: Worker, t: Token)
    requires w < |s.workers|
    ensures Found(Work(s, w, worker), t) + Holds(s.workers[w].pc, t) == Found(s, t) + Holds(worker.pc, t)
    ensures Entered(Work(s, w, worker), t) == Entered(s, t)
  {
    WorkerChanges(s.workers, |s.workers|, w, worker, t);
  }

  lemma MainCounts(s: State, main: Main, t: Token)
    ensures Found(s.(main := main), t) + InMain(s.main, t) == Found(s, t) + InMain(main, t)
    ensures Entered(s.(main := main), t) == Entered(s, t)
  {
  }

  lemma ObserveBalance(s: State, w: nat, t: Token)
    requires w < |s.workers| && s.workers[w].pc.Judged?
    ensures Kept(s, WorkerStep(s, w, Observe(w)), t)
  {
    var pc := s.workers[w].pc;
    ObserveKeepsBalance(s, pc.err, t);
    WorkCounts(ObserveIn(s, pc.err), w, Worker(Closing(pc.plan, pc.ran, pc.err), s.workers[w].failures), t);
  }

  lemma AppendBalance(s: State, w: nat, t: Token)
    requires w < |s.workers| && s.workers[w].pc.Approved?
    ensures Kept(s, WorkerStep(s, w, Append(w)), t)
  {
    WorkCounts(s, w, Worker(Sending(s.workers[w].pc.won), s.workers[w].failures), t);
    JournalAppend(s.journal, Entry(s.workers[w].pc.won.plan, true, {}), t);
  }

  lemma SendBalance(s: State, w: nat, t: Token)
    requires w < |s.workers| && s.workers[w].pc.Sending?
    ensures Kept(s, WorkerStep(s, w, Send(w)), t)
  {
    WorkCounts(s, w, Worker(Finished, s.workers[w].failures), t);
    ChannelAppend(s.channel, Winning(s.workers[w].pc.won), t);
  }

  lemma CloseBalance(s: State, w: nat, closeErr: Failure, t: Token)
    requires w < |s.workers| && s.workers[w].pc.Closing?
    ensures Kept(s, WorkerStep(s, w, Close(w, closeErr)), t)
  {
    var pc := s.workers[w].pc;
    CloseInCounts(s, pc.ran.life, t);
    WorkCounts(CloseIn(s, pc.ran.life), w,
               Worker(Accounting(pc.plan, pc.ran, pc.err, closeErr), s.workers[w].failures + pc.err + closeErr), t);
  }

  lemma AccountBalance(s: State, w: nat, t: Token)
    requires w < |s.workers| && s.workers[w].pc.Accounting?
    ensures Kept(s, WorkerStep(s, w, Account(w)), t)
  {
    var pc := s.workers[w].pc;
    ObserveKeepsBalance(s, pc.closeErr, t);
    WorkCounts(ObserveIn(s, pc.closeErr), w, WorkerStep(s, w, Account(w)).workers[w], t);
    JournalAppend(s.journal, Entry(pc.plan, false, pc.err + pc.closeErr), t);
  }

  lemma AbortBalance(s: State, w: nat, t: Token)
    requires w < |s.workers| && s.workers[w].pc.Aborting?
    ensures Kept(s, WorkerStep(s, w, Abort(w)), t)
  {
    WorkCounts(s, w, Worker(Finished, s.workers[w].failures), t);
    ChannelAppend(s.channel, Losing(s.workers[w].pc.err + s.control.err), t);
  }

  lemma DecideBalance(s: State, w: nat, t: Token)
    requires w < |s.workers| && s.workers[w].pc.Deciding?
    ensures Kept(s, WorkerStep(s, w, Act.Decide(w)), t)
  {
    WorkCounts(s, w, WorkerStep(s, w, Act.Decide(w)).workers[w], t);
  }

  lemma WorkerKeepsBalance(s: State, w: nat, act: Act, t: Token)
    requires w < |s.workers| && ByWorker(act) && act.w == w
    ensures Kept(s, WorkerStep(s, w, act), t)
  {
    var pc := s.workers[w].pc;
    match act
    case Ask(_, ctxErr) => if pc.Asking? { AskKeepsBalance(s, w, ctxErr, t); }
    case Return(_, ran, a) => if pc.Running? && Possible(s, ran, a) { ReturnKeepsBalance(s, w, ran, a, t); }
    case Observe(_) => if pc.Judged? { ObserveBalance(s, w, t); }
    case Append(_) => if pc.Approved? { AppendBalance(s, w, t); }
    case Send(_) => if pc.Sending? { SendBalance(s, w, t); }
    case Close(_, closeErr) => if pc.Closing? { CloseBalance(s, w, closeErr, t); }
    case Account(_) => if pc.Accounting? { AccountBalance(s, w, t); }
    case Decide(_) => if pc.Deciding? { DecideBalance(s, w, t); }
    case Abort(_) => if pc.Aborting? { AbortBalance(s, w, t); }
  }

  lemma ReceivingKeepsBalance(s: State, t: Token)
    ensures Kept(s, MainStep(s, Receive), t)
  {
    if s.main.Collecting? && s.channel != [] { ChannelTail(s.channel, |s.channel|, t); }
  }

  lemma DrainingKeepsBalance(s: State, t: Token)
    ensures Kept(s, MainStep(s, Drain), t)
  {
    if !s.main.Collecting? && s.channel != [] {
      CloseInCounts(s, LifeOf(s.channel[0]), t);
      ChannelTail(s.channel, |s.channel|, t);
    }
  }

  /** Giving up closes exactly what the main goroutine holds. */
  lemma FailingKeepsBalance(s: State, life: Option<LifeId>, err: Failure, t: Token)
    requires InMain(s.main, t) == Life(life, t)
    ensures Kept(s, CloseIn(s, life).(main := Failed(err)), t)
  {
    CloseInCounts(s, life, t);
    MainCounts(CloseIn(s, life), Failed(err), t);
  }

  lemma FailureKeepsBalance(s: State, t: Token)
    ensures Kept(s, MainStep(s, CheckFailure), t)
  {
    if s.main.Checking? {
      var life, main := CandidateLife(s.main.candidate), MainStep(s, CheckFailure).main;
      if s.control.err != {} { FailingKeepsBalance(s, life, main.err, t); } else { MainCounts(s, main, t); }
    }
  }

  lemma VerifyingKeepsBalance(s: State, act: Act, t: Token)
    requires act.CheckWinner?
    ensures Kept(s, MainStep(s, act), t)
  {
    var main := MainStep(s, act).main;
    if s.main.Verifying? {
      if main.Failed? { FailingKeepsBalance(s, s.main.won.life, main.err, t); } else { MainCounts(s, main, t); }
    }
  }

  lemma FinalizingKeepsBalance(s: State, t: Token)
    ensures Kept(s, MainStep(s, Finalize), t)
  {
    if s.main.Finalizing? {
      if s.control.err != {} {
        FailingKeepsBalance(s, s.main.won.life, s.control.err, t);
      } else {
        TraceAppend(s.trace, Finalized, t);
        MainCounts(s, Accepted(s.main.won), t);
      }
    }
  }

  lemma MainKeepsBalance(s: State, act: Act, t: Token)
    requires !ByWorker(act)
    ensures Kept(s, MainStep(s, act), t)
  {
    match act
    case CheckFailure => FailureKeepsBalance(s, t);
    case CheckWinner(_, _) => VerifyingKeepsBalance(s, act, t);
    case Finalize => FinalizingKeepsBalance(s, t);
    case Cancel(_) =>
    case Drained =>
    case Receive => ReceivingKeepsBalance(s, t);
    case Drain => DrainingKeepsBalance(s, t);
  }

  // ---------------------------------------------------------------------------------------------
  // What a winner carries

  predicate PcPresentable(profile: Profile, pc: Pc) {
    pc.Approved? || pc.Sending? ==> Presentable(profile, pc.won.life, pc.won.event)
  }

  predicate MainPresentable(profile: Profile, main: Main) {
    && (main.Checking? && main.candidate.Some? ==>
          Presentable(profile, main.candidate.value.life, main.candidate.value.event))
    && (main.Verifying? || main.Finalizing? || main.Accepted? ==> Presentable(profile, main.won.life, main.won.event))
  }

  ghost predicate AllPresentable(s: State) {
    && (forall w :: 0 <= w < |s.workers| ==> PcPresentable(s.profile, s.workers[w].pc))
    && (forall m :: 0 <= m < |s.channel| && s.channel[m].Winning? ==>
          Presentable(s.profile, s.channel[m].won.life, s.channel[m].won.event))
    && MainPresentable(s.profile, s.main)
  }

  lemma WorkerKeepsPresentable(s: State, w: nat, act: Act)
    requires w < |s.workers| && AllPresentable(s)
    ensures AllPresentable(WorkerStep(s, w, act)) && WorkerStep(s, w, act).profile == s.profile
  {
    if act.Return? && s.workers[w].pc.Running? && Possible(s, act.ran, act.answers)
       && Accept(s.profile, act.ran, act.answers).0 {
      AcceptedIsPresentable(s.profile, act.ran, act.answers);
    }
  }

  lemma MainKeepsPresentable(s: State, act: Act)
    requires AllPresentable(s)
    ensures AllPresentable(MainStep(s, act)) && MainStep(s, act).profile == s.profile
  {
  }

  // ---------------------------------------------------------------------------------------------
  // No contract error goes unobserved

  predicate PcObserved(pc: Pc, fatal: Failure) {
    (pc.Closing? || pc.Accounting?) && Sequence.IsControlError(pc.err) ==> fatal != {}
  }

  ghost predicate Observed(s: State) {
    && (forall w :: 0 <= w < |s.workers| ==> PcObserved(s.workers[w].pc, s.control.err))
    && (forall i :: 0 <= i < |s.journal| && Sequence.IsControlError(s.journal[i].err) ==> s.control.err != {})
  }

  lemma ObserveGrows(s: State, err: Failure)
    requires Observed(s)
    ensures Observed(ObserveIn(s, err)) && (Sequence.IsControlError(err) ==> ObserveIn(s, err).control.err != {})
  {
    if Sequence.IsControlError(err) { assert s.control.err + err != {}; }
  }

  lemma AccountKeepsObserved(s: State, w: nat)
    requires w < |s.workers| && s.workers[w].pc.Accounting? && Observed(s)
    ensures Observed(WorkerStep(s, w, Account(w)))
  {
    var pc := s.workers[w].pc;
    var observed := ObserveIn(s, pc.closeErr);
    ObserveGrows(s, pc.closeErr);
    assert PcObserved(pc, observed.control.err);
    assert Sequence.IsControlError(pc.err + pc.closeErr) ==> observed.control.err != {};
  }

  lemma WorkerKeepsObserved(s: State, w: nat, act: Act)
    requires w < |s.workers| && Observed(s) && ByWorker(act) && act.w == w
    ensures Observed(WorkerStep(s, w, act))
  {
    var pc := s.workers[w].pc;
    if act.Account? && pc.Accounting? {
      AccountKeepsObserved(s, w);
    } else if act.Observe? && pc.Judged? {
      ObserveGrows(s, pc.err);
    } else if act.Close? && pc.Closing? {
      assert PcObserved(pc, s.control.err);
    }
  }

  lemma MainKeepsObserved(s: State, act: Act)
    requires Observed(s)
    ensures Observed(MainStep(s, act))
  {
  }

  // ---------------------------------------------------------------------------------------------
  // Whole runs

  ghost predicate Balanced(s: State) {
    forall t: Token :: Found(s, t) == Entered(s, t)
  }

  ghost predicate Inv(s: State, plans: seq<Plan>) {
    TraceSound(s, plans) && Balanced(s) && AllPresentable(s) && Observed(s)
  }

  lemma StepKeeps(s: State, plans: seq<Plan>, act: Act)
    requires Inv(s, plans)
    ensures Inv(Step(s, act), plans) && Step(s, act).profile == s.profile
  {
    if ByWorker(act) && act.w < |s.workers| {
      WorkerKeepsTrace(s, plans, act.w, act);
      WorkerKeepsPresentable(s, act.w, act);
      WorkerKeepsObserved(s, act.w, act);
      forall t: Token ensures Found(WorkerStep(s, act.w, act), t) == Entered(WorkerStep(s, act.w, act), t) {
        WorkerKeepsBalance(s, act.w, act, t);
      }
    } else if !ByWorker(act) {
      MainKeepsTrace(s, plans, act);
      MainKeepsPresentable(s, act);
      MainKeepsObserved(s, act);
      forall t: Token ensures Found(MainStep(s, act), t) == Entered(MainStep(s, act), t) {
        MainKeepsBalance(s, act, t);
      }
    }
  }

  lemma {:induction false} ExecKeeps(s: State, plans: seq<Plan>, acts: seq<Act>)
    requires Inv(s, plans)
    ensures Inv(Exec(s, acts), plans) && Exec(s, acts).profile == s.profile
    decreases |acts|
  {
    if acts != [] {
      StepKeeps(s, plans, acts[0]);
      ExecKeeps(Step(s, acts[0]), plans, acts[1..]);
    }
  }

  lemma {:induction false} NobodyHolds(workers: seq<Worker>, n: nat, t: Token)
    requires n <= |workers| && forall w :: 0 <= w < n ==> workers[w].pc == Asking || workers[w].pc == Finished
    ensures InWorkers(workers, n, t) == 0
  {
    if n > 0 { NobodyHolds(workers, n - 1, t); }
  }

  lemma InitHolds(profile: Profile, plans: seq<Plan>, workers: nat)
    ensures Inv(Init(profile, plans, workers), plans)
  {
    var s := Init(profile, plans, workers);
    forall t: Token ensures Found(s, t) == Entered(s, t) {
      NobodyHolds(s.workers, |s.workers|, t);
    }
  }

  // ---------------------------------------------------------------------------------------------
  // What an error reported to a worker does to the rest of the run

  lemma {:induction false} ExecAppend(s: State, a: seq<Act>, b: seq<Act>)
    ensures Exec(s, a + b) == Exec(Exec(s, a), b)
    decreases |a|
  {
    if a == [] {
      assert a + b == b;
    } else {
      assert (a + b)[1..] == a[1..] + b;
      ExecAppend(Step(s, a[0]), a[1..], b);
    }
  }

  lemma StepExtendsTrace(s: State, act: Act)
    ensures s.trace <= Step(s, act).trace
  {
  }

  lemma {:induction false} ExecExtendsTrace(s: State, acts: seq<Act>)
    ensures s.trace <= Exec(s, acts).trace
    decreases |acts|
  {
    if acts != [] {
      StepExtendsTrace(s, acts[0]);
      ExecExtendsTrace(Step(s, acts[0]), acts[1..]);
    }
  }

  /** A worker that holds a contract error it has still to tell the control about. */
  predicate Owes(pc: Pc, act: Act) {
    || (pc.Judged? && act.Observe? && Sequence.IsControlError(pc.err))
    || (pc.Accounting? && act.Account? && Sequence.IsControlError(pc.closeErr))
  }

  lemma PayingStep(s: State, w: nat, due: Act)
    requires w < |s.workers| && Owes(s.workers[w].pc, due) && due.w == w
    ensures Fatal in Step(s, due).trace
  {
    var err := if due.Observe? then s.workers[w].pc.err else s.workers[w].pc.closeErr;
    assert ObserveIn(s, err).trace == s.trace + [Fatal];
  }

  lemma OwingStep(s: State, w: nat, due: Act, act: Act)
    requires w < |s.workers| && Owes(s.workers[w].pc, due) && due.w == w && act != due
    ensures |Step(s, act).workers| == |s.workers| && Step(s, act).workers[w].pc == s.workers[w].pc
  {
    if ByWorker(act) && act.w < |s.workers| && act.w != w { OnlyItself(s, act.w, act, w); }
  }

  /** A worker's step leaves the other workers where they are. */
  lemma OnlyItself(s: State, w: nat, act: Act, v: nat)
    requires w < |s.workers| && v < |s.workers| && v != w
    ensures |WorkerStep(s, w, act).workers| == |s.workers| && WorkerStep(s, w, act).workers[v] == s.workers[v]
  {
  }

  lemma {:induction false} OwedIsPaid(s: State, w: nat, due: Act, acts: seq<Act>)
    requires w < |s.workers| && Owes(s.workers[w].pc, due) && due.w == w && due in acts
    ensures Fatal in Exec(s, acts).trace
    decreases |acts|
  {
    if acts[0] == due {
      PayingStep(s, w, due);
      ExecExtendsTrace(Step(s, acts[0]), acts[1..]);
    } else {
      OwingStep(s, w, due, acts[0]);
      OwedIsPaid(Step(s, acts[0]), w, due, acts[1..]);
    }
  }

  lemma {:induction false} NothingMoreHanded(trace: seq<Mark>, more: seq<Mark>)
    requires Linear(trace + more) && Fatal in trace
    ensures HandedIn(trace + more) == HandedIn(trace)
    ensures Finalized in trace + more <==> Finalized in trace
    decreases |more|
  {
    var all := trace + more;
    if more == [] {
      assert all == trace;
    } else {
      var front := more[..|more| - 1];
      assert all[..|all| - 1] == trace + front;
      var i :| 0 <= i < |trace| && trace[i] == Fatal;
      assert all[i] == Fatal && Follows(all[i], all[|all| - 1]);
      assert forall i, j :: 0 <= i < j < |trace + front| ==>
        (trace + front)[i] == all[i] && (trace + front)[j] == all[j];
      NothingMoreHanded(trace, front);
      assert all == trace + front + [all[|all| - 1]];
    }
  }

  /** `act` tells worker w of a contract error: its attempt is rejected for one, or closing a rejected result
      reports one. */
  ghost predicate ReportsControlError(s: State, w: nat, act: Act) {
    && w < |s.workers|
    && match act
       case Return(v, ran, a) =>
         && v == w && s.workers[w].pc.Running? && Possible(s, ran, a)
         && exists err :: RejectedFor(s.profile, ran, a, err) && Sequence.IsControlError(err)
       case Close(v, closeErr) => v == w && s.workers[w].pc.Closing? && Sequence.IsControlError(closeErr)
       case _ => false
  }

  /** The step at which the worker passes the error on. */
  function Due(act: Act): Act
    requires act.Return? || act.Close?
  {
    if act.Return? then Observe(act.w) else Account(act.w)
  }

  lemma FailedRunIsRejected(profile: Profile, ran: Ran, a: Answers)
    requires ran.runErr != {}
    ensures RejectedFor(profile, ran, a, ran.runErr)
  {
    var q := Questions(profile, ran, a);
    assert !q[0].good && q[0].err == ran.runErr;
  }

  lemma ReportingOwes(s: State, w: nat, act: Act)
    requires ReportsControlError(s, w, act)
    ensures var s' := Step(s, act); |s'.workers| == |s.workers| && Owes(s'.workers[w].pc, Due(act))
  {
    if act.Return? {
      var err :| RejectedFor(s.profile, act.ran, act.answers, err) && Sequence.IsControlError(err);
      RejectsWithFirstBadAnswer(s.profile, act.ran, act.answers, err);
    }
  }

  /** The same plans are left, and the race is accepted in both or in neither. */
  ghost predicate Over(s: State, s': State) {
    && HandedIn(s'.trace) == HandedIn(s.trace)
    && s'.control.queue == s.control.queue
    && (s'.main.Accepted? <==> s.main.Accepted?)
  }

  lemma FatalIsFinal(s: State, plans: seq<Plan>, after: seq<Act>)
    requires Inv(s, plans) && Fatal in s.trace
    ensures Over(s, Exec(s, after))
  {
    var later := Exec(s, after);
    ExecKeeps(s, plans, after);
    ExecExtendsTrace(s, after);
    var more := later.trace[|s.trace|..];
    assert later.trace == s.trace + more;
    NothingMoreHanded(s.trace, more);
    assert HandedIn(s.trace) + s.control.queue == plans == HandedIn(later.trace) + later.control.queue;
    QueueIsTheRest(HandedIn(s.trace), s.control.queue, later.control.queue);
  }

  lemma QueueIsTheRest(handed: seq<Plan>, a: seq<Plan>, b: seq<Plan>)
    requires handed + a == handed + b
    ensures a == b
  {
    assert a == (handed + a)[|handed|..];
    assert b == (handed + b)[|handed|..];
  }

  /** A contract error for which a worker rejects its attempt (such as its Boundary run's own), or that closing the
      rejected result reports, ends the race: once that worker has passed it on, whatever happens before, between and
      after, no further plan is handed out, and a race that was not finalized by then never is. */
  lemma ControlErrorEndsTheRace(profile: Profile, plans: seq<Plan>, workers: nat, before: seq<Act>, act: Act,
                                between: seq<Act>, after: seq<Act>)
    requires ByWorker(act) && ReportsControlError(Exec(Init(profile, plans, workers), before), act.w, act)
    requires Due(act) in between
    ensures var observed := Exec(Init(profile, plans, workers), before + [act] + between);
      Fatal in observed.trace && Over(observed, Exec(Init(profile, plans, workers), before + [act] + between + after))
  {
    var init := Init(profile, plans, workers);
    var s := Exec(init, before);
    InitHolds(profile, plans, workers);
    ExecKeeps(init, plans, before + [act] + between);
    ExecAppend(init, before, [act]);
    ExecAppend(init, before + [act], between);
    ExecAppend(init, before + [act] + between, after);
    ExecOne(s, act);
    ReportingOwes(s, act.w, act);
    OwedIsPaid(Step(s, act), act.w, Due(act), between);
    FatalIsFinal(Exec(Step(s, act), between), plans, after);
  }

  lemma ExecOne(s: State, act: Act)
    ensures Exec(s, [act]) == Step(s, act)
  {
    assert [act][1..] == [];
    assert Exec(Step(s, act), []) == Step(s, act);
  }

  /** At every moment of every race: plans left in their order and each at most once, none after a fatal error
      was observed or the race was finalized; every contract error in the journal was observed; and the race is
      accepted exactly when it was finalized, with no fatal error before, for a winner that is still presentable. */
  lemma RaceIsLinear(profile: Profile, plans: seq<Plan>, workers: nat, acts: seq<Act>)
    ensures var s := Exec(Init(profile, plans, workers), acts);
      && HandedIn(s.trace) + s.control.queue == plans
      && Linear(s.trace)
      && (s.main.Accepted? <==> Finalized in s.trace)
      && (forall i :: 0 <= i < |s.journal| && Sequence.IsControlError(s.journal[i].err) ==> Fatal in s.trace)
      && (s.main.Accepted? ==> Presentable(profile, s.main.won.life, s.main.won.event))
  {
    InitHolds(profile, plans, workers);
    ExecKeeps(Init(profile, plans, workers), plans, acts);
  }

  // ---------------------------------------------------------------------------------------------
  // What one worker and the collector do when nobody else moves

  /** What the worker holds and the race knows when a rejected attempt has been closed and accounted for. */
  ghost predicate Accounted(s: State, w: nat, closeErr: Failure, t: State)
    requires w < |s.workers| && s.workers[w].pc.Judged?
  {
    var pc := s.workers[w].pc;
    && t.closed == s.closed + (if pc.ran.life.Some? then multiset{pc.ran.life.value} else multiset{})
    && t.journal == s.journal + [Entry(pc.plan, false, pc.err + closeErr)]
    && t.main == s.main && t.channel == s.channel && t.control.queue == s.control.queue
    && |t.workers| == |s.workers| && t.workers[w].failures == s.workers[w].failures + pc.err + closeErr
    && (t.control.err != {} <==>
          s.control.err != {} || Sequence.IsControlError(pc.err) || Sequence.IsControlError(closeErr))
  }

  /** It goes on only if closing succeeded and the attempt was not refused before it started. */
  predicate MustStop(pc: Pc, closeErr: Failure)
    requires pc.Judged?
  {
    closeErr != {} || (pc.ran.runErr != {} && !pc.ran.started)
  }

  lemma CloseRejected(s: State, w: nat, closeErr: Failure)
    requires w < |s.workers| && s.workers[w].pc.Judged?
    ensures
      var pc, t := s.workers[w].pc, Step(Step(Step(s, Observe(w)), Close(w, closeErr)), Account(w));
      Accounted(s, w, closeErr, t) && t.workers[w].pc == Deciding(MustStop(pc, closeErr), pc.err + closeErr)
  {
    var pc, failures := s.workers[w].pc, s.workers[w].failures;
    var s1 := Work(ObserveIn(s, pc.err), w, Worker(Closing(pc.plan, pc.ran, pc.err), failures));
    assert Step(s, Observe(w)) == s1;
    var s2 := Step(s1, Close(w, closeErr));
    assert s2.workers[w] == Worker(Accounting(pc.plan, pc.ran, pc.err, closeErr), failures + pc.err + closeErr);
  }

  /** A rejected attempt is closed, journalled with both errors, and added to the worker's failures; the worker
      then asks for the next plan exactly when closing succeeded, the attempt was not refused before it started,
      and no contract error is known; otherwise it ends with the errors it has and the control's. */
  lemma RejectedAttempt(s: State, w: nat, closeErr: Failure)
    requires w < |s.workers| && s.workers[w].pc.Judged?
    ensures
      var pc, t := s.workers[w].pc, Exec(s, [Observe(w), Close(w, closeErr), Account(w), Act.Decide(w)]);
      var stops := MustStop(pc, closeErr) || t.control.err != {};
      && Accounted(s, w, closeErr, t)
      && t.workers[w].pc == (if stops then Aborting(pc.err + closeErr) else Asking)
      && (stops ==> Ends(t, w, Step(t, Abort(w)), pc.err + closeErr + t.control.err))
  {
    var closed := Step(Step(Step(s, Observe(w)), Close(w, closeErr)), Account(w));
    var t := Step(closed, Act.Decide(w));
    CloseRejected(s, w, closeErr);
    Decides(closed, w);
    assert Accounted(s, w, closeErr, t);
    if t.workers[w].pc.Aborting? { Aborts(t, w); }
    FourSteps(s, Observe(w), Close(w, closeErr), Account(w), Act.Decide(w));
  }

  lemma Decides(s: State, w: nat)
    requires w < |s.workers| && s.workers[w].pc.Deciding?
    ensures
      var pc := s.workers[w].pc;
      Step(s, Act.Decide(w))
      == Work(s, w, Worker(if pc.stop || s.control.err != {} then Aborting(pc.err) else Asking, s.workers[w].failures))
  {
  }

  ghost predicate Ends(s: State, w: nat, t: State, err: Failure)
    requires w < |s.workers|
  {
    t == s.(workers := s.workers[w := Worker(Finished, s.workers[w].failures)], channel := s.channel + [Losing(err)])
  }

  lemma Aborts(s: State, w: nat)
    requires w < |s.workers| && s.workers[w].pc.Aborting?
    ensures Ends(s, w, Step(s, Abort(w)), s.workers[w].pc.err + s.control.err)
  {
  }

  lemma FourSteps(s: State, a: Act, b: Act, c: Act, d: Act)
    ensures Exec(s, [a, b, c, d]) == Step(Step(Step(Step(s, a), b), c), d)
  {
    assert [a, b, c, d] == [a, b] + [c, d];
    assert [a, b] == [a] + [b] && [c, d] == [c] + [d];
    ExecAppend(s, [a, b], [c, d]);
    ExecAppend(s, [a], [b]);
    ExecOne(s, a);
    ExecOne(Step(s, a), b);
    var t := Exec(s, [a, b]);
    ExecAppend(t, [c], [d]);
    ExecOne(t, c);
    ExecOne(Step(t, c), d);
  }

  /** A worker that asks gets the next plan exactly when there is one, the race is open and its context alive;
      it ends with the contract error if there is one, else, while the race is open, with its context's error,
      and otherwise with all its own failures. */
  lemma AskingWorker(s: State, w: nat, ctxErr: Failure)
    requires w < |s.workers| && s.workers[w].pc == Asking
    ensures
      var t, failures, c := Step(s, Ask(w, ctxErr)), s.workers[w].failures, s.control;
      && t.workers[w].failures == failures && t.journal == s.journal && t.main == s.main
      && (c.err == {} && !c.finalized && ctxErr == {} && c.queue != [] ==>
            && t.workers[w].pc == Running(c.queue[0])
            && t.control == c.(queue := c.queue[1..])
            && t.trace == s.trace + [Handed(c.queue[0])]
            && t.channel == s.channel)
      && (!(c.err == {} && !c.finalized && ctxErr == {} && c.queue != []) ==>
            && t.workers[w].pc == Finished && t.control == c && t.trace == s.trace
            && t.channel == s.channel + [Losing(if c.err != {} then c.err
                                                else if !c.finalized && ctxErr != {} then ctxErr
                                                else failures)])
  {
  }

  /** A worker whose attempt returned holds it as rejected, with the error of the first bad answer, or else as
      approved, with the facts read last. */
  lemma ReturnedAttempt(s: State, w: nat, ran: Ran, a: Answers, err: Failure)
    requires w < |s.workers| && s.workers[w].pc.Running? && Possible(s, ran, a)
    ensures
      var plan, t := s.workers[w].pc.plan, Step(s, Return(w, ran, a));
      && t == s.(workers := s.workers[w := Worker(t.workers[w].pc, s.workers[w].failures)],
                 returned := s.returned + (if ran.life.Some? then {ran.life.value} else {}))
      && (RejectedFor(s.profile, ran, a, err) <==> t.workers[w].pc == Judged(plan, ran, err))
      && (t.workers[w].pc.Judged? || t.workers[w].pc == Approved(Won(plan, ran.life, a.second.event)))
  {
    RejectsWithFirstBadAnswer(s.profile, ran, a, err);
  }

  /** An accepted attempt is journalled without an error and sent on, and the worker asks for nothing more. */
  lemma AcceptedAttempt(s: State, w: nat)
    requires w < |s.workers| && s.workers[w].pc.Approved?
    ensures
      var won, t := s.workers[w].pc.won, Step(Step(s, Append(w)), Send(w));
      && t == s.(workers := s.workers[w := Worker(Finished, s.workers[w].failures)],
                 journal := s.journal + [Entry(won.plan, true, {})],
                 channel := s.channel + [Winning(won)])
  {
  }

  /** The first winner received is checked once more, and returned exactly when no contract error is known, the
      context is alive and the facts are readable and uncommitted; otherwise it is closed and the first of those
      four errors is returned. */
  lemma FirstWinner(s: State, ctxErr: Failure, reading: Reading)
    requires s.main.Collecting? && s.channel != [] && s.channel[0].Winning?
    requires ValidEvent(reading.event) && Le(s.channel[0].won.event, reading.event)
    ensures
      var t := Exec(s, [Receive, CheckFailure, CheckWinner(ctxErr, reading), Finalize]);
      var won := s.channel[0].won;
      var refusal := if s.control.err != {} then s.control.err else if ctxErr != {} then ctxErr
                     else if reading.err != {} then reading.err
                     else if reading.event.committed then {InvalidEvent} else {};
      && t.channel == s.channel[1..] && t.workers == s.workers
      && (refusal == {} ==>
            && t.main == Accepted(Won(won.plan, won.life, reading.event))
            && t.closed == s.closed && t.control == s.control.(finalized := true))
      && (refusal != {} ==>
            && t.main == Failed(refusal) && t.control == s.control
            && t.closed == s.closed + (if won.life.Some? then multiset{won.life.value} else multiset{}))
  {
    FourSteps(s, Receive, CheckFailure, CheckWinner(ctxErr, reading), Finalize);
    WinnerReceived(s);
  }

  lemma WinnerReceived(s: State)
    requires s.main.Collecting? && s.channel != [] && s.channel[0].Winning?
    ensures
      var won, t := s.channel[0].won, Step(Step(s, Receive), CheckFailure);
      t == if s.control.err == {} then s.(channel := s.channel[1..], main := Verifying(won))
           else CloseIn(s, won.life).(channel := s.channel[1..], main := Failed(s.control.err + {}))
  {
    assert Step(s, Receive) == s.(channel := s.channel[1..], main := Checking(Some(s.channel[0].won), {}));
  }

  // ---------------------------------------------------------------------------------------------
  // A race that reports no winner has heard every worker

  function Ended(workers: seq<Worker>, n: nat): nat
    requires n <= |workers|
  {
    if n == 0 then 0 else Ended(workers, n - 1) + One(workers[n - 1].pc == Finished)
  }

  lemma {:induction false} EndedChanges(workers: seq<Worker>, n: nat, w: nat, worker: Worker)
    requires w < |workers| && n <= |workers|
    ensures var was, now := Ended(workers, n), Ended(workers[w := worker], n);
      if w < n then now + One(workers[w].pc == Finished) == was + One(worker.pc == Finished) else now == was
  {
    if n > 0 { EndedChanges(workers, n - 1, w, worker); }
  }

  lemma {:induction false} AllEnded(workers: seq<Worker>, n: nat)
    requires n <= |workers|
    ensures Ended(workers, n) <= n
    ensures Ended(workers, n) == n ==> forall w :: 0 <= w < n ==> workers[w].pc == Finished
  {
    if n > 0 { AllEnded(workers, n - 1); }
  }

  /** Every worker that has ended has sent one message, and the collector has counted those it received; once it
      has received them all, nobody is left. */
  ghost predicate Heard(s: State) {
    && (s.main.Collecting? ==> s.main.received + |s.channel| == Ended(s.workers, |s.workers|))
    && (s.main.Collecting? && s.main.received == 0 ==> s.main.errors == {})
    && (s.main.Nothing? || (s.main.Checking? && s.main.candidate.None? && NO_SUCCESS in s.main.err) ==>
          s.channel == [] && Ended(s.workers, |s.workers|) == |s.workers|)
    && (s.main.Checking? && s.main.candidate.None? ==> s.main.err != {})
    && (s.main.Failed? ==> s.main.err != {})
  }

  /** A worker sends one message, when it ends. */
  lemma WorkerReportsOnce(s: State, w: nat, act: Act)
    requires w < |s.workers|
    ensures var s' := WorkerStep(s, w, act);
      && s'.main == s.main && |s'.workers| == |s.workers| && s'.workers == s.workers[w := s'.workers[w]]
      && (if s.workers[w].pc == Finished then s' == s
          else |s'.channel| == |s.channel| + One(s'.workers[w].pc == Finished))
  {
  }

  lemma WorkerKeepsHeard(s: State, w: nat, act: Act)
    requires Heard(s) && w < |s.workers|
    ensures Heard(WorkerStep(s, w, act))
  {
    var s' := WorkerStep(s, w, act);
    WorkerReportsOnce(s, w, act);
    EndedChanges(s.workers, |s.workers|, w, s'.workers[w]);
    AllEnded(s.workers, |s.workers|);
  }

  lemma MainKeepsHeard(s: State, act: Act)
    requires Heard(s)
    ensures Heard(MainStep(s, act))
  {
    AllEnded(s.workers, |s.workers|);
    assert s.main.Checking? && s.control.err != {} ==> s.control.err + s.main.err != {};
  }

  lemma {:induction false} ExecKeepsHeard(s: State, acts: seq<Act>)
    requires Heard(s)
    ensures Heard(Exec(s, acts))
    decreases |acts|
  {
    if acts != [] {
      var act := acts[0];
      if !ByWorker(act) { MainKeepsHeard(s, act); } else if act.w < |s.workers| { WorkerKeepsHeard(s, act.w, act); }
      ExecKeepsHeard(Step(s, act), acts[1..]);
    }
  }

  lemma {:induction false} NobodyEnded(workers: seq<Worker>, n: nat)
    requires n <= |workers| && forall w :: 0 <= w < n ==> workers[w].pc == Asking
    ensures Ended(workers, n) == 0
  {
    if n > 0 { NobodyEnded(workers, n - 1); }
  }

  /** "No winner" is only answered when every worker has ended and been heard, a failure always carries an error,
      and the collector holds none before it has heard anybody. */
  lemma NoWinnerIsUnanimous(profile: Profile, plans: seq<Plan>, workers: nat, acts: seq<Act>)
    ensures var s := Exec(Init(profile, plans, workers), acts);
      && (s.main.Nothing? ==> s.channel == [] && forall w :: 0 <= w < |s.workers| ==> s.workers[w].pc == Finished)
      && (s.main.Failed? ==> s.main.err != {})
      && (s.main.Collecting? && s.main.received == 0 ==> s.main.errors == {})
  {
    var init := Init(profile, plans, workers);
    NobodyEnded(init.workers, workers);
    ExecKeepsHeard(init, acts);
    var s := Exec(init, acts);
    AllEnded(s.workers, |s.workers|);
  }

  /** All errors of the messages received from position k on. */
  function Causes(channel: seq<Message>, k: nat): Failure
    requires k <= |channel|
    decreases |channel| - k
  {
    if k == |channel| then {}
    else (if channel[k].Losing? then channel[k].err else {}) + Causes(channel, k + 1)
  }

  lemma {:induction false} ReceivesLosers(s: State, n: nat)
    requires s.main.Collecting? && |s.channel| == n && forall m :: 0 <= m < n ==> s.channel[m].Losing?
    ensures Exec(s, seq(n, _ => Receive))
         == s.(channel := [], main := Collecting(s.main.received + n, s.main.errors + Causes(s.channel, 0)))
    decreases n
  {
    var acts: seq<Act> := seq(n, _ => Receive);
    if n > 0 {
      assert acts[0] == Receive && acts[1..] == seq(n - 1, _ => Receive);
      var s' := Step(s, Receive);
      CausesShift(s.channel, 1);
      ReceivesLosers(s', n - 1);
      assert s.main.errors + s.channel[0].err + Causes(s.channel[1..], 0)
          == s.main.errors + (s.channel[0].err + Causes(s.channel, 1));
    } else {
      assert acts == [] && s.channel == [];
      assert s.main.errors + {} == s.main.errors;
    }
  }

  lemma {:induction false} CausesShift(channel: seq<Message>, k: nat)
    requires 1 <= k <= |channel|
    ensures Causes(channel, k) == Causes(channel[1..], k - 1)
    decreases |channel| - k
  {
    if k < |channel| { CausesShift(channel, k + 1); }
  }

  /** When every worker lost, the caller learns of no winner exactly if no contract error is known and the workers
      reported nothing but missing outcomes; otherwise it gets the workers' errors, all of them, and the
      control's. */
  lemma EveryWorkerLost(s: State)
    requires s.main == Collecting(0, {}) && |s.channel| == |s.workers| && s.workers != []
    requires forall m :: 0 <= m < |s.channel| ==> s.channel[m].Losing?
    ensures
      var t := Exec(s, seq(|s.channel|, _ => Receive) + [Drained, CheckFailure]);
      var causes := Causes(s.channel, 0);
      && (t.main == Nothing <==> s.control.err == {} && (causes == {} || NO_SUCCESS in causes))
      && (t.main != Nothing ==> t.main == Failed(s.control.err + (if causes == {} then {NO_SUCCESS} else causes)))
  {
    var receiving: seq<Act> := seq(|s.channel|, _ => Receive);
    ReceivesLosers(s, |s.channel|);
    ExecAppend(s, receiving, [Drained, CheckFailure]);
    var heard := Exec(s, receiving);
    assert heard.main == Collecting(|s.workers|, {} + Causes(s.channel, 0));
    assert [Drained, CheckFailure] == [Drained] + [CheckFailure];
    ExecAppend(heard, [Drained], [CheckFailure]);
    ExecOne(heard, Drained);
    ExecOne(Step(heard, Drained), CheckFailure);
    assert {} + Causes(s.channel, 0) == Causes(s.channel, 0);
    assert s.control.err == {} ==> forall err: Failure :: s.control.err + err == err;
  }

  ghost predicate AtRest(s: State) {
    && (forall w :: 0 <= w < |s.workers| ==> s.workers[w].pc == Finished)
    && s.channel == []
    && (s.main.Accepted? || s.main.Nothing? || s.main.Failed?)
  }

  /** Once every worker has returned and late results are drained, each returned Lifetime has been closed exactly
      once, except an accepted winner's, which has not been closed; and the journal lists every plan that was
      handed out, exactly as often as it was handed out. */
  lemma EveryAttemptIsAccountedFor(profile: Profile, plans: seq<Plan>, workers: nat, acts: seq<Act>, life: LifeId,
                                   plan: Plan)
    requires AtRest(Exec(Init(profile, plans, workers), acts))
    ensures var s := Exec(Init(profile, plans, workers), acts);
      && s.closed[life] == One(life in s.returned && !(s.main.Accepted? && s.main.won.life == Some(life)))
      && InJournal(s.journal, |s.journal|, PlanToken(plan)) == InTrace(s.trace, |s.trace|, PlanToken(plan))
  {
    var s := Exec(Init(profile, plans, workers), acts);
    InitHolds(profile, plans, workers);
    ExecKeeps(Init(profile, plans, workers), plans, acts);
    assert Found(s, LifeToken(life)) == Entered(s, LifeToken(life));
    assert Found(s, PlanToken(plan)) == Entered(s, PlanToken(plan));
    NobodyHolds(s.workers, |s.workers|, LifeToken(life));
    NobodyHolds(s.workers, |s.workers|, PlanToken(plan));
    JournalHoldsPlans(s.journal, |s.journal|, life);
    TraceHoldsPlans(s.trace, |s.trace|, life);
  }

  lemma {:induction false} JournalHoldsPlans(journal: seq<Entry>, n: nat, life: LifeId)
    requires n <= |journal|
    ensures InJournal(journal, n, LifeToken(life)) == 0
  {
    if n > 0 { JournalHoldsPlans(journal, n - 1, life); }
  }

  lemma {:induction false} TraceHoldsPlans(trace: seq<Mark>, n: nat, life: LifeId)
    requires n <= |trace|
    ensures InTrace(trace, n, LifeToken(life)) == 0
  {
    if n > 0 { TraceHoldsPlans(trace, n - 1, life); }
  }
}
