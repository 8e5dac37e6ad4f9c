/** The circuit breaker (circuit_breaker.go). Each of its methods is one critical section, so a run of any number of
    concurrent calls is a sequence of admissions, completions and abandonments (a handler that panicked). */
module Circuit {
  import opened Wrappers

  datatype Mode = Closed | Open | HalfOpen

  /** Instants and durations are integers; a breaker that never opened has an irrelevant openedAt. */
  type Time = int

  datatype Breaker = Breaker(failures: int, mode: Mode, openedAt: Time, probeInFlight: bool, generation: nat)

  const NewBreaker := Breaker(0, Closed, 0, false, 0)

  datatype Admission = Admission(generation: nat, probe: bool)

  datatype Error = Canceled | DeadlineExceeded | Other(code: nat)

  /** circuitFailure: `verdict` is what the configured isFailure says of the error, if one is configured. */
  predicate CountsAsFailure(err: Option<Error>, verdict: Option<bool>) {
    if err.None? then false
    else if err.value == Canceled || err.value == DeadlineExceeded then false
    else verdict.None? || verdict.value
  }

  // ---------------------------------------------------------------------------------------------
  // The four critical sections

  function BeforeStep(b: Breaker, now: Time, reset: Time): (Breaker, Option<Admission>) {
    if b.mode == Open && now - b.openedAt < reset then (b, None)
    else
      var b1 := if b.mode == Open then b.(mode := HalfOpen, generation := b.generation + 1) else b;
      if b1.mode == HalfOpen then
        if b1.probeInFlight then (b1, None)
        else
          (b1.(probeInFlight := true, generation := b1.generation + 1), Some(Admission(b1.generation + 1, true)))
      else (b1, Some(Admission(b1.generation, false)))
  }

  function OpenStep(b: Breaker, now: Time): Breaker {
    Breaker(0, Open, now, false, b.generation + 1)
  }

  function AfterStep(b: Breaker, a: Admission, failedErr: bool, failed: bool, now: Time, threshold: int): Breaker {
    if a.generation != b.generation then b
    else if a.probe then
      if b.mode != HalfOpen || !b.probeInFlight then b
      else if !failedErr then Breaker(0, Closed, b.openedAt, false, b.generation + 1)
      else if failed then OpenStep(b, now)
      else b.(probeInFlight := false)
    else if b.mode != Closed then b
    else if !failed then b.(failures := 0)
    else if b.failures + 1 >= threshold then OpenStep(b, now)
    else b.(failures := b.failures + 1)
  }

  function AbandonStep(b: Breaker, a: Admission): Breaker {
    if a.probe && a.generation == b.generation && b.mode == HalfOpen then b.(probeInFlight := false) else b
  }

  class CircuitBreaker {
    var failures: int
    var mode: Mode
    var openedAt: Time
    var probeInFlight: bool
    var generation: nat

    function State(): Breaker
      reads this
    {
      Breaker(failures, mode, openedAt, probeInFlight, generation)
    }

    constructor ()
      ensures State() == NewBreaker
    {
      failures, mode, openedAt, probeInFlight, generation := 0, Closed, 0, false, 0;
    }

    method BeforeRequest(now: Time, reset: Time) returns (admission: Option<Admission>)
      modifies this
      ensures (State(), admission) == BeforeStep(old(State()), now, reset)
    {
      if mode == Open {
        if now - openedAt < reset { return None; }
        mode := HalfOpen;
        generation := generation + 1;
      }
      if mode == HalfOpen {
        if probeInFlight { return None; }
        probeInFlight := true;
        generation := generation + 1;
        return Some(Admission(generation, true));
      }
      return Some(Admission(generation, false));
    }

    method Trip(now: Time)
      modifies this
      ensures State() == OpenStep(old(State()), now)
    {
      mode := Open;
      openedAt := now;
      failures := 0;
      probeInFlight := false;
      generation := generation + 1;
    }

    method AfterRequest(a: Admission, err: Option<Error>, verdict: Option<bool>, now: Time, threshold: int)
      modifies this
      ensures State() == AfterStep(old(State()), a, err.Some?, CountsAsFailure(err, verdict), now, threshold)
    {
      var failed := CountsAsFailure(err, verdict);
      if a.generation != generation { return; }
      if a.probe {
        if mode != HalfOpen || !probeInFlight { return; }
        probeInFlight := false;
        if err.None? {
          mode := Closed;
          failures := 0;
          generation := generation + 1;
        } else if failed {
          Trip(now);
        }
        return;
      }
      if mode != Closed { return; }
      if !failed {
        failures := 0;
        return;
      }
      failures := failures + 1;
      if failures >= threshold { Trip(now); }
    }

    method Abandon(a: Admission)
      modifies this
      ensures State() == AbandonStep(old(State()), a)
    {
      if a.probe && a.generation == generation && mode == HalfOpen { probeInFlight := false; }
    }
  }

  // ---------------------------------------------------------------------------------------------
  // Runs

  type Call = int

  /** A completed call: the generation that admitted it, what it returned, when, and whether the circuit opened then. */
  datatype Completion = Completion(generation: nat, err: Option<Error>, verdict: Option<bool>, now: Time, opening: bool)

  /** Which completions count, in the words of the documentation: an error other than cancellation and expiry, unless
      the configured classifier says otherwise. */
  predicate Counted(c: Completion) {
    c.err.Some? && c.err.value.Other? && c.verdict != Some(false)
  }

  /** When the circuit last opened. */
  function LastOpening(log: seq<Completion>): Option<Time> {
    if log == [] then None
    else if log[|log| - 1].opening then Some(log[|log| - 1].now)
    else LastOpening(log[..|log| - 1])
  }

  /** `calls` are the admitted calls that have not ended; `log` the completed ones in order. */
  datatype World = World(breaker: Breaker, calls: map<Call, Admission>, log: seq<Completion>)

  const NewWorld := World(NewBreaker, map[], [])

  datatype Act =
    | Arrive(call: Call, now: Time)
    | Complete(call: Call, err: Option<Error>, verdict: Option<bool>, now: Time)
    | Panic(call: Call)

  function CompletionOf(before: Breaker, after: Breaker, a: Admission, act: Act): Completion
    requires act.Complete?
  {
    Completion(a.generation, act.err, act.verdict, act.now, before.mode != Open && after.mode == Open)
  }

  function Step(w: World, act: Act, threshold: int, reset: Time): World {
    match act
    case Arrive(call, now) =>
      if call in w.calls then w
      else
        var (b, admission) := BeforeStep(w.breaker, now, reset);
        World(b, if admission.Some? then w.calls[call := admission.value] else w.calls, w.log)
    case Complete(call, err, verdict, now) =>
      if call !in w.calls then w
      else
        var a := w.calls[call];
        var b := AfterStep(w.breaker, a, err.Some?, CountsAsFailure(err, verdict), now, threshold);
        World(b, w.calls - {call}, w.log + [CompletionOf(w.breaker, b, a, act)])
    case Panic(call) =>
      if call !in w.calls then w
      else World(AbandonStep(w.breaker, w.calls[call]), w.calls - {call}, w.log)
  }

  function Exec(w: World, acts: seq<Act>, threshold: int, reset: Time): World
    decreases |acts|
  {
    if acts == [] then w else Exec(Step(w, acts[0], threshold, reset), acts[1..], threshold, reset)
  }

  /** The reference: consecutive counted failures at the end of one generation's completions. */
  function Trail(log: seq<Completion>, generation: nat): nat {
    if log == [] then 0
    else
      var last := log[|log| - 1];
      if last.generation != generation then Trail(log[..|log| - 1], generation)
      else if Counted(last) then Trail(log[..|log| - 1], generation) + 1
      else 0
  }

  ghost predicate Bounded(w: World) {
    && (forall c :: c in w.calls ==> w.calls[c].generation <= w.breaker.generation)
    && (forall i :: 0 <= i < |w.log| ==> w.log[i].generation <= w.breaker.generation)
  }

  /** The in-flight flag is exactly the presence of a probe, which is alone and of the current generation. */
  ghost predicate SingleProbe(w: World) {
    && (w.breaker.probeInFlight ==> w.breaker.mode == HalfOpen && exists c :: c in w.calls && w.calls[c].probe)
    && (forall c :: c in w.calls && w.calls[c].probe ==>
          w.breaker.probeInFlight && w.calls[c].generation == w.breaker.generation)
    && (forall c, d :: c in w.calls && d in w.calls && w.calls[c].probe && w.calls[d].probe ==> c == d)
  }

  /** Calls admitted before the breaker last left Closed are stale. */
  ghost predicate OldAreStale(w: World) {
    w.breaker.mode != Closed ==>
      forall c :: c in w.calls && !w.calls[c].probe ==> w.calls[c].generation < w.breaker.generation
  }

  ghost predicate Counts(w: World, threshold: int) {
    w.breaker.mode == Closed ==>
      w.breaker.failures == Trail(w.log, w.breaker.generation) && w.breaker.failures < threshold
  }

  /** The reset window is counted from the completion that opened the circuit. */
  ghost predicate Dated(w: World) {
    w.breaker.mode == Open ==> LastOpening(w.log) == Some(w.breaker.openedAt)
  }

  ghost predicate Inv(w: World, threshold: int) {
    Bounded(w) && SingleProbe(w) && OldAreStale(w) && Counts(w, threshold) && Dated(w)
  }

  lemma OpeningAppend(log: seq<Completion>, c: Completion)
    ensures LastOpening(log + [c]) == if c.opening then Some(c.now) else LastOpening(log)
  {
    assert (log + [c])[..|log|] == log;
  }

  /** A nil error, a cancellation and an expiry never count; any other error counts as the classifier says, and without
      one always. */
  lemma CountsExactly(err: Option<Error>, verdict: Option<bool>)
    ensures CountsAsFailure(None, verdict) == false
    ensures CountsAsFailure(Some(Canceled), verdict) == false
    ensures CountsAsFailure(Some(DeadlineExceeded), verdict) == false
    ensures err.Some? && err.value.Other? ==> (CountsAsFailure(err, verdict) <==> verdict.None? || verdict.value)
  {
  }

  lemma {:induction false} NewGenerationHasNoTrail(log: seq<Completion>, generation: nat)
    requires forall i :: 0 <= i < |log| ==> log[i].generation < generation
    ensures Trail(log, generation) == 0
  {
    if log != [] { NewGenerationHasNoTrail(log[..|log| - 1], generation); }
  }

  lemma TrailAppend(log: seq<Completion>, c: Completion, generation: nat)
    ensures Trail(log + [c], generation)
         == if c.generation != generation then Trail(log, generation)
            else if Counted(c) then Trail(log, generation) + 1 else 0
  {
    assert (log + [c])[..|log|] == log;
  }

  lemma ArriveKeeps(w: World, call: Call, now: Time, threshold: int, reset: Time)
    requires Inv(w, threshold)
    ensures Inv(Step(w, Arrive(call, now), threshold, reset), threshold)
  {
    var w' := Step(w, Arrive(call, now), threshold, reset);
    if call !in w.calls && BeforeStep(w.breaker, now, reset).1.Some? {
      assert call in w'.calls;
    }
  }

  lemma ProbeRemains(calls: map<Call, Admission>, call: Call)
    requires call in calls && !calls[call].probe && exists c :: c in calls && calls[c].probe
    ensures exists c :: c in calls - {call} && (calls - {call})[c].probe
  {
    var c :| c in calls && calls[c].probe;
    assert c in calls - {call};
  }

  lemma CompleteKeeps(w: World, act: Act, threshold: int, reset: Time)
    requires Inv(w, threshold) && act.Complete? && threshold >= 1
    ensures Inv(Step(w, act, threshold, reset), threshold)
  {
    if act.call in w.calls {
      var w' := Step(w, act, threshold, reset);
      var a := w.calls[act.call];
      if w.breaker.probeInFlight && !a.probe { ProbeRemains(w.calls, act.call); }
      var done := CompletionOf(w.breaker, w'.breaker, a, act);
      assert w'.log == w.log + [done];
      CountsExactly(act.err, act.verdict);
      OpeningAppend(w.log, done);
      TrailAppend(w.log, done, w.breaker.generation);
      if w'.breaker.generation > w.breaker.generation {
        NewGenerationHasNoTrail(w'.log, w'.breaker.generation);
      }
    }
  }

  lemma PanicKeeps(w: World, call: Call, threshold: int, reset: Time)
    requires Inv(w, threshold)
    ensures Inv(Step(w, Panic(call), threshold, reset), threshold)
  {
    if call in w.calls && w.breaker.probeInFlight && !w.calls[call].probe { ProbeRemains(w.calls, call); }
  }

  lemma {:induction false} ExecKeeps(w: World, acts: seq<Act>, threshold: int, reset: Time)
    requires Inv(w, threshold) && threshold >= 1
    ensures Inv(Exec(w, acts, threshold, reset), threshold)
    decreases |acts|
  {
    if acts != [] {
      match acts[0] {
        case Arrive(call, now) => ArriveKeeps(w, call, now, threshold, reset);
        case Complete(_, _, _, _) => CompleteKeeps(w, acts[0], threshold, reset);
        case Panic(call) => PanicKeeps(w, call, threshold, reset);
      }
      ExecKeeps(Step(w, acts[0], threshold, reset), acts[1..], threshold, reset);
    }
  }

  /** How the breaker answers an arrival, in terms of the calls in flight and the history. */
  ghost predicate AnswersArrival(w: World, now: Time, reset: Time, b: Breaker, admission: Option<Admission>) {
    var probing := exists c :: c in w.calls && w.calls[c].probe;
    match w.breaker.mode
    case Closed => b == w.breaker && admission == Some(Admission(b.generation, false))
    case HalfOpen => if probing then b == w.breaker && admission.None? else StartsProbe(w, b, admission)
    case Open =>
      LastOpening(w.log).Some?
      && if now - LastOpening(w.log).value < reset then b == w.breaker && admission.None?
         else StartsProbe(w, b, admission)
  }

  /** A probe is admitted under a generation of its own. */
  predicate StartsProbe(w: World, b: Breaker, admission: Option<Admission>) {
    && b.mode == HalfOpen && b.probeInFlight && b.generation > w.breaker.generation
    && admission == Some(Admission(b.generation, true))
  }

  /** At every moment of every run: one probe at most, and nothing is admitted beside it; a closed circuit admits
      everyone under its current generation; an open one refuses every arrival within the reset time of the
      completion that opened it and admits the next one as the probe; and while closed, the counter is the current
      generation's trailing run of counted failures, below the threshold. */
  lemma EveryRunIsGuarded(acts: seq<Act>, threshold: int, reset: Time, now: Time)
    requires threshold >= 1
    ensures var w := Exec(NewWorld, acts, threshold, reset);
      var (b, admission) := BeforeStep(w.breaker, now, reset);
      Inv(w, threshold) && AnswersArrival(w, now, reset, b, admission)
  {
    ExecKeeps(NewWorld, acts, threshold, reset);
    var w := Exec(NewWorld, acts, threshold, reset);
    if c :| c in w.calls && w.calls[c].probe {
      assert w.breaker.probeInFlight && w.breaker.mode == HalfOpen;
    } else {
      assert !w.breaker.probeInFlight;
    }
  }

  /** A call stays in flight until an act of its own ends it. */
  ghost predicate Untouched(acts: seq<Act>, call: Call) {
    forall i :: 0 <= i < |acts| ==> acts[i].call != call
  }

  lemma {:induction false} GenerationsRise(w: World, acts: seq<Act>, threshold: int, reset: Time, call: Call)
    requires call in w.calls && Untouched(acts, call)
    ensures var w' := Exec(w, acts, threshold, reset);
      call in w'.calls && w'.calls[call] == w.calls[call] && w'.breaker.generation >= w.breaker.generation
    decreases |acts|
  {
    if acts != [] {
      assert acts[0].call != call;
      GenerationsRise(Step(w, acts[0], threshold, reset), acts[1..], threshold, reset, call);
    }
  }

  /** Once the circuit has moved on to a newer generation, a call admitted before is ineffective for good: whatever
      happens meanwhile, and however it ends, the breaker is left as it was. */
  lemma StaleCallsStayIneffective(acts: seq<Act>, more: seq<Act>, act: Act, threshold: int, reset: Time)
    requires threshold >= 1 && !act.Arrive? && Untouched(more, act.call)
    requires var w := Exec(NewWorld, acts, threshold, reset);
      act.call in w.calls && w.calls[act.call].generation != w.breaker.generation
    ensures var later := Exec(Exec(NewWorld, acts, threshold, reset), more, threshold, reset);
      act.call in later.calls && Step(later, act, threshold, reset).breaker == later.breaker
  {
    ExecKeeps(NewWorld, acts, threshold, reset);
    GenerationsRise(Exec(NewWorld, acts, threshold, reset), more, threshold, reset, act.call);
  }

  /** A handler that panicked gives its probe back and changes nothing else. */
  lemma PanicOnlyFreesTheProbe(acts: seq<Act>, threshold: int, reset: Time, call: Call)
    requires threshold >= 1 && call in Exec(NewWorld, acts, threshold, reset).calls
    ensures var w := Exec(NewWorld, acts, threshold, reset);
      var w' := Step(w, Panic(call), threshold, reset);
      && w'.breaker == (if w.calls[call].probe then w.breaker.(probeInFlight := false) else w.breaker)
      && w'.calls == w.calls - {call} && w'.log == w.log
  {
    ExecKeeps(NewWorld, acts, threshold, reset);
  }

  /** What a completion does, in terms of the history alone: a probe decides the half-open circuit, and a closed
      circuit opens exactly when this completion makes the trailing run of its generation reach the threshold. */
  lemma OpensExactlyAtThreshold(acts: seq<Act>, threshold: int, reset: Time, act: Act)
    requires threshold >= 1 && act.Complete?
    requires act.call in Exec(NewWorld, acts, threshold, reset).calls
    ensures var w := Exec(NewWorld, acts, threshold, reset);
      var w' := Step(w, act, threshold, reset);
      var done := w'.log[|w'.log| - 1];
      && |w'.log| == |w.log| + 1 && done.err == act.err && done.verdict == act.verdict && done.now == act.now
      && (w.breaker.mode == Closed ==> w'.breaker.mode != HalfOpen)
      && (w.breaker.mode == Closed ==> (w'.breaker.mode == Open <==> Trail(w'.log, w.breaker.generation) >= threshold))
      && (w.breaker.mode == HalfOpen && w.calls[act.call].probe ==>
            w'.breaker.mode == (if act.err.None? then Closed else if Counted(done) then Open else HalfOpen))
      && (w.breaker.mode == Open ==> w'.breaker == w.breaker)
      && (w.breaker.mode == HalfOpen && !w.calls[act.call].probe ==> w'.breaker == w.breaker)
  {
    var w := Exec(NewWorld, acts, threshold, reset);
    ExecKeeps(NewWorld, acts, threshold, reset);
    var w' := Step(w, act, threshold, reset);
    CountsExactly(act.err, act.verdict);
    TrailAppend(w.log, CompletionOf(w.breaker, w'.breaker, w.calls[act.call], act), w.breaker.generation);
  }
}
