/** Start windows for repeats (policy/attempt/schedule.go, time.go): portable timestamps, delays, hints. */
module Schedule {
  import opened Wrappers
  import opened Attempt

  // Nanoseconds from the start of year 1 to the end of year 9999 (3,652,059 days).
  const END_OF_CALENDAR: Time := 3652059 * 86400 * 1000000000

  newtype InvalidHintPolicy = code: int | 0 <= code < 256
  const RejectHint: InvalidHintPolicy := 0
  const IgnoreHint: InvalidHintPolicy := 1

  datatype Hint = Hint(present: bool, notBefore: Time, source: string, clock: string, uncertainty: int)

  datatype ScheduleInput = ScheduleInput(
    now: Time, backoff: int, hint: Hint, invalidHint: InvalidHintPolicy, cooldown: Time, deadline: Time)

  predicate ValidTimestamp(t: Time) {
    0 < t < END_OF_CALENDAR
  }

  function AddDelay(base: Time, delay: int): Result<Time, Error> {
    if !ValidTimestamp(base) || delay < 0 then Err(InvalidHint)
    else if !ValidTimestamp(base + delay) then Err(InvalidHint)
    else Ok(base + delay)
  }

  function HintStart(hint: Hint): Result<Time, Error> {
    if hint.source == "" || hint.clock == "" then Err(InvalidHint) else AddDelay(hint.notBefore, hint.uncertainty)
  }

  predicate ValidInput(input: ScheduleInput) {
    && ValidTimestamp(input.now) && input.backoff >= 0 && input.invalidHint <= IgnoreHint
    && (input.cooldown != Absent ==> ValidTimestamp(input.cooldown))
    && (input.deadline != Absent ==> ValidTimestamp(input.deadline))
  }

  /** Returns the decision together with the error, as the source does; None is a nil error. */
  function ScheduleRepeat(decision: Decision, input: ScheduleInput): (Decision, Option<Error>) {
    if !ValidInput(input) then (decision, Some(InvalidHint))
    else if !IsRepeat(decision.action) then (decision, None)
    else
      var base := AddDelay(input.now, input.backoff);
      if base.Err? then (decision, Some(base.error))
      else
        var hinted := HintStart(input.hint);
        if input.hint.present && hinted.Err? && input.invalidHint == RejectHint then (decision, Some(InvalidHint))
        else
          var reason := if input.hint.present && hinted.Err? then HintIgnored else decision.reason;
          var afterHint :=
            if input.hint.present && hinted.Ok? && hinted.value > base.value then hinted.value else base.value;
          var start := if input.cooldown > afterHint then input.cooldown else afterHint;
          if input.deadline != Absent && start >= input.deadline then
            (decision.(notBefore := start, deadline := input.deadline, action := Defer, reason := DeadlineExhausted),
             None)
          else
            (decision.(notBefore := start, deadline := input.deadline, reason := reason), None)
  }

  /** Instants of the years 1 to 9999, the zero instant excepted. */
  predicate InCalendar(t: Time) {
    0 < t < 315_537_897_600_000_000_000
  }

  /** A hint with provenance whose start can be computed. */
  predicate UsableHint(hint: Hint) {
    && hint.source != "" && hint.clock != "" && hint.uncertainty >= 0
    && InCalendar(hint.notBefore) && InCalendar(hint.notBefore + hint.uncertainty)
  }

  predicate Plannable(input: ScheduleInput) {
    && InCalendar(input.now) && input.backoff >= 0
    && (input.invalidHint == RejectHint || input.invalidHint == IgnoreHint)
    && (input.cooldown == Absent || InCalendar(input.cooldown))
    && (input.deadline == Absent || InCalendar(input.deadline))
  }

  /** Scheduling fails exactly on input that cannot be planned with, on a repeat whose backoff leaves the calendar,
      and on a repeat with an unusable hint that must not be ignored; it then changes nothing, as it changes
      nothing about decisions that are not repeats. */
  lemma ScheduleFailsExactly(decision: Decision, input: ScheduleInput)
    ensures var (scheduled, err) := ScheduleRepeat(decision, input);
      && (err.Some? <==>
            || !Plannable(input)
            || (IsRepeat(decision.action) && !InCalendar(input.now + input.backoff))
            || (IsRepeat(decision.action) && input.hint.present && !UsableHint(input.hint)
                && input.invalidHint == RejectHint))
      && (err.Some? ==> err.value == InvalidHint)
      && (err.Some? || !IsRepeat(decision.action) ==> scheduled == decision)
  {
  }

  /** Bounds the start must respect, each stated as the source documents it. */
  predicate RespectsBounds(start: Time, input: ScheduleInput) {
    && start >= input.now + input.backoff
    && (input.hint.present && UsableHint(input.hint) ==> start >= input.hint.notBefore + input.hint.uncertainty)
    && (input.cooldown != Absent ==> start >= input.cooldown)
  }

  /** A scheduled repeat starts at the least instant that respects every bound, and strictly before the
      deadline; it is deferred exactly when that least instant is not before the deadline. The reason names the
      exhausted deadline, or else an ignored hint, or else stays. */
  lemma ScheduleIsLeastWindow(decision: Decision, input: ScheduleInput)
    requires IsRepeat(decision.action) && ScheduleRepeat(decision, input).1.None?
    ensures var scheduled := ScheduleRepeat(decision, input).0;
      && RespectsBounds(scheduled.notBefore, input)
      && (forall t :: RespectsBounds(t, input) ==> scheduled.notBefore <= t)
      && scheduled.deadline == input.deadline && scheduled.event == decision.event
      && (scheduled.action == Defer <==> input.deadline != Absent && input.deadline <= scheduled.notBefore)
      && (scheduled.action != Defer ==> scheduled.action == decision.action)
      && scheduled.reason == (if scheduled.action == Defer then DeadlineExhausted
                              else if input.hint.present && !UsableHint(input.hint) then HintIgnored
                              else decision.reason)
      && ValidTimestamp(scheduled.notBefore)
  {
  }

  /** A hint only ever delays: without a usable hint the window cannot start later. */
  lemma HintOnlyDelays(decision: Decision, input: ScheduleInput)
    requires IsRepeat(decision.action) && ScheduleRepeat(decision, input).1.None?
    ensures var bare := input.(hint := input.hint.(present := false));
      && ScheduleRepeat(decision, bare).1.None?
      && ScheduleRepeat(decision, bare).0.notBefore <= ScheduleRepeat(decision, input).0.notBefore
  {
  }

  // ---------------------------------------------------------------------------------------------
  // Deadlines

  /** earliestDeadline: the context's deadline is optional; the two instants may be absent. */
  function EarliestDeadline(context: Option<Time>, first: Time, second: Time): Time {
    var chosen := if second != Absent && (first == Absent || second < first) then second else first;
    if context.Some? && (chosen == Absent || context.value < chosen) then context.value else chosen
  }

  /** `after` admits no instant that `before` excludes. */
  ghost predicate Tightens(after: Time, before: Time) {
    forall now: Time :: BeforeDeadline(now, after) ==> BeforeDeadline(now, before)
  }

  predicate BeforeDeadline(now: Time, deadline: Time) {
    deadline == Absent || now < deadline
  }

  /** A context deadline at the zero instant, which encodes "no deadline", while no other deadline lies before it. */
  predicate Erased(context: Option<Time>, first: Time, second: Time) {
    context == Some(Absent) && first >= 0 && second >= 0
  }

  /** An instant is before the earliest deadline exactly when it is before each of the three, or the context has
      erased them all. */
  lemma EarliestIsConjunction(context: Option<Time>, first: Time, second: Time, now: Time)
    ensures BeforeDeadline(now, EarliestDeadline(context, first, second))
       <==> Erased(context, first, second)
            || (BeforeDeadline(now, first) && BeforeDeadline(now, second) && (context.Some? ==> now < context.value))
  {
  }

  /** A context that reports the zero instant as its deadline erases any later one. */
  lemma ZeroContextDeadlineErases(first: Time, second: Time)
    ensures (EarliestDeadline(Some(Absent), first, second) == Absent) <==> Erased(Some(Absent), first, second)
  {
  }
}
