/** Lifetime (lifetime.go): a resource released once, with callbacks that run after its cleanup. A step is one
    critical section or callback of some goroutine; a run is any sequence of steps. */
module Lifetime {
  import opened Wrappers

  /** A registered callback; the number only tells registrations apart. */
  type Hook = int

  datatype Stage = Open | Cleaning | Draining | Done

  datatype Effect = CleanupStarted | CleanupEnded(err: int) | Ran(hook: Hook) | Returned(err: int)

  /** `hooks` is the source's slice; `draining` the slice taken by Close; `immediate` the callbacks of goroutines
      that found the Lifetime closed and are about to run them. */
  datatype Life = Life(stage: Stage, hooks: seq<Hook>, draining: seq<Hook>, immediate: seq<Hook>,
                       closeErr: int, log: seq<Effect>)

  const NewLife := Life(Open, [], [], [], 0, [])

  predicate Closed(l: Life) {
    l.stage == Draining || l.stage == Done
  }

  datatype Act =
    | OnClose(hook: Hook)          // registration, under the mutex
    | BeginClose                   // a Close that wins the once; every other Close waits for it to finish
    | EndCleanup(err: int)         // cleanup returned: mark closed and take the hooks
    | RunNext                      // Close runs the next taken hook, or finishes
    | RunImmediate(index: nat)     // a late registration runs its callback
    | ReturnClose                  // some Close, the winning one or one that waited, returns

  function Step(l: Life, act: Act): Life {
    match act
    case OnClose(hook) =>
      if Closed(l) then l.(immediate := l.immediate + [hook]) else l.(hooks := l.hooks + [hook])
    case BeginClose =>
      if l.stage == Open then l.(stage := Cleaning, log := l.log + [CleanupStarted]) else l
    case EndCleanup(err) =>
      if l.stage == Cleaning then
        l.(stage := Draining, draining := l.hooks, hooks := [], closeErr := err,
           log := l.log + [CleanupEnded(err)])
      else l
    case RunNext =>
      if l.stage != Draining then l
      else if l.draining == [] then l.(stage := Done)
      else l.(draining := l.draining[1..], log := l.log + [Ran(l.draining[0])])
    case RunImmediate(i) =>
      if i < |l.immediate| then
        l.(immediate := l.immediate[..i] + l.immediate[i + 1..], log := l.log + [Ran(l.immediate[i])])
      else l
    case ReturnClose =>
      if l.stage == Done then l.(log := l.log + [Returned(l.closeErr)]) else l
  }

  function Exec(l: Life, acts: seq<Act>): Life
    decreases |acts|
  {
    if acts == [] then l else Exec(Step(l, acts[0]), acts[1..])
  }

  function Registered(acts: seq<Act>): multiset<Hook>
    decreases |acts|
  {
    if acts == [] then multiset{}
    else (if acts[0].OnClose? then multiset{acts[0].hook} else multiset{}) + Registered(acts[1..])
  }

  function RanHooks(log: seq<Effect>): multiset<Hook> {
    if log == [] then multiset{}
    else RanHooks(log[..|log| - 1]) + (if log[|log| - 1].Ran? then multiset{log[|log| - 1].hook} else multiset{})
  }

  /** Callbacks registered and not yet run. */
  function Pending(l: Life): multiset<Hook> {
    multiset(l.hooks) + multiset(l.draining) + multiset(l.immediate)
  }

  /** Cleanup runs at most once and completely before any hook. */
  ghost predicate Ordered(log: seq<Effect>) {
    && (forall i :: 0 <= i < |log| && log[i] == CleanupStarted ==> i == 0)
    && (forall i :: 0 <= i < |log| && log[i].CleanupEnded? ==> i == 1)
    && (forall i :: 0 <= i < |log| && (log[i].Ran? || log[i].Returned?) ==> i > 1)
  }

  ghost predicate Sound(l: Life) {
    && Ordered(l.log)
    && (l.stage == Open ==> l.log == [])
    && (l.stage == Cleaning ==> l.log == [CleanupStarted])
    && (Closed(l) ==> |l.log| >= 2 && l.hooks == [] && l.log[1] == CleanupEnded(l.closeErr))
    && (forall i :: 0 <= i < |l.log| && l.log[i].Returned? ==> l.stage == Done && l.log[i].err == l.closeErr)
    && (!Closed(l) ==> l.draining == [] && l.immediate == [])
    && (l.stage == Done ==> l.draining == [])
  }

  lemma RanAppend(log: seq<Effect>, e: Effect)
    ensures RanHooks(log + [e]) == RanHooks(log) + (if e.Ran? then multiset{e.hook} else multiset{})
  {
    assert (log + [e])[..|log|] == log;
  }

  lemma SplitAt(s: seq<Hook>, i: nat)
    requires i < |s|
    ensures multiset(s) == multiset(s[..i] + s[i + 1..]) + multiset{s[i]}
  {
    assert s == s[..i] + [s[i]] + s[i + 1..];
  }

  lemma StepKeepsSound(l: Life, act: Act)
    requires Sound(l)
    ensures Sound(Step(l, act))
  {
  }

  function Total(l: Life): multiset<Hook> {
    RanHooks(l.log) + Pending(l)
  }

  lemma RegistrationConserves(l: Life, hook: Hook)
    ensures Total(Step(l, OnClose(hook))) == Total(l) + multiset{hook}
  {
    assert multiset(l.immediate + [hook]) == multiset(l.immediate) + multiset{hook};
    assert multiset(l.hooks + [hook]) == multiset(l.hooks) + multiset{hook};
  }

  lemma Shift(ran: multiset<Hook>, a: multiset<Hook>, b: multiset<Hook>, hook: multiset<Hook>)
    ensures (ran + hook) + (a + b) == ran + (a + (b + hook))
  {
  }

  lemma TailCount(hooks: seq<Hook>, h: Hook)
    requires hooks != []
    ensures multiset(hooks)[h] == multiset(hooks[1..])[h] + (if h == hooks[0] then 1 else 0)
  {
    assert hooks == [hooks[0]] + hooks[1..];
  }

  lemma RunNextConserves(l: Life)
    ensures Total(Step(l, RunNext)) == Total(l)
  {
    if l.stage == Draining && l.draining != [] {
      var l' := Step(l, RunNext);
      forall h ensures Total(l')[h] == Total(l)[h] { RunNextCounts(l, h); }
    }
  }

  lemma RunNextCounts(l: Life, h: Hook)
    requires l.stage == Draining && l.draining != []
    ensures Total(Step(l, RunNext))[h] == Total(l)[h]
  {
    RanAppend(l.log, Ran(l.draining[0]));
    TailCount(l.draining, h);
  }

  lemma RunImmediateConserves(l: Life, i: nat)
    ensures Total(Step(l, RunImmediate(i))) == Total(l)
  {
    if i < |l.immediate| {
      var rest, hook := l.immediate[..i] + l.immediate[i + 1..], l.immediate[i];
      RanAppend(l.log, Ran(hook));
      SplitAt(l.immediate, i);
      Shift(RanHooks(l.log), multiset(l.hooks) + multiset(l.draining), multiset(rest), multiset{hook});
    }
  }

  lemma CloseConserves(l: Life, act: Act)
    requires Sound(l) && (act.BeginClose? || act.EndCleanup?)
    ensures Total(Step(l, act)) == Total(l)
  {
    RanAppend(l.log, CleanupStarted);
    if act.EndCleanup? { RanAppend(l.log, CleanupEnded(act.err)); }
    if act.EndCleanup? && l.stage == Cleaning {
      assert l.draining == [] && Step(l, act).hooks == [];
    }
  }

  /** Each step conserves callbacks: none is lost and none is duplicated. */
  lemma StepConserves(l: Life, act: Act)
    requires Sound(l)
    ensures Total(Step(l, act)) == Total(l) + (if act.OnClose? then multiset{act.hook} else multiset{})
  {
    match act
    case OnClose(hook) => RegistrationConserves(l, hook);
    case BeginClose => CloseConserves(l, act);
    case EndCleanup(err) => CloseConserves(l, act);
    case RunNext => RunNextConserves(l);
    case RunImmediate(i) => RunImmediateConserves(l, i);
    case ReturnClose => RanAppend(l.log, Returned(l.closeErr));
  }

  lemma {:induction false} ExecConserves(l: Life, acts: seq<Act>)
    requires Sound(l)
    ensures Sound(Exec(l, acts))
    ensures Total(Exec(l, acts)) == Total(l) + Registered(acts)
    decreases |acts|
  {
    if acts != [] {
      StepKeepsSound(l, acts[0]);
      StepConserves(l, acts[0]);
      ExecConserves(Step(l, acts[0]), acts[1..]);
    }
  }

  /** In every interleaving: cleanup starts at most once, hooks run only after it ended, and once Close is done and
      no late registration is still on its way, every registered callback has run exactly as often as registered. */
  lemma EveryHookRunsOnceAfterCleanup(acts: seq<Act>)
    ensures var l := Exec(NewLife, acts);
      && Ordered(l.log)
      && RanHooks(l.log) <= Registered(acts)
      && (l.stage == Done && l.immediate == [] ==> RanHooks(l.log) == Registered(acts))
  {
    ExecConserves(NewLife, acts);
    assert Total(NewLife) == multiset{};
    var l := Exec(NewLife, acts);
    assert Total(l) == Registered(acts);
    assert RanHooks(l.log) <= Total(l);
    if l.stage == Done && l.immediate == [] { assert Pending(l) == multiset{}; }
  }

  /** Every Close that returns, in every interleaving, reports the error of the one cleanup, and does so only after
      all the hooks that Close had taken were run. */
  lemma EveryCloseReportsTheCleanup(acts: seq<Act>)
    ensures var l := Exec(NewLife, acts);
      forall i :: 0 <= i < |l.log| && l.log[i].Returned? ==>
        |l.log| > 1 && l.log[1] == CleanupEnded(l.log[i].err) && l.draining == []
  {
    ExecConserves(NewLife, acts);
  }

  /** The hook that a step runs, if any. */
  function HookRun(l: Life, act: Act): Option<Hook> {
    match act
    case RunNext => if l.stage == Draining && l.draining != [] then Some(l.draining[0]) else None
    case RunImmediate(i) => if i < |l.immediate| then Some(l.immediate[i]) else None
    case _ => None
  }

  /** What a step adds to the log. */
  function Added(l: Life, act: Act): seq<Effect> {
    match act
    case OnClose(_) => []
    case BeginClose => if l.stage == Open then [CleanupStarted] else []
    case EndCleanup(err) => if l.stage == Cleaning then [CleanupEnded(err)] else []
    case ReturnClose => if l.stage == Done then [Returned(l.closeErr)] else []
    case _ => if HookRun(l, act).Some? then [Ran(HookRun(l, act).value)] else []
  }

  lemma LogGrows(l: Life, act: Act)
    ensures Step(l, act).log == l.log + Added(l, act)
  {
  }

  lemma RanCount(log: seq<Effect>, e: Effect, h: Hook)
    ensures RanHooks(log + [e])[h] == RanHooks(log)[h] + (if e == Ran(h) then 1 else 0)
  {
    RanAppend(log, e);
  }

  lemma HookRunCounts(l: Life, act: Act, h: Hook)
    ensures RanHooks(Step(l, act).log)[h] == RanHooks(l.log)[h] + (if HookRun(l, act) == Some(h) then 1 else 0)
  {
    LogGrows(l, act);
    var added := Added(l, act);
    if added == [] {
      assert l.log + added == l.log;
    } else {
      assert added == [added[0]];
      RanCount(l.log, added[0], h);
    }
  }

  // ---------------------------------------------------------------------------------------------
  // The object

  class LifetimeObject {
    var stage: Stage
    var hooks: seq<Hook>
    var draining: seq<Hook>
    var immediate: seq<Hook>
    var closeErr: int
    ghost var log: seq<Effect>

    ghost function State(): Life
      reads this
    {
      Life(stage, hooks, draining, immediate, closeErr, log)
    }

    constructor ()
      ensures State() == NewLife
    {
      stage, hooks, draining, immediate, closeErr, log := Open, [], [], [], 0, [];
    }

    /** OnClose up to its Unlock; the result tells the caller to run the callback itself. */
    method OnClose(hook: Hook) returns (runNow: bool)
      modifies this
      ensures State() == Step(old(State()), Act.OnClose(hook))
      ensures runNow == old(Closed(State()))
    {
      runNow := stage == Draining || stage == Done;
      if runNow { immediate := immediate + [hook]; } else { hooks := hooks + [hook]; }
    }

    /** Close, up to its return: the winner runs cleanup and then the taken hooks in registration order; any other
        Close waits until that is done. `late` are the registrations other goroutines make while cleanup runs and
        `err` is what it returns. */
    method Close(late: seq<Hook>, err: int) returns (closeResult: int)
      requires Sound(State())
      modifies this
      ensures Sound(State()) && stage == Done && closeResult == closeErr
      ensures closeErr == if old(Closed(State())) then old(closeErr) else err
      ensures log == old(log) + RestOfClose(old(State()), late, err)
      ensures old(stage) == Done ==> State() == old(State())
    {
      if stage == Done { return closeErr; }
      if stage == Open { stage, log := Cleaning, log + [CleanupStarted]; }
      if stage == Cleaning { FinishCleanup(late, err); }
      DrainHooks();
      closeResult := closeErr;
    }

    /** The taken hooks, one after the other. */
    method DrainHooks()
      requires Sound(State()) && stage == Draining
      modifies this
      ensures Sound(State()) && stage == Done && closeErr == old(closeErr)
      ensures log == old(log) + RunAll(old(draining))
    {
      ghost var taken, i := draining, 0;
      while draining != []
        invariant 0 <= i <= |taken| && draining == taken[i..] && stage == Draining && closeErr == old(closeErr)
        invariant log == old(log) + RunAll(taken[..i]) && Sound(State())
        decreases |draining|
      {
        ghost var before := State();
        RunAllAppend(taken, i);
        log := log + [Ran(draining[0])];
        draining, i := draining[1..], i + 1;
        assert State() == Step(before, RunNext);
        StepKeepsSound(before, RunNext);
      }
      assert taken[..i] == taken;
      stage := Done;
    }

    /** The cleanup callback, until the hooks are taken. */
    method FinishCleanup(late: seq<Hook>, err: int)
      requires Sound(State()) && stage == Cleaning
      modifies this
      ensures Sound(State()) && stage == Draining && closeErr == err && immediate == []
      ensures draining == old(hooks) + late && hooks == [] && log == old(log) + [CleanupEnded(err)]
    {
      for i := 0 to |late|
        invariant stage == Cleaning && log == old(log) && hooks == old(hooks) + late[..i]
        invariant immediate == [] && draining == []
      {
        hooks := hooks + [late[i]];
      }
      assert late[..|late|] == late;
      stage, draining, hooks, closeErr, log := Draining, hooks, [], err, log + [CleanupEnded(err)];
    }
  }

  /** What is still to happen before a Close that finds the Lifetime in this state can return. */
  function RestOfClose(l: Life, late: seq<Hook>, err: int): seq<Effect> {
    match l.stage
    case Open => [CleanupStarted, CleanupEnded(err)] + RunAll(l.hooks + late)
    case Cleaning => [CleanupEnded(err)] + RunAll(l.hooks + late)
    case Draining => RunAll(l.draining)
    case Done => []
  }

  function RunAll(hooks: seq<Hook>): seq<Effect> {
    seq(|hooks|, i requires 0 <= i < |hooks| => Ran(hooks[i]))
  }

  lemma RunAllAppend(taken: seq<Hook>, i: nat)
    requires i < |taken|
    ensures RunAll(taken[..i + 1]) == RunAll(taken[..i]) + [Ran(taken[i])]
  {
    assert taken[..i + 1] == taken[..i] + [taken[i]];
  }
}
