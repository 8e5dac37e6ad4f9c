/** Bulkhead (bulkhead.go): a semaphore permit is held by the call, then by a release hook on the Lifetime of an
    owned result. Any number of calls, results and closings interleave; results may even share a Lifetime. */
module Bulkhead {
  import opened Wrappers
  import opened Lifetime

  /** Calls are numbered from zero; negative hooks belong to others. */
  type Call = nat
  type LifeId = nat

  datatype Phase = InFlight | Held(life: LifeId) | Released

  datatype State = State(limit: nat, occupancy: int, calls: map<Call, Phase>, lives: map<LifeId, Life>,
                         releases: seq<Call>)

  datatype Step =
    | Call(call: Call)                      // the select on the semaphore
    | ReturnValue(call: Call)               // next returned a result without Lifetime (or panicked)
    | ReturnOwned(call: Call, life: LifeId) // next returned an owned result
    | Other(life: LifeId, hook: Hook)       // someone else registers a hook
    | Live(life: LifeId, act: Act)          // Close, cleanup and hooks of a Lifetime

  function LifeOf(s: State, id: LifeId): Life {
    if id in s.lives then s.lives[id] else NewLife
  }

  function Release(s: State, call: Call): State {
    s.(occupancy := s.occupancy - 1, calls := s.calls[call := Released], releases := s.releases + [call])
  }

  function Do(s: State, step: Step): State {
    match step
    case Call(c) =>
      if c in s.calls || s.occupancy >= s.limit then s
      else s.(occupancy := s.occupancy + 1, calls := s.calls[c := InFlight])
    case ReturnValue(c) =>
      if c in s.calls && s.calls[c] == InFlight then Release(s, c) else s
    case ReturnOwned(c, id) =>
      if c in s.calls && s.calls[c] == InFlight then
        s.(calls := s.calls[c := Held(id)], lives := s.lives[id := Lifetime.Step(LifeOf(s, id), OnClose(c))])
      else s
    case Other(id, hook) =>
      if hook < 0 then s.(lives := s.lives[id := Lifetime.Step(LifeOf(s, id), OnClose(hook))]) else s
    case Live(id, act) =>
      if act.OnClose? then s
      else
        var ran := HookRun(LifeOf(s, id), act);
        var moved := s.(lives := s.lives[id := Lifetime.Step(LifeOf(s, id), act)]);
        if ran.Some? && ran.value >= 0 then Release(moved, ran.value) else moved
  }

  function Exec(s: State, steps: seq<Step>): State
    decreases |steps|
  {
    if steps == [] then s else Exec(Do(s, steps[0]), steps[1..])
  }

  function New(limit: nat): State {
    State(limit, 0, map[], map[], [])
  }

  function Holding(calls: map<Call, Phase>): set<Call> {
    set c | c in calls && calls[c] != Released
  }

  /** How often the call's release hook waits on this Lifetime. */
  function Owed(s: State, id: LifeId, call: Call): nat {
    Pending(LifeOf(s, id))[call]
  }

  ghost predicate Counted(s: State) {
    && s.occupancy == |Holding(s.calls)| && s.occupancy <= s.limit
    && NoRepeats(s.releases)
    && (forall i :: 0 <= i < |s.releases| ==> s.releases[i] in s.calls && s.calls[s.releases[i]] == Released)
  }

  ghost predicate Linked(s: State) {
    && (forall id: LifeId :: Sound(LifeOf(s, id)))
    && (forall id: LifeId, c: Call :: Settles(s, id, c))
  }

  predicate HeldBy(calls: map<Call, Phase>, id: LifeId, c: Call) {
    c in calls && calls[c] == Held(id)
  }

  /** A Lifetime owes a call's permit once while it holds it, and never otherwise. */
  predicate Settles(s: State, id: LifeId, c: Call) {
    Owed(s, id, c) == if HeldBy(s.calls, id, c) then 1 else 0
  }

  /** The step adds (or removes) exactly one waiting occurrence of `hook`. */
  ghost predicate OneMore(less: Life, more: Life, hook: Hook) {
    forall h :: Pending(more)[h] == Pending(less)[h] + (if h == hook then 1 else 0)
  }

  ghost predicate SamePending(l: Life, l': Life) {
    forall h :: Pending(l')[h] == Pending(l)[h]
  }

  lemma NextHookShifts(l: Life)
    requires l.stage == Draining && l.draining != []
    ensures OneMore(Lifetime.Step(l, RunNext), l, l.draining[0])
  {
    var l' := Lifetime.Step(l, RunNext);
    forall h ensures Pending(l)[h] == Pending(l')[h] + (if h == l.draining[0] then 1 else 0) {
      TailCount(l.draining, h);
    }
  }

  lemma ImmediateHookShifts(l: Life, i: nat)
    requires i < |l.immediate|
    ensures OneMore(Lifetime.Step(l, RunImmediate(i)), l, l.immediate[i])
  {
    SplitAt(l.immediate, i);
  }

  lemma HookRunShifts(l: Life, act: Act)
    requires !act.OnClose? && Sound(l)
    ensures var ran := HookRun(l, act);
      if ran.Some? then OneMore(Lifetime.Step(l, act), l, ran.value) else SamePending(l, Lifetime.Step(l, act))
  {
    match act
    case RunNext => if l.stage == Draining && l.draining != [] { NextHookShifts(l); }
    case RunImmediate(i) => if i < |l.immediate| { ImmediateHookShifts(l, i); }
    case EndCleanup(_) =>
      if l.stage == Cleaning { assert Pending(Lifetime.Step(l, act)) == Pending(l); }
    case BeginClose =>
    case ReturnClose =>
  }

  lemma RegistrationAdds(l: Life, hook: Hook)
    ensures OneMore(l, Lifetime.Step(l, OnClose(hook)), hook)
  {
    assert multiset(l.immediate + [hook]) == multiset(l.immediate) + multiset{hook};
    assert multiset(l.hooks + [hook]) == multiset(l.hooks) + multiset{hook};
  }

  lemma HoldingChanges(calls: map<Call, Phase>, c: Call, phase: Phase)
    ensures phase != Released ==> Holding(calls[c := phase]) == Holding(calls) + {c}
    ensures phase == Released ==> Holding(calls[c := phase]) == Holding(calls) - {c}
  {
  }

  lemma ReleaseKeepsCounted(s: State, c: Call)
    requires Counted(s) && c in s.calls && s.calls[c] != Released
    ensures Counted(Release(s, c))
  {
    HoldingChanges(s.calls, c, Released);
    assert c in Holding(s.calls);
  }

  lemma StepKeepsCounted(s: State, step: Step)
    requires Counted(s) && Linked(s)
    ensures Counted(Do(s, step))
  {
    match step
    case Call(c) => HoldingChanges(s.calls, c, InFlight);
    case ReturnValue(c) => if c in s.calls && s.calls[c] == InFlight { ReleaseKeepsCounted(s, c); }
    case ReturnOwned(c, id) =>
      HoldingChanges(s.calls, c, Held(id));
      if c in s.calls && s.calls[c] == InFlight { assert Holding(s.calls) + {c} == Holding(s.calls); }
    case Other(id, hook) =>
    case Live(id, act) =>
      var ran := HookRun(LifeOf(s, id), act);
      if !act.OnClose? && ran.Some? && ran.value >= 0 {
        HookRunShifts(LifeOf(s, id), act);
        assert Owed(s, id, ran.value) >= 1 && Settles(s, id, ran.value);
        var moved := s.(lives := s.lives[id := Lifetime.Step(LifeOf(s, id), act)]);
        ReleaseKeepsCounted(moved, ran.value);
      }
  }

  /** Linked, re-established after one Lifetime and the phase of at most one call changed together. */
  lemma Relink(s: State, s': State, id: LifeId)
    requires Linked(s)
    requires forall i: LifeId :: i != id ==> LifeOf(s', i) == LifeOf(s, i)
    requires forall i: LifeId, c: Call :: i != id ==> HeldBy(s'.calls, i, c) == HeldBy(s.calls, i, c)
    requires Sound(LifeOf(s', id))
    requires forall c: Call :: Settles(s', id, c)
    ensures Linked(s')
  {
    forall i: LifeId, c: Call ensures Settles(s', i, c) { assert Settles(s, i, c); }
    forall i: LifeId ensures Sound(LifeOf(s', i)) { assert Sound(LifeOf(s, i)); }
  }

  lemma RegistrationSettles(s: State, s': State, id: LifeId, hook: Hook, c: Call)
    requires Settles(s, id, c) && OneMore(LifeOf(s, id), LifeOf(s', id), hook)
    requires hook < 0 ==> s'.calls == s.calls
    requires hook >= 0 ==> hook in s.calls && s.calls[hook] == InFlight && s'.calls == s.calls[hook := Held(id)]
    ensures Settles(s', id, c)
  {
    assert Pending(LifeOf(s', id))[c] == Pending(LifeOf(s, id))[c] + (if c == hook then 1 else 0);
  }

  lemma RegistrationKeepsLinked(s: State, s': State, id: LifeId, hook: Hook)
    requires Linked(s)
    requires s'.lives == s.lives[id := Lifetime.Step(LifeOf(s, id), OnClose(hook))]
    requires hook < 0 ==> s'.calls == s.calls
    requires hook >= 0 ==> hook in s.calls && s.calls[hook] == InFlight && s'.calls == s.calls[hook := Held(id)]
    ensures Linked(s')
  {
    RegistrationAdds(LifeOf(s, id), hook);
    StepKeepsSound(LifeOf(s, id), OnClose(hook));
    forall c: Call ensures Settles(s', id, c) { RegistrationSettles(s, s', id, hook, c); }
    Relink(s, s', id);
  }

  lemma RunSettles(s: State, s': State, id: LifeId, hook: Hook, c: Call)
    requires Settles(s, id, c) && OneMore(LifeOf(s', id), LifeOf(s, id), hook)
    requires s'.calls == if hook >= 0 then s.calls[hook := Released] else s.calls
    ensures Settles(s', id, c)
  {
    assert Pending(LifeOf(s, id))[c] == Pending(LifeOf(s', id))[c] + (if c == hook then 1 else 0);
  }

  lemma RunKeepsLinked(s: State, s': State, id: LifeId, hook: Hook)
    requires Linked(s) && Sound(LifeOf(s', id)) && OneMore(LifeOf(s', id), LifeOf(s, id), hook)
    requires forall i: LifeId :: i != id ==> LifeOf(s', i) == LifeOf(s, i)
    requires s'.calls == if hook >= 0 then s.calls[hook := Released] else s.calls
    ensures Linked(s')
  {
    forall c: Call ensures Settles(s', id, c) {
      assert Settles(s, id, c);
      RunSettles(s, s', id, hook, c);
    }
    if hook >= 0 {
      assert Pending(LifeOf(s, id))[hook] >= 1;
      assert Settles(s, id, hook);
    }
    Relink(s, s', id);
  }

  lemma QuietKeepsLinked(s: State, s': State, id: LifeId)
    requires Linked(s) && Sound(LifeOf(s', id)) && SamePending(LifeOf(s, id), LifeOf(s', id))
    requires s'.calls == s.calls && forall i: LifeId :: i != id ==> LifeOf(s', i) == LifeOf(s, i)
    ensures Linked(s')
  {
    forall c: Call ensures Settles(s', id, c) {
      assert Settles(s, id, c);
      assert Pending(LifeOf(s', id))[c] == Pending(LifeOf(s, id))[c];
    }
    Relink(s, s', id);
  }

  /** A step of one Lifetime: that Lifetime moves, and a release hook that ran ends its call. */
  lemma LiveMoves(s: State, id: LifeId, act: Act)
    requires !act.OnClose?
    ensures var s', ran := Do(s, Live(id, act)), HookRun(LifeOf(s, id), act);
      && LifeOf(s', id) == Lifetime.Step(LifeOf(s, id), act)
      && (forall i: LifeId :: i != id ==> LifeOf(s', i) == LifeOf(s, i))
      && s'.calls == if ran.Some? && ran.value >= 0 then s.calls[ran.value := Released] else s.calls
  {
  }

  lemma LiveKeepsLinked(s: State, id: LifeId, act: Act)
    requires Linked(s) && !act.OnClose?
    ensures Linked(Do(s, Live(id, act)))
  {
    var life := LifeOf(s, id);
    assert Sound(life);
    LiveMoves(s, id, act);
    HookRunShifts(life, act);
    StepKeepsSound(life, act);
    if HookRun(life, act).Some? {
      RunKeepsLinked(s, Do(s, Live(id, act)), id, HookRun(life, act).value);
    } else {
      QuietKeepsLinked(s, Do(s, Live(id, act)), id);
    }
  }

  lemma PlainKeepsLinked(s: State, s': State, c: Call)
    requires Linked(s) && (c in s.calls ==> s.calls[c] == InFlight)
    requires s'.lives == s.lives && (s'.calls == s.calls[c := InFlight] || s'.calls == s.calls[c := Released])
    ensures Linked(s')
  {
    forall i: LifeId, d: Call ensures Settles(s', i, d) {
      assert Settles(s, i, d);
      assert HeldBy(s'.calls, i, d) == HeldBy(s.calls, i, d);
    }
    forall i: LifeId ensures Sound(LifeOf(s', i)) { assert LifeOf(s', i) == LifeOf(s, i); }
  }

  lemma StepKeepsLinked(s: State, step: Step)
    requires Linked(s)
    ensures Linked(Do(s, step))
  {
    match step
    case Call(c) => if c !in s.calls && s.occupancy < s.limit { PlainKeepsLinked(s, Do(s, step), c); }
    case ReturnValue(c) => if c in s.calls && s.calls[c] == InFlight { PlainKeepsLinked(s, Do(s, step), c); }
    case ReturnOwned(c, id) =>
      if c in s.calls && s.calls[c] == InFlight { RegistrationKeepsLinked(s, Do(s, step), id, c); }
    case Other(id, hook) => if hook < 0 { RegistrationKeepsLinked(s, Do(s, step), id, hook); }
    case Live(id, act) => if !act.OnClose? { LiveKeepsLinked(s, id, act); }
  }

  lemma {:induction false} ExecKeeps(s: State, steps: seq<Step>)
    requires Counted(s) && Linked(s)
    ensures Counted(Exec(s, steps)) && Linked(Exec(s, steps)) && Exec(s, steps).limit == s.limit
    decreases |steps|
  {
    if steps != [] {
      StepKeepsCounted(s, steps[0]);
      StepKeepsLinked(s, steps[0]);
      ExecKeeps(Do(s, steps[0]), steps[1..]);
    }
  }

  lemma NothingOwedWhenDone(s: State, id: LifeId, c: Call)
    requires Linked(s)
    requires id in s.lives ==> s.lives[id].stage == Done && s.lives[id].immediate == []
    ensures !HeldBy(s.calls, id, c)
  {
    var l := LifeOf(s, id);
    assert Sound(l) && l.hooks == [] && l.draining == [] && l.immediate == [];
    assert Owed(s, id, c) == 0 && Settles(s, id, c);
  }

  /** In every interleaving the semaphore counts exactly the calls in flight plus the permits whose release hook has
      not run, never exceeds the limit, and no permit is released twice. When nothing is in flight and every
      Lifetime has finished closing, no permit is lost. */
  lemma PermitsAreConserved(limit: nat, steps: seq<Step>)
    ensures var s := Exec(New(limit), steps);
      && s.occupancy == |Holding(s.calls)| <= limit
      && NoRepeats(s.releases)
      && (forall c, id :: c in s.calls && s.calls[c] == Held(id) ==> Pending(LifeOf(s, id))[c] == 1)
      && ((forall c :: c in s.calls ==> s.calls[c] != InFlight)
          && (forall id: LifeId :: id in s.lives ==> s.lives[id].stage == Done && s.lives[id].immediate == [])
          ==> s.occupancy == 0)
  {
    var s0 := New(limit);
    assert Counted(s0) && Linked(s0);
    ExecKeeps(s0, steps);
    var s := Exec(s0, steps);
    forall c, id | c in s.calls && s.calls[c] == Held(id) ensures Pending(LifeOf(s, id))[c] == 1 {
      assert Settles(s, id, c);
    }
    if (forall c :: c in s.calls ==> s.calls[c] != InFlight)
       && (forall id: LifeId :: id in s.lives ==> s.lives[id].stage == Done && s.lives[id].immediate == []) {
      forall c | c in s.calls ensures s.calls[c] == Released {
        if s.calls[c].Held? { NothingOwedWhenDone(s, s.calls[c].life, c); }
      }
      assert Holding(s.calls) == {};
    }
  }

  /** When permits move: a new call takes one exactly if one is free; a plain return gives it back; an owned result
      keeps it and leaves one hook on its Lifetime; and that hook, once run, gives it back. */
  lemma PermitsMoveExactly(s: State, c: Call, id: LifeId, act: Act)
    ensures Do(s, Step.Call(c))
         == if c !in s.calls && s.occupancy < s.limit
            then s.(occupancy := s.occupancy + 1, calls := s.calls[c := InFlight]) else s
    ensures c in s.calls && s.calls[c] == InFlight ==>
      && GivesBack(s, c, Do(s, ReturnValue(c)))
      && var t := Do(s, ReturnOwned(c, id));
         t.calls == s.calls[c := Held(id)] && t.occupancy == s.occupancy && OneMore(LifeOf(s, id), LifeOf(t, id), c)
    ensures !act.OnClose? && HookRun(LifeOf(s, id), act) == Some(c) ==> GivesBack(s, c, Do(s, Live(id, act)))
  {
    RegistrationAdds(LifeOf(s, id), c);
  }

  predicate GivesBack(s: State, c: Call, t: State) {
    t.occupancy == s.occupancy - 1 && t.calls == s.calls[c := Released] && t.releases == s.releases + [c]
  }
}
