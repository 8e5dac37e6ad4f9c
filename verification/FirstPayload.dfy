/** FirstSuccessfulPayload (smart.go): handlers run in parallel, the first terminal payload in completion order
    wins, everything else is cancelled and closed. Completions pass through one channel, so an interleaving is
    a completion order together with the point at which the collector saw the caller's cancellation. */
module FirstPayload {
  import opened Wrappers
  import opened Lifetime

  datatype Action = Next | Stop | Abort | Undeclared

  /** What one branch sends: its index, the returned result and whether it returned an error. */
  datatype Completion = Completion(index: nat, life: Option<int>, action: Action, hasPayload: bool, failed: bool)

  /** What the caller gets. Errors are told apart by the branches that raised them; with none of them the
      source reports ErrNoSuccessfulOutcome. */
  datatype Returned =
    | Winner(result: Completion)
    | Invalid(rejected: Completion)
    | Cancelled
    | NoSuccess(errors: set<nat>)

  predicate Validates(c: Completion) {
    c.action == Next || c.action == Stop
  }

  predicate Wins(c: Completion) {
    !c.failed && Validates(c) && c.action != Next && c.hasPayload
  }

  predicate Rejected(c: Completion) {
    !c.failed && !Validates(c)
  }

  /** The collector stops at the first completion that wins or breaks the action contract. */
  predicate Decides(c: Completion) {
    Wins(c) || Rejected(c)
  }

  /** A winner stopped with a payload and without error; a result without error that neither stops nor goes on is
      rejected. */
  lemma DecidesExactly(c: Completion)
    ensures Wins(c) <==> c == Completion(c.index, c.life, Stop, true, false)
    ensures Rejected(c) <==> !c.failed && (c.action == Abort || c.action == Undeclared)
  {
  }

  predicate FirstDecision(order: seq<Completion>, k: nat) {
    k < |order| && Decides(order[k]) && forall i :: 0 <= i < k ==> !Decides(order[i])
  }

  function Failed(order: seq<Completion>): set<nat> {
    set i | 0 <= i < |order| && order[i].failed :: order[i].index
  }

  function Lives(order: seq<Completion>): set<int> {
    set i | 0 <= i < |order| && order[i].life.Some? :: order[i].life.value
  }

  /** Each branch completes once, and no two results share a Lifetime. */
  ghost predicate Distinct(order: seq<Completion>) {
    && (forall i, j :: 0 <= i < j < |order| ==> order[i].index != order[j].index)
    && (forall i, j :: 0 <= i < j < |order| && order[i].life.Some? ==> order[i].life != order[j].life)
  }

  /** The Lifetime that stays open: the winner's. */
  function Kept(r: Returned): set<int> {
    if Owned(r) then {r.result.life.value} else {}
  }

  predicate Owned(r: Returned) {
    r.Winner? && r.result.life.Some?
  }

  /** What the collector must answer for a completion order and a cancellation point, without running it. */
  ghost predicate Answers(order: seq<Completion>, cancelAt: nat, r: Returned) {
    match r
    case Winner(c) => exists k: nat :: FirstDecision(order, k) && k < cancelAt && order[k] == c && Wins(c)
    case Invalid(c) => exists k: nat :: FirstDecision(order, k) && k < cancelAt && order[k] == c && Rejected(c)
    case Cancelled => cancelAt <= |order| && forall i :: 0 <= i < cancelAt ==> !Decides(order[i])
    case NoSuccess(errors) =>
      |order| < cancelAt && (forall i :: 0 <= i < |order| ==> !Decides(order[i])) && errors == Failed(order)
  }

  /** That answer is unique: completion order decides, never registration order. */
  lemma AnswerIsUnique(order: seq<Completion>, cancelAt: nat, r: Returned, r': Returned)
    requires Answers(order, cancelAt, r) && Answers(order, cancelAt, r')
    ensures r == r'
  {
    if (r.Winner? || r.Invalid?) && (r'.Winner? || r'.Invalid?) {
      var k: nat :| FirstDecision(order, k) && k < cancelAt && order[k] == (if r.Winner? then r.result else r.rejected);
      var k': nat :|
        FirstDecision(order, k') && k' < cancelAt && order[k'] == (if r'.Winner? then r'.result else r'.rejected);
      assert k == k';
    }
  }

  lemma FailedGrows(order: seq<Completion>, k: nat)
    requires k < |order|
    ensures Failed(order[..k + 1]) == Failed(order[..k]) + (if order[k].failed then {order[k].index} else {})
  {
    var shorter, longer := order[..k], order[..k + 1];
    assert longer == shorter + [order[k]];
    forall x | x in Failed(shorter) ensures x in Failed(longer) {
      var i :| 0 <= i < |shorter| && shorter[i].failed && shorter[i].index == x;
      assert longer[i] == shorter[i];
    }
    if order[k].failed { assert longer[k] == order[k]; }
  }

  lemma LivesGrow(order: seq<Completion>, k: nat)
    requires k < |order|
    ensures Lives(order[..k + 1]) == Lives(order[..k]) + (if order[k].life.Some? then {order[k].life.value} else {})
  {
    var shorter, longer := order[..k], order[..k + 1];
    assert longer == shorter + [order[k]];
    forall x | x in Lives(shorter) ensures x in Lives(longer) {
      var i :| 0 <= i < |shorter| && shorter[i].life.Some? && shorter[i].life.value == x;
      assert longer[i] == shorter[i];
    }
    if order[k].life.Some? { assert longer[k] == order[k]; }
  }

  lemma LifeIsNew(order: seq<Completion>, k: nat)
    requires Distinct(order) && k < |order| && order[k].life.Some?
    ensures order[k].life.value !in Lives(order[..k])
  {
    forall i | 0 <= i < k ensures order[..k][i].life != order[k].life {
      assert order[..k][i] == order[i];
    }
  }

  /** collectFirstSuccessfulPayloadResult: the loop over the channel. `received` completions were received; all their
      Lifetimes are closed, except a winner's. */
  method Collect(order: seq<Completion>, cancelAt: nat) returns (r: Returned, received: nat, closed: set<int>)
    requires Distinct(order)
    ensures Answers(order, cancelAt, r)
    ensures received <= |order| && closed == Lives(order[..received]) - Kept(r) && Kept(r) <= Lives(order[..received])
  {
    received, closed := 0, {};
    var errors: set<nat> := {};
    while true
      invariant 0 <= received <= |order| && received <= cancelAt
      invariant forall i :: 0 <= i < received ==> !Decides(order[i])
      invariant errors == Failed(order[..received]) && closed == Lives(order[..received])
      decreases |order| - received
    {
      if received == cancelAt { return Cancelled, received, closed; }
      if received == |order| {
        assert order[..received] == order;
        return NoSuccess(errors), received, closed;
      }
      var c := order[received];
      FailedGrows(order, received);
      LivesGrow(order, received);
      received := received + 1;
      if Wins(c) {
        assert FirstDecision(order, received - 1);
        if c.life.Some? { LifeIsNew(order, received - 1); }
        return Winner(c), received, closed;
      }
      if c.life.Some? { closed := closed + {c.life.value}; }
      if c.failed { errors := errors + {c.index}; }
      if Rejected(c) {
        assert FirstDecision(order, received - 1);
        return Invalid(c), received, closed;
      }
    }
  }

  // ---------------------------------------------------------------------------------------------
  // The winner's context lives as long as its Lifetime

  /** A Lifetime and the branch contexts. Hook n >= 0 is the cancellation of branch n; negative hooks are others'. */
  datatype Held = Held(life: Life, cancelled: seq<bool>)

  function HeldStep(h: Held, act: Act): Held {
    var ran := HookRun(h.life, act);
    Held(Step(h.life, act),
         if ran.Some? && 0 <= ran.value < |h.cancelled| then h.cancelled[ran.value := true] else h.cancelled)
  }

  function HeldExec(h: Held, acts: seq<Act>): (h': Held)
    ensures |h'.cancelled| == |h.cancelled|
    decreases |acts|
  {
    if acts == [] then h else HeldExec(HeldStep(h, acts[0]), acts[1..])
  }

  /** No cancellation is registered by anyone else. */
  ghost predicate OthersOnly(acts: seq<Act>) {
    forall i :: 0 <= i < |acts| && acts[i].OnClose? ==> acts[i].hook < 0
  }

  ghost predicate NoCancels(l: Life) {
    Sound(l) && forall n: nat :: Total(l)[n] == 0
  }

  /** The winner's cancellation, and no other, belongs to the Lifetime, and is done exactly if that hook has run. */
  ghost predicate Follows(h: Held, winner: nat) {
    && Sound(h.life) && winner < |h.cancelled|
    && (forall n: nat :: Total(h.life)[n] == if n == winner then 1 else 0)
    && (h.cancelled[winner] <==> RanHooks(h.life.log)[winner] == 1)
  }

  /** Registrations by others leave the count of a branch's cancellation alone. */
  lemma TotalStays(l: Life, act: Act, n: nat)
    requires Sound(l) && (act.OnClose? ==> act.hook < 0)
    ensures Total(Step(l, act))[n] == Total(l)[n]
  {
    StepConserves(l, act);
  }

  ghost predicate SameTotals(l: Life, l': Life) {
    forall n: nat :: Total(l')[n] == Total(l)[n]
  }

  /** What StepFollows needs to know about a step, whichever it was. */
  lemma MoveFollows(h: Held, h': Held, ran: Option<Hook>, winner: nat)
    requires Follows(h, winner) && Sound(h'.life) && SameTotals(h.life, h'.life)
    requires RanHooks(h'.life.log)[winner] == RanHooks(h.life.log)[winner] + (if ran == Some(winner) then 1 else 0)
    requires RanHooks(h'.life.log)[winner] <= Total(h'.life)[winner]
    requires ran.Some? && ran.value >= 0 ==> Total(h'.life)[ran.value] >= 1
    requires h'.cancelled
          == if ran.Some? && 0 <= ran.value < |h.cancelled| then h.cancelled[ran.value := true] else h.cancelled
    ensures Follows(h', winner)
    ensures forall i :: 0 <= i < |h.cancelled| && i != winner ==> h'.cancelled[i] == h.cancelled[i]
  {
    assert Total(h'.life)[winner] == Total(h.life)[winner] == 1;
    if ran.Some? && ran.value >= 0 {
      var n: nat := ran.value;
      assert Total(h'.life)[n] == Total(h.life)[n];
      assert n == winner;
    }
  }

  lemma TotalsStay(l: Life, act: Act)
    requires Sound(l) && (act.OnClose? ==> act.hook < 0)
    ensures SameTotals(l, Step(l, act)) && Sound(Step(l, act))
  {
    StepKeepsSound(l, act);
    forall n: nat ensures Total(Step(l, act))[n] == Total(l)[n] { TotalStays(l, act, n); }
  }

  lemma RunsAreCounted(l: Life, l': Life, act: Act, winner: nat)
    requires l' == Step(l, act)
    ensures RanHooks(l'.log)[winner]
         == RanHooks(l.log)[winner] + (if HookRun(l, act) == Some(winner) then 1 else 0)
    ensures RanHooks(l'.log)[winner] <= Total(l')[winner]
    ensures HookRun(l, act).Some? && HookRun(l, act).value >= 0 ==> Total(l')[HookRun(l, act).value] >= 1
  {
    RanAtMostTotal(l, act, winner);
    HookRunCounts(l, act, winner);
    if HookRun(l, act).Some? && HookRun(l, act).value >= 0 { RanAtMostTotal(l, act, HookRun(l, act).value); }
  }

  lemma StepFollows(h: Held, act: Act, winner: nat)
    requires Follows(h, winner) && (act.OnClose? ==> act.hook < 0)
    ensures Follows(HeldStep(h, act), winner)
    ensures forall i :: 0 <= i < |h.cancelled| && i != winner ==> HeldStep(h, act).cancelled[i] == h.cancelled[i]
  {
    TotalsStay(h.life, act);
    RunsAreCounted(h.life, Step(h.life, act), act, winner);
    MoveFollows(h, HeldStep(h, act), HookRun(h.life, act), winner);
  }

  /** A hook that runs was registered. */
  lemma RanAtMostTotal(l: Life, act: Act, n: nat)
    ensures RanHooks(Step(l, act).log)[n] <= Total(Step(l, act))[n]
    ensures HookRun(l, act) == Some(n) ==> Total(Step(l, act))[n] >= 1
  {
    HookRunCounts(l, act, n);
  }

  lemma {:induction false} ExecFollows(h: Held, acts: seq<Act>, winner: nat)
    requires Follows(h, winner) && OthersOnly(acts)
    ensures Follows(HeldExec(h, acts), winner)
    ensures forall i :: 0 <= i < |h.cancelled| && i != winner ==> HeldExec(h, acts).cancelled[i] == h.cancelled[i]
    decreases |acts|
  {
    if acts != [] {
      StepFollows(h, acts[0], winner);
      ExecFollows(HeldStep(h, acts[0]), acts[1..], winner);
    }
  }

  lemma RegistrationFollows(l: Life, contexts: nat, winner: nat)
    requires NoCancels(l) && winner < contexts
    ensures Follows(Held(Step(l, OnClose(winner)), seq(contexts, _ => false)), winner)
  {
    StepKeepsSound(l, OnClose(winner));
    RegistrationConserves(l, winner);
    HookRunCounts(l, OnClose(winner), winner);
    assert Total(l)[winner] == 0;
  }

  /** Whatever is done to the winner's Lifetime after the call: its context is cancelled exactly when the hook has run,
      which is never before cleanup ended, and which has happened once the Lifetime is closed for good; all other
      contexts stay cancelled. */
  lemma WinnerContextEndsWithItsLifetime(h: Held, acts: seq<Act>, winner: nat)
    requires Follows(h, winner) && OthersOnly(acts)
    requires forall i :: 0 <= i < |h.cancelled| && i != winner ==> h.cancelled[i]
    ensures var h' := HeldExec(h, acts);
      && (h'.cancelled[winner] <==> RanHooks(h'.life.log)[winner] == 1)
      && (h'.cancelled[winner] ==> |h'.life.log| > 1 && h'.life.log[1].CleanupEnded?)
      && (h'.life.stage == Done && h'.life.immediate == [] ==> h'.cancelled[winner])
      && (forall i :: 0 <= i < |h'.cancelled| && i != winner ==> h'.cancelled[i])
  {
    ExecFollows(h, acts, winner);
    var h' := HeldExec(h, acts);
    assert Total(h'.life)[winner] == RanHooks(h'.life.log)[winner] + Pending(h'.life)[winner] == 1;
    if !Closed(h'.life) { NothingRanYet(h'.life); }
  }

  lemma NothingRanYet(l: Life)
    requires Sound(l) && !Closed(l)
    ensures RanHooks(l.log) == multiset{}
  {
    if l.stage == Cleaning { RanAppend([], CleanupStarted); }
  }

  /** FirstSuccessfulPayload, observed once every branch has returned: the answer, the closed Lifetimes, the branch
      contexts, and the Lifetimes, of which only an owned winner's got a hook. `during` is what other goroutines do
      to that Lifetime before the remaining branches are cancelled. */
  method FirstSuccessful(branches: nat, order: seq<Completion>, cancelAt: nat, lives: map<int, Life>, during: seq<Act>)
    returns (r: Returned, closed: set<int>, cancelled: seq<bool>, after: map<int, Life>)
    requires Distinct(order) && |order| == branches && forall i :: 0 <= i < |order| ==> order[i].index < branches
    requires forall c :: c in order && c.life.Some? ==> c.life.value in lives && NoCancels(lives[c.life.value])
    requires OthersOnly(during)
    ensures Answers(order, cancelAt, r)
    ensures closed == Lives(order) - Kept(r) && Kept(r) <= Lives(order)
    ensures |cancelled| == branches
    ensures !Owned(r) ==> after == lives && forall i :: 0 <= i < branches ==> cancelled[i]
    ensures Owned(r) ==>
      && r.result.life.value in after && after.Keys == lives.Keys
      && (forall id :: id in lives && id != r.result.life.value ==> after[id] == lives[id])
      && Follows(Held(after[r.result.life.value], cancelled), r.result.index)
      && (forall i :: 0 <= i < branches && i != r.result.index ==> cancelled[i])
  {
    var received;
    r, received, closed := Collect(order, cancelAt);
    after, cancelled := lives, seq(branches, _ => false);
    var winner: int := -1;
    if Owned(r) {
      // last.Lifetime.OnClose(cancels[winner])
      winner := r.result.index;
      WinnerCompleted(order, cancelAt, r);
      RegistrationFollows(lives[r.result.life.value], branches, winner);
      var h := HeldExec(Held(Step(lives[r.result.life.value], OnClose(winner)), cancelled), during);
      ExecFollows(Held(Step(lives[r.result.life.value], OnClose(winner)), cancelled), during, winner);
      after, cancelled := lives[r.result.life.value := h.life], h.cancelled;
    }
    cancelled := CancelOthers(cancelled, winner);
    closed := Drain(order, received, r, closed);
  }

  /** releaseFirstSuccessfulPayload: cancel every branch but the winner. */
  method CancelOthers(before: seq<bool>, winner: int) returns (cancelled: seq<bool>)
    ensures |cancelled| == |before|
    ensures forall i :: 0 <= i < |before| ==> cancelled[i] == if i == winner then before[i] else true
  {
    cancelled := before;
    for i := 0 to |before|
      invariant |cancelled| == |before|
      invariant forall j :: 0 <= j < i ==> cancelled[j] == if j == winner then before[j] else true
      invariant forall j :: i <= j < |before| ==> cancelled[j] == before[j]
    {
      if i != winner { cancelled := cancelled[i := true]; }
    }
  }

  /** releaseFirstSuccessfulPayload: drain and close late results. */
  method Drain(order: seq<Completion>, received: nat, r: Returned, before: set<int>) returns (closed: set<int>)
    requires Distinct(order) && received <= |order|
    requires before == Lives(order[..received]) - Kept(r) && Kept(r) <= Lives(order[..received])
    ensures closed == Lives(order) - Kept(r) && Kept(r) <= Lives(order)
  {
    closed := before;
    var k := received;
    while k < |order|
      invariant received <= k <= |order|
      invariant closed == Lives(order[..k]) - Kept(r) && Kept(r) <= Lives(order[..k])
    {
      LivesGrow(order, k);
      if order[k].life.Some? {
        LaterIsNotKept(order, r, received, k);
        closed := closed + {order[k].life.value};
      }
      k := k + 1;
    }
    assert order[..|order|] == order;
  }

  lemma WinnerCompleted(order: seq<Completion>, cancelAt: nat, r: Returned)
    requires Answers(order, cancelAt, r) && Owned(r)
    ensures r.result in order
  {
  }

  lemma LaterIsNotKept(order: seq<Completion>, r: Returned, received: nat, k: nat)
    requires Distinct(order) && received <= k < |order| && order[k].life.Some?
    requires Kept(r) <= Lives(order[..received])
    ensures order[k].life.value !in Kept(r)
  {
    LifeIsNew(order, k);
    forall x | x in Lives(order[..received]) ensures x in Lives(order[..k]) {
      var i :| 0 <= i < received && order[i].life == Some(x);
      assert order[..k][i] == order[i];
    }
  }
}
