/** All users of one Coordinator together. Boundary, Sequence and Race dispatch only through Boundary.run, and any
    number of its calls may overlap; what orders them is the Coordinator's mutex, under which each calls Begin. */
module Budget {
  import opened Wrappers
  import opened Attempt
  import Sequence

  /** One call of Boundary.run that got as far as Begin: the ledger Begin found, the identity, and the attempts for
      which the call invoked Dispatch. */
  datatype Call = Call(begun: Ledger, id: Identity, dispatched: seq<string>)

  /** The call dispatches nothing but its own identity, once, and only if Begin gave it a slot. */
  predicate Honours(c: Call) {
    c.dispatched != [] ==> c.dispatched == [c.id.attempt] && Allocates(c.begun, c.id)
  }

  function Keys(log: seq<Sequence.Dispatch>): seq<string> {
    seq(|log|, i requires 0 <= i < |log| => log[i].id.attempt)
  }

  lemma KeysAppend(log: seq<Sequence.Dispatch>, d: Sequence.Dispatch)
    ensures Keys(log + [d]) == Keys(log) + [d.id.attempt]
  {
  }

  /** Every call of Boundary.run is such a call, whatever the host answers and whatever others do meanwhile. */
  method RunBoundary(world: Sequence.World, context: Option<Time>, id: Identity, repeat: Option<Sequence.Repeat>,
                     timed: bool)
    returns (result: Sequence.BoundaryResult, err: Sequence.Failure, ghost call: Call)
    requires world.coordinator.Valid() && world.Ready(repeat)
    modifies world.coordinator, world`tick, world`dispatches
    ensures Honours(call) && call.id == id && (result.started <==> call.dispatched != [])
    ensures Keys(world.dispatches) == Keys(old(world.dispatches)) + call.dispatched
    ensures result.receipt ==> Grows(old(world.coordinator.State()), call.begun)
    ensures result.receipt ==> Grows(BeginStep(call.begun, id).0, world.coordinator.State())
  {
    var decision;
    ghost var begun, check;
    ghost var log := world.dispatches;
    result, err, decision, begun, check := world.RunBoundary(context, id, repeat, timed);
    call := Call(begun, id, if result.started then [id.attempt] else []);
    if result.started {
      assert world.dispatches == log + [world.Latest()];
      KeysAppend(log, world.Latest());
    } else {
      assert Keys(log) + [] == Keys(log);
    }
  }

  /** The ledger after the calls' Begins, with other operations - their own later ones included - in between. */
  function LedgerAfter(start: Ledger, calls: seq<Call>, between: seq<seq<Op>>): Ledger
    requires |between| == |calls|
    decreases |calls|
  {
    if calls == [] then start
    else LedgerAfter(BeginStep(Run(start, between[0]), calls[0].id).0, calls[1..], between[1..])
  }

  /** The calls, in the order in which they held the mutex for Begin. */
  ghost predicate Ordered(start: Ledger, calls: seq<Call>, between: seq<seq<Op>>)
    decreases |calls|
  {
    && |between| == |calls|
    && (calls != [] ==>
          && calls[0].begun == Run(start, between[0]) && Honours(calls[0])
          && Ordered(BeginStep(calls[0].begun, calls[0].id).0, calls[1..], between[1..]))
  }

  function Dispatched(calls: seq<Call>): seq<string> {
    if calls == [] then [] else calls[0].dispatched + Dispatched(calls[1..])
  }

  lemma {:induction false} DistinctKeysFit(keys: seq<string>, pool: set<string>)
    requires NoRepeats(keys) && forall i :: 0 <= i < |keys| ==> keys[i] in pool
    ensures |keys| <= |pool|
    decreases |keys|
  {
    if keys != [] {
      var last := keys[|keys| - 1];
      var rest := keys[..|keys| - 1];
      assert forall i :: 0 <= i < |rest| ==> rest[i] == keys[i] && rest[i] != last;
      DistinctKeysFit(rest, pool - {last});
    }
  }

  /** These attempts are new to the first ledger and kept by the second. */
  ghost predicate NewBetween(keys: seq<string>, start: Ledger, end: Ledger) {
    forall i :: 0 <= i < |keys| ==> keys[i] !in start.events && keys[i] in end.events
  }

  lemma OneMoreCall(start: Ledger, c: Call, rest: seq<string>, end: Ledger)
    requires Inv(c.begun) && Honours(c) && Grows(start, c.begun) && Grows(BeginStep(c.begun, c.id).0, end)
    requires NoRepeats(rest) && NewBetween(rest, BeginStep(c.begun, c.id).0, end)
    ensures NoRepeats(c.dispatched + rest) && NewBetween(c.dispatched + rest, start, end)
  {
    BeginSafe(c.begun, c.id);
    var after, all := BeginStep(c.begun, c.id).0, c.dispatched + rest;
    GrowsTransitive(start, c.begun, after);
    forall i | 0 <= i < |all| ensures all[i] !in start.events && all[i] in end.events {
      if i >= |c.dispatched| { assert all[i] == rest[i - |c.dispatched|]; }
    }
    forall i, j | 0 <= i < j < |all| ensures all[i] != all[j] {
      assert all[j] == rest[j - |c.dispatched|];
      if i >= |c.dispatched| { assert all[i] == rest[i - |c.dispatched|]; }
    }
  }

  /** Every dispatched attempt is new to the ledger it started from, kept by the ledger it leads to, and unique. */
  lemma {:induction false} DispatchesAreNew(start: Ledger, calls: seq<Call>, between: seq<seq<Op>>)
    requires Inv(start) && Ordered(start, calls, between)
    ensures var end := LedgerAfter(start, calls, between);
      && Inv(end) && Grows(start, end)
      && NoRepeats(Dispatched(calls)) && NewBetween(Dispatched(calls), start, end)
    decreases |calls|
  {
    if calls != [] {
      var c := calls[0];
      var after := BeginStep(c.begun, c.id).0;
      RunSafe(start, between[0]);
      BeginSafe(c.begun, c.id);
      DispatchesAreNew(after, calls[1..], between[1..]);
      GrowsTransitive(start, c.begun, after);
      GrowsTransitive(start, after, LedgerAfter(start, calls, between));
      OneMoreCall(start, c, Dispatched(calls[1..]), LedgerAfter(start, calls, between));
    }
  }

  /** However many users share the Coordinator and however they interleave, every identity is dispatched at most
      once and the Dispatch callback runs at most `limit` times in total. */
  lemma DispatchesFitBudget(start: Ledger, calls: seq<Call>, between: seq<seq<Op>>)
    requires Inv(start) && Ordered(start, calls, between)
    ensures NoRepeats(Dispatched(calls)) && |Dispatched(calls)| <= start.limit
  {
    DispatchesAreNew(start, calls, between);
    var end := LedgerAfter(start, calls, between);
    DistinctKeysFit(Dispatched(calls), end.events.Keys);
    assert |end.events.Keys| == |end.events|;
  }
}
