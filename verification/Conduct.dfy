/** What a dispatch does, event by event (router.go). Every event of the trace is justified by the events before it,
    and the outcome by the whole trace, in terms of the environment's answers alone. */
module Conduct {
  import opened Wrappers
  import opened Compile
  import opened Dispatch

  // ---------------------------------------------------------------------------------------------
  // Justified events

  /** Nothing is pending: dispatch has just begun, or the last result was non-terminal and has been closed without
      error where there was something to close. */
  ghost predicate Settled(trace: Trace) {
    || trace == []
    || (var last := trace[|trace| - 1];
        || (last.LifeClosed? && last.err.None?)
        || (last.Emitted? && last.err.None? && last.result.action == Next
            && (last.result.life.Some? ==> WasClosed(trace, last.result.life.value))))
  }

  ghost predicate WasClosed(trace: Trace, life: LifeId) {
    exists i :: 0 <= i < |trace| && trace[i] == LifeClosed(life, None)
  }

  ghost predicate NeverClosed(trace: Trace, life: LifeId) {
    forall i :: 0 <= i < |trace| ==> !(trace[i].LifeClosed? && trace[i].life == life)
  }

  /** What becomes of a handler's reply: an error or an undeclared action aborts, everything else is passed on. */
  predicate Passes(reply: Reply, m: Match, result: RouteResult, err: Option<Fault>) {
    && result.body == reply.result.body && result.life == reply.result.life && result.matched == Some(m)
    && (reply.err.Some? ==> err == reply.err && result.action == Abort)
    && (reply.err.None? && (reply.result.action == Next || reply.result.action == Stop) ==>
          err == None && result.action == reply.result.action)
    && (reply.err.None? && reply.result.action != Next && reply.result.action != Stop ==>
          err == Some(InvalidConfig) && result.action == Abort)
  }

  /** The event at j answers the invocation at i. */
  ghost predicate AnswersCall(env: Env, trace: Trace, i: nat, j: nat)
    requires i < j < |trace| && trace[j].Emitted?
  {
    && trace[i].Invoked? && trace[i].matched == trace[j].matched
    && Passes(env.handle(trace[i].handler, trace[i].matched, trace[..i]),
              trace[j].matched, trace[j].result, trace[j].err)
    && (if trace[j].result.life.Some? then j == i + 2 && trace[i + 1] == Yielded(trace[j].result.life.value)
        else j == i + 1)
  }

  /** A matcher failed: no handler ran, and nothing of a result exists. */
  ghost predicate MatcherFailed(env: Env, trace: Trace, j: nat)
    requires j < |trace| && trace[j].Emitted?
  {
    && Settled(trace[..j]) && env.cancelled(trace[..j]).None?
    && trace[j].err.Some? && trace[j].result == RouteResult(Abort, 0, None, Some(trace[j].matched))
  }

  /** Why an event happened, from what happened before it. */
  ghost predicate Justified(env: Env, trace: Trace, j: nat)
    requires j < |trace|
  {
    match trace[j]
    case Invoked(_, _) => Settled(trace[..j]) && env.cancelled(trace[..j]).None?
    case Yielded(life) =>
      && j > 0 && trace[j - 1].Invoked?
      && env.handle(trace[j - 1].handler, trace[j - 1].matched, trace[..j - 1]).result.life == Some(life)
    case Emitted(_, _, _) =>
      || (j > 0 && AnswersCall(env, trace, j - 1, j))
      || (j > 1 && AnswersCall(env, trace, j - 2, j))
      || MatcherFailed(env, trace, j)
    case LifeClosed(life, err) =>
      && j > 0 && trace[j - 1].Emitted? && trace[j - 1].err.None?
      && trace[j - 1].result.action == Next && trace[j - 1].result.life == Some(life)
      && NeverClosed(trace[..j], life) && err == env.close(life, trace[..j])
  }

  ghost predicate AllJustified(env: Env, trace: Trace) {
    forall j :: 0 <= j < |trace| ==> Justified(env, trace, j)
  }

  /** Justification looks back only. */
  lemma JustifiedGrows(env: Env, trace: Trace, e: Event)
    requires AllJustified(env, trace) && Justified(env, trace + [e], |trace|)
    ensures AllJustified(env, trace + [e])
  {
    var longer := trace + [e];
    forall j | 0 <= j < |longer| ensures Justified(env, longer, j) {
      if j < |trace| {
        assert Justified(env, trace, j);
        SameHistory(env, trace, longer, j);
      }
    }
  }

  lemma SameHistory(env: Env, trace: Trace, longer: Trace, j: nat)
    requires j < |trace| && trace <= longer && Justified(env, trace, j)
    ensures Justified(env, longer, j)
  {
    assert longer[..j] == trace[..j];
    assert j > 0 ==> longer[..j - 1] == trace[..j - 1];
    assert j > 1 ==> longer[..j - 2] == trace[..j - 2];
  }

  // ---------------------------------------------------------------------------------------------
  // Handlers and cleanups

  lemma {:induction false} ClosedWithIsFirst(trace: Trace, life: LifeId)
    ensures ClosedWith(trace, life).None? <==> NeverClosed(trace, life)
    ensures ClosedWith(trace, life) == Some(None) ==> WasClosed(trace, life)
    decreases |trace|
  {
    if trace != [] {
      var front := trace[..|trace| - 1];
      ClosedWithIsFirst(front, life);
      assert trace == front + [trace[|trace| - 1]];
      if WasClosed(front, life) {
        var i :| 0 <= i < |front| && front[i] == LifeClosed(life, None);
        assert trace[i] == front[i];
      }
    }
  }

  /** No Lifetime has failed to close so far. */
  ghost predicate NoneFailed(trace: Trace) {
    forall i :: 0 <= i < |trace| && trace[i].LifeClosed? ==> trace[i].err.None?
  }

  lemma {:induction false} KnownIsGood(trace: Trace, life: LifeId)
    requires NoneFailed(trace)
    ensures ClosedWith(trace, life).Some? ==> ClosedWith(trace, life) == Some(None)
    decreases |trace|
  {
    if trace != [] { KnownIsGood(trace[..|trace| - 1], life); }
  }

  /** Between two items. */
  ghost predicate Ready(env: Env, trace: Trace) {
    AllJustified(env, trace) && Settled(trace) && NoneFailed(trace)
  }

  lemma InvokeIsJustified(env: Env, handler: HandlerId, m: Match, trace: Trace)
    requires Ready(env, trace) && env.cancelled(trace).None?
    ensures var d := Invoke(env, handler, m, trace);
      && AllJustified(env, d.trace) && NoneFailed(d.trace)
      && |d.trace| > |trace| && trace <= d.trace && d.trace[|trace|] == Invoked(handler, m)
      && d.trace[|d.trace| - 1] == Emitted(m, d.result, d.err)
      && (d.err.Some? <==> d.result.action == Abort)
  {
    var d := Invoke(env, handler, m, trace);
    var started := trace + [Invoked(handler, m)];
    assert started[..|trace|] == trace;
    JustifiedGrows(env, trace, Invoked(handler, m));
    var life := d.result.life;
    var returned := if life.Some? then started + [Yielded(life.value)] else started;
    if life.Some? {
      assert returned[..|trace|] == trace;
      JustifiedGrows(env, started, Yielded(life.value));
    }
    var event := Emitted(m, d.result, d.err);
    assert d.trace == returned + [event];
    assert d.trace[..|trace|] == trace;
    assert AnswersCall(env, d.trace, |trace|, |returned|);
    JustifiedGrows(env, returned, event);
  }

  /** A discarded result: what is left is ready for the next item, or dispatch is over. */
  ghost predicate Discards(env: Env, done: Done, p: Progress) {
    match p
    case Through(last, after) =>
      !Terminal(done) && last == Some(done.result) && Ready(env, after) && done.trace <= after
    case Ended(d) => if Terminal(done) then d == done else CloseFailed(env, d) && done.trace <= d.trace
  }

  /** The last result could not be closed: it is returned as aborted, with that error. */
  ghost predicate CloseFailed(env: Env, d: Done) {
    var n := |d.trace|;
    && AllJustified(env, d.trace) && n >= 2 && d.trace[n - 2].Emitted? && d.trace[n - 1].LifeClosed?
    && d.err.Some? && d.trace[n - 1].err == d.err
    && var last := d.trace[n - 2].result; d.result == RouteResult(Abort, last.body, last.life, last.matched)
  }

  lemma DiscardedIsJustified(env: Env, done: Done, m: Match)
    requires AllJustified(env, done.trace) && NoneFailed(done.trace) && done.trace != []
    requires done.trace[|done.trace| - 1] == Emitted(m, done.result, done.err)
    ensures Discards(env, done, Discarded(env, done))
  {
    if !Terminal(done) && done.result.life.Some? {
      var life := done.result.life.value;
      ClosedWithIsFirst(done.trace, life);
      KnownIsGood(done.trace, life);
      if ClosedWith(done.trace, life).None? {
        var event := LifeClosed(life, env.close(life, done.trace));
        assert (done.trace + [event])[..|done.trace|] == done.trace;
        JustifiedGrows(env, done.trace, event);
      }
    }
  }

  /** A result that was closed earlier, or owns nothing, needs no cleanup. */
  lemma DiscardedEvents(env: Env, done: Done)
    requires !Terminal(done)
    ensures var p := Discarded(env, done); var after := if p.Ended? then p.done.trace else p.trace;
      && done.trace <= after && |after| <= |done.trace| + 1
      && (|after| > |done.trace| ==> after[|done.trace|].LifeClosed?)
  {
  }

  // ---------------------------------------------------------------------------------------------
  // Who is called

  /** The invocations of a trace, in order. */
  function Calls(trace: Trace): seq<Event> {
    if trace == [] then []
    else Calls(trace[..|trace| - 1]) + (if trace[|trace| - 1].Invoked? then [trace[|trace| - 1]] else [])
  }

  lemma CallsAppend(trace: Trace, e: Event)
    ensures Calls(trace + [e]) == Calls(trace) + (if e.Invoked? then [e] else [])
  {
    assert (trace + [e])[..|trace|] == trace;
  }

  lemma InvokeCalls(env: Env, handler: HandlerId, m: Match, trace: Trace)
    ensures Calls(Invoke(env, handler, m, trace).trace) == Calls(trace) + [Invoked(handler, m)]
  {
    var d := Invoke(env, handler, m, trace);
    var started := trace + [Invoked(handler, m)];
    CallsAppend(trace, Invoked(handler, m));
    if d.result.life.Some? {
      CallsAppend(started, Yielded(d.result.life.value));
      CallsAppend(started + [Yielded(d.result.life.value)], Emitted(m, d.result, d.err));
    } else {
      CallsAppend(started, Emitted(m, d.result, d.err));
    }
  }

  lemma DiscardedCalls(env: Env, done: Done)
    ensures var p := Discarded(env, done);
      Calls(if p.Ended? then p.done.trace else p.trace) == Calls(done.trace)
  {
    if !Terminal(done) && done.result.life.Some? {
      var life := done.result.life.value;
      CallsAppend(done.trace, LifeClosed(life, env.close(life, done.trace)));
    }
  }

  /** What an item of the flat list does for this request: nothing, fail, enter a mount, or call a handler. */
  datatype Turn = Pass | Breakdown | Entering | Calling(call: Event)

  ghost function TurnOf(env: Env, item: Item): Turn {
    match Check(env, item.guards)
    case Shut => Pass
    case Breaks(_, _) => Breakdown
    case Open(m) =>
      match item.work {
        case Enter => Entering
        case Call(handler) => if m.Some? then Calling(Invoked(handler, m.value)) else Pass
        case Otherwise(handler, own) => Calling(Invoked(handler, own))
      }
  }

  /** The calls the list asks for, up to the first matcher that fails. */
  ghost function Due(env: Env, items: seq<Item>): seq<Event>
    decreases |items|
  {
    if items == [] then []
    else
      match TurnOf(env, items[0])
      case Breakdown => []
      case Calling(call) => [call] + Due(env, items[1..])
      case _ => Due(env, items[1..])
  }

  ghost predicate SomeBreakdown(env: Env, items: seq<Item>) {
    exists i :: 0 <= i < |items| && TurnOf(env, items[i]) == Breakdown
  }

  /** The last item that did anything, unless none did. */
  ghost function LastTurn(env: Env, items: seq<Item>): Turn
    decreases |items|
  {
    if items == [] then Pass
    else if LastTurn(env, items[1..]) != Pass then LastTurn(env, items[1..])
    else TurnOf(env, items[0])
  }

  /** The result of the last event that carries one. */
  function LastEmitted(trace: Trace): Option<RouteResult> {
    if trace == [] then None
    else if trace[|trace| - 1].Emitted? then Some(trace[|trace| - 1].result)
    else LastEmitted(trace[..|trace| - 1])
  }

  function FallbackCall(fallback: Option<HandlerId>): seq<Event> {
    if fallback.None? then []
    else [Invoked(fallback.value, Match("fallback", ["fallback"], 0, 0, FallbackKind, NoData))]
  }

  // ---------------------------------------------------------------------------------------------
  // How dispatch ends

  /** The context ended before the next item. */
  ghost predicate Cancelled(env: Env, d: Done) {
    && Ready(env, d.trace) && d.err.Some? && env.cancelled(d.trace) == d.err
    && d.result == RouteResult(Abort, 0, None, None)
  }

  /** The event that ended dispatch carries its result. */
  ghost predicate Answered(env: Env, d: Done) {
    && AllJustified(env, d.trace) && d.trace != []
    && var last := d.trace[|d.trace| - 1]; last.Emitted? && last.result == d.result && last.err == d.err
  }

  ghost predicate EndsInFailedMatcher(trace: Trace) {
    var n := |trace|;
    && n > 0 && trace[n - 1].Emitted? && trace[n - 1].err.Some?
    && (n == 1 || (!trace[n - 2].Invoked? && !trace[n - 2].Yielded?))
  }

  /** Dispatch stopped before the end of the list: every call made was due, and a failed matcher was the first. */
  ghost predicate StoppedEarly(env: Env, items: seq<Item>, fallback: Option<HandlerId>, before: Trace, d: Done) {
    && (Cancelled(env, d) || (Answered(env, d) && Terminal(d)) || CloseFailed(env, d))
    && Calls(d.trace) <= Calls(before) + Due(env, items) + FallbackCall(fallback)
    && (EndsInFailedMatcher(d.trace) ==>
          SomeBreakdown(env, items) && Calls(d.trace) == Calls(before) + Due(env, items))
  }

  /** Dispatch went through the whole list: every due call was made, the root fallback's too; without one the result
      is that of the last item that did anything, and entering a mount counts as having no result. */
  ghost predicate WentThrough(env: Env, items: seq<Item>, fallback: Option<HandlerId>, before: Trace,
                              last: Option<RouteResult>, d: Done)
  {
    && !SomeBreakdown(env, items) && d.err.None? && d.result.action == Next
    && Calls(d.trace) == Calls(before) + Due(env, items) + FallbackCall(fallback)
    && (fallback.Some? ==> Answered(env, d))
    && (fallback.None? ==> Ready(env, d.trace) && ResultIsLast(env, items, before, last, d))
  }

  ghost predicate ResultIsLast(env: Env, items: seq<Item>, before: Trace, last: Option<RouteResult>, d: Done) {
    match LastTurn(env, items)
    case Pass => d.trace == before && d.result == if last.Some? then last.value else RouteResult(Next, 0, None, None)
    case Calling(_) => LastEmitted(d.trace) == Some(d.result)
    case _ => d.result == RouteResult(Next, 0, None, None)
  }

  ghost predicate Concludes(env: Env, items: seq<Item>, fallback: Option<HandlerId>, before: Trace,
                            last: Option<RouteResult>, d: Done)
  {
    StoppedEarly(env, items, fallback, before, d) || WentThrough(env, items, fallback, before, last, d)
  }

  lemma NoBreakdown(env: Env, items: seq<Item>)
    requires items != [] && TurnOf(env, items[0]) != Breakdown
    ensures SomeBreakdown(env, items) <==> SomeBreakdown(env, items[1..])
  {
    if SomeBreakdown(env, items) {
      var i :| 0 <= i < |items| && TurnOf(env, items[i]) == Breakdown;
      assert items[1..][i - 1] == items[i];
    }
    if SomeBreakdown(env, items[1..]) {
      var i :| 0 <= i < |items[1..]| && TurnOf(env, items[1..][i]) == Breakdown;
      assert items[i + 1] == items[1..][i];
    }
  }

  lemma FinishConcludes(env: Env, fallback: Option<HandlerId>, before: Trace, last: Option<RouteResult>)
    requires Ready(env, before) && (last.Some? ==> last.value.action == Next)
    ensures Concludes(env, [], fallback, before, last, FinishTable(env, fallback, [], 0, last, before))
  {
    if fallback.Some? && env.cancelled(before).None? {
      var m := FallbackMatch([], 0);
      assert [] + [FALLBACK] == [FALLBACK];
      InvokeIsJustified(env, fallback.value, m, before);
      InvokeCalls(env, fallback.value, m, before);
      InvokeEndsWithCall(env, fallback.value, m, before);
    }
  }

  lemma InvokeEndsWithCall(env: Env, handler: HandlerId, m: Match, trace: Trace)
    ensures !EndsInFailedMatcher(Invoke(env, handler, m, trace).trace)
  {
  }

  lemma BrokenConcludes(env: Env, items: seq<Item>, fallback: Option<HandlerId>, before: Trace,
                        last: Option<RouteResult>, m: Match, err: Fault)
    requires Ready(env, before) && env.cancelled(before).None? && items != []
    requires Check(env, items[0].guards) == Breaks(m, err)
    ensures Concludes(env, items, fallback, before, last, Broken(m, err, before))
  {
    var d := Broken(m, err, before);
    assert d.trace[..|before|] == before;
    assert MatcherFailed(env, d.trace, |before|);
    JustifiedGrows(env, before, d.trace[|before|]);
    CallsAppend(before, d.trace[|before|]);
    assert TurnOf(env, items[0]) == Breakdown;
    assert Calls(d.trace) == Calls(before) + Due(env, items);
  }

  /** What one calling item leaves: the call was made, and dispatch is over or ready to go on. */
  lemma CallConcludes(env: Env, items: seq<Item>, fallback: Option<HandlerId>, before: Trace, last: Option<RouteResult>,
                      handler: HandlerId, m: Match)
    requires Ready(env, before) && env.cancelled(before).None? && items != []
    requires TurnOf(env, items[0]) == Calling(Invoked(handler, m))
    ensures var p := Discarded(env, Invoke(env, handler, m, before));
      && (p.Ended? ==> Concludes(env, items, fallback, before, last, p.done))
      && (p.Through? ==>
            && Ready(env, p.trace) && Calls(p.trace) == Calls(before) + [Invoked(handler, m)]
            && p.last.Some? && p.last.value.action == Next && LastEmitted(p.trace) == p.last)
  {
    var done := Invoke(env, handler, m, before);
    InvokeIsJustified(env, handler, m, before);
    InvokeCalls(env, handler, m, before);
    InvokeEndsWithCall(env, handler, m, before);
    DiscardedIsJustified(env, done, m);
    DiscardedCalls(env, done);
    assert [Invoked(handler, m)] <= Due(env, items);
    PrefixUnder(Calls(before), [Invoked(handler, m)], Due(env, items), FallbackCall(fallback));
    if !Terminal(done) {
      DiscardedEvents(env, done);
      DiscardedLastEmitted(env, done, m);
    }
  }

  lemma DiscardedLastEmitted(env: Env, done: Done, m: Match)
    requires !Terminal(done) && done.trace != []
    requires done.trace[|done.trace| - 1] == Emitted(m, done.result, done.err)
    ensures var p := Discarded(env, done); p.Through? ==> LastEmitted(p.trace) == Some(done.result)
  {
    var p := Discarded(env, done);
    if p.Through? && |p.trace| > |done.trace| {
      assert p.trace[..|done.trace|] == done.trace;
    }
  }

  lemma PrefixUnder<T>(base: seq<T>, head: seq<T>, all: seq<T>, more: seq<T>)
    requires head <= all
    ensures base + head <= base + all + more
  {
  }

  /** What one item leaves to the rest of the list carries over to the whole list. */
  lemma RestConcludes(env: Env, items: seq<Item>, fallback: Option<HandlerId>, before: Trace, last: Option<RouteResult>,
                      after: Trace, newer: Option<RouteResult>, d: Done)
    requires items != [] && Concludes(env, items[1..], fallback, after, newer, d)
    requires match TurnOf(env, items[0])
      case Pass => after == before && newer == last
      case Breakdown => false
      case Entering => after == before && newer == Some(NoRoute)
      case Calling(call) => Calls(after) == Calls(before) + [call] && newer.Some? && LastEmitted(after) == newer
    ensures Concludes(env, items, fallback, before, last, d)
  {
    NoBreakdown(env, items);
    var rest := items[1..];
    assert Calls(after) + Due(env, rest) == Calls(before) + Due(env, items) by {
      var turn := TurnOf(env, items[0]);
      if turn.Calling? {
        assert Calls(before) + [turn.call] + Due(env, rest) == Calls(before) + ([turn.call] + Due(env, rest));
      }
    }
    if StoppedEarly(env, rest, fallback, after, d) {
      assert StoppedEarly(env, items, fallback, before, d);
    } else {
      ThroughCarriesOver(env, items, fallback, before, last, after, newer, d);
    }
  }

  lemma ThroughCarriesOver(env: Env, items: seq<Item>, fallback: Option<HandlerId>, before: Trace,
                           last: Option<RouteResult>, after: Trace, newer: Option<RouteResult>, d: Done)
    requires items != [] && WentThrough(env, items[1..], fallback, after, newer, d)
    requires Calls(after) + Due(env, items[1..]) == Calls(before) + Due(env, items)
    requires !SomeBreakdown(env, items)
    requires match TurnOf(env, items[0])
      case Pass => after == before && newer == last
      case Breakdown => false
      case Entering => newer == Some(NoRoute)
      case Calling(call) => newer.Some? && LastEmitted(after) == newer
    ensures WentThrough(env, items, fallback, before, last, d)
  {
    if fallback.None? { assert ResultIsLast(env, items, before, last, d); }
  }

  lemma {:induction false} FlatConcludes(env: Env, items: seq<Item>, fallback: Option<HandlerId>, before: Trace,
                                         last: Option<RouteResult>)
    requires Ready(env, before) && Guarded(items) && (last.Some? ==> last.value.action == Next)
    ensures Concludes(env, items, fallback, before, last, RunFlat(env, items, fallback, before, last))
    decreases |items|
  {
    var d := RunFlat(env, items, fallback, before, last);
    if items == [] {
      FinishConcludes(env, fallback, before, last);
    } else if env.cancelled(before).Some? {
      assert Calls(before) <= Calls(before) + Due(env, items) + FallbackCall(fallback);
    } else {
      match Check(env, items[0].guards)
      case Shut =>
        FlatConcludes(env, items[1..], fallback, before, last);
        RestConcludes(env, items, fallback, before, last, before, last, d);
      case Breaks(m, err) => BrokenConcludes(env, items, fallback, before, last, m, err);
      case Open(matched) =>
        SomeMatch(env, items[0].guards);
        if items[0].work.Enter? {
          FlatConcludes(env, items[1..], fallback, before, Some(NoRoute));
          RestConcludes(env, items, fallback, before, last, before, Some(NoRoute), d);
        } else {
          var m := if items[0].work.Call? then matched.value else items[0].work.matched;
          CallConcludes(env, items, fallback, before, last, items[0].work.handler, m);
          var p := Discarded(env, Invoke(env, items[0].work.handler, m, before));
          if p.Through? {
            FlatConcludes(env, items[1..], fallback, p.trace, p.last);
            RestConcludes(env, items, fallback, before, last, p.trace, p.last, d);
          }
        }
    }
  }

  /** Every event of a dispatch is justified by what happened before it; and dispatch either stops at a cancelled
      context, a terminal result, a failing matcher or a failing cleanup, having made the first of the calls the
      flat list asks for, or it makes all of them and returns the last non-terminal result. */
  lemma EveryDispatchConcludes(env: Env, tree: Tree)
    ensures var d := DispatchTable(env, tree, [], 0, []);
      AllJustified(env, d.trace) && Concludes(env, Flatten(tree.routes, [], [], 0), tree.fallback, [], None, d)
  {
    NestedDispatchEqualsFlat(env, tree);
    FlattenIsGuarded(tree.routes, [], [], 0);
    FlatConcludes(env, Flatten(tree.routes, [], [], 0), tree.fallback, [], None);
  }

  // ---------------------------------------------------------------------------------------------
  // When an item does anything

  /** A guarded item is open exactly when every matcher on its way applies, and then reports the innermost route;
      it fails exactly when a matcher fails behind matchers that all apply, and then reports that one. */
  lemma {:induction false} GatesAnswerExactly(env: Env, guards: seq<Guard>)
    ensures Check(env, guards).Open? <==> forall i :: 0 <= i < |guards| ==> Hits(env, guards[i].node.matcher)
    ensures guards != [] && Check(env, guards).Open? ==>
      Check(env, guards).matched.Some? && Reports(env, guards[|guards| - 1], Check(env, guards).matched.value)
    ensures Check(env, guards).Breaks? <==> exists i :: FailsAt(env, guards, i)
    ensures Check(env, guards).Breaks? ==>
      exists i :: FailsAt(env, guards, i) && Faults(env, guards[i].node.matcher, Check(env, guards).err)
                  && Blames(guards[i], Check(env, guards).broken)
    decreases |guards|
  {
    if guards != [] {
      var g := guards[0];
      var answer := Ask(env, g.node.matcher);
      MatchersAnswerExactly(env, g.node.matcher, if answer.Hit? then answer.data else NoData,
                            if answer.Fail? then answer.err else InvalidConfig);
      match answer
      case Miss => NothingFails(env, guards);
      case Fail(err) => assert FailsAt(env, guards, 0);
      case Hit(_) =>
        GatesAnswerExactly(env, guards[1..]);
        FailureShifts(env, guards);
    }
  }

  ghost predicate Reports(env: Env, g: Guard, m: Match) {
    && m.id == g.node.id && m.path == g.path + [g.node.id] && m.priority == g.node.priority && m.depth == g.depth
    && KindNames(g.node.matcher, m.kind) && Applies(env, g.node.matcher, m.data)
  }

  ghost predicate Blames(g: Guard, m: Match) {
    && m.id == g.node.id && m.path == g.path + [g.node.id] && m.priority == g.node.priority && m.depth == g.depth
    && KindNames(g.node.matcher, m.kind) && m.data == Data("", "", "", None)
  }

  ghost predicate Fails(env: Env, m: Matcher) {
    exists err :: Faults(env, m, err)
  }

  ghost predicate FailsAt(env: Env, guards: seq<Guard>, i: int) {
    && 0 <= i < |guards| && Fails(env, guards[i].node.matcher)
    && forall k :: 0 <= k < i ==> Hits(env, guards[k].node.matcher)
  }

  lemma NothingFails(env: Env, guards: seq<Guard>)
    requires guards != [] && Ask(env, guards[0].node.matcher) == Miss
    ensures !exists i :: FailsAt(env, guards, i)
  {
    forall i ensures !FailsAt(env, guards, i) {
      if FailsAt(env, guards, i) {
        MatchersAnswerExactly(env, guards[0].node.matcher, NoData, InvalidConfig);
        assert i == 0;
        var err :| Faults(env, guards[0].node.matcher, err);
        MatchersAnswerExactly(env, guards[0].node.matcher, NoData, err);
        assert false;
      }
    }
  }

  lemma FailureShifts(env: Env, guards: seq<Guard>)
    requires guards != [] && Hits(env, guards[0].node.matcher)
    ensures forall i :: FailsAt(env, guards[1..], i) ==> FailsAt(env, guards, i + 1)
    ensures forall i :: FailsAt(env, guards, i) ==> i >= 1 && FailsAt(env, guards[1..], i - 1)
  {
    var rest := guards[1..];
    forall i | FailsAt(env, rest, i) ensures FailsAt(env, guards, i + 1) {
      assert rest[i] == guards[i + 1];
      forall k | 0 <= k < i + 1 ensures Hits(env, guards[k].node.matcher) { assert k > 0 ==> guards[k] == rest[k - 1]; }
    }
    forall i | FailsAt(env, guards, i) ensures i >= 1 && FailsAt(env, rest, i - 1) {
      if i == 0 {
        var err :| Faults(env, guards[0].node.matcher, err);
        MatchersAnswerExactly(env, guards[0].node.matcher, NoData, err);
        assert false;
      }
      assert rest[i - 1] == guards[i];
      forall k | 0 <= k < i - 1 ensures Hits(env, rest[k].node.matcher) { assert rest[k] == guards[k + 1]; }
    }
  }
}
