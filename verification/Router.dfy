/** The dispatcher as the source runs it (router.go, decisionForCall): loops that update the last result, and one
    decision cache per call shared by all nested tables. It is proved against the recursive interpreter of module
    Dispatch, which classifies afresh at every matcher, so caching cannot be observed. */
module Router {
  import opened Wrappers
  import opened Compile
  import opened Dispatch
  import Conduct
  import Order

  class RouteCall {
    const env: Env
    var trace: Trace
    var decisions: map<nat, Result<Verdict, Fault>>
    var ran: seq<nat>

    /** The cache holds exactly the decisions of the classifiers that ran, and each of them ran once. */
    ghost predicate Valid()
      reads this
    {
      && (forall group :: group in decisions <==> group in ran)
      && (forall group :: group in decisions ==> decisions[group] == env.classify(group))
      && (forall i, j :: 0 <= i < j < |ran| ==> ran[i] != ran[j])
    }

    constructor (env: Env)
      ensures Valid() && this.env == env && trace == [] && ran == []
    {
      this.env := env;
      trace, decisions, ran := [], map[], [];
    }

    method DecisionForCall(group: nat) returns (verdict: Result<Verdict, Fault>)
      requires Valid()
      modifies this
      ensures Valid() && trace == old(trace) && old(ran) <= ran
      ensures verdict == env.classify(group)
      ensures ran == if group in old(ran) then old(ran) else old(ran) + [group]
    {
      if group in decisions { return decisions[group]; }
      verdict := env.classify(group);
      ran := ran + [group];
      decisions := decisions[group := verdict];
    }

    method AskMatcher(m: Matcher) returns (answer: Answer)
      requires Valid()
      modifies this
      ensures Valid() && trace == old(trace) && old(ran) <= ran
      ensures answer == Ask(env, m)
    {
      if Decides(m) {
        var verdict := DecisionForCall(m.group);
        answer := Judge(m, verdict);
      } else {
        answer := Ask(env, m);
      }
    }

    /** dispatchHandler and dispatchFallback up to the terminal flag. */
    method CallHandler(handler: HandlerId, m: Match) returns (result: RouteResult, err: Option<Fault>)
      requires Valid()
      modifies this
      ensures Valid() && ran == old(ran)
      ensures Done(result, err, trace) == Invoke(env, handler, m, old(trace))
    {
      var reply := env.handle(handler, m, trace);
      trace := trace + [Invoked(handler, m)];
      result, err := reply.result, reply.err;
      if result.life.Some? { trace := trace + [Yielded(result.life.value)]; }
      if err.Some? {
        result := result.(action := Abort, matched := Some(m));
        trace := trace + [Emitted(m, result, err)];
        return;
      }
      result := result.(matched := Some(m));
      if result.action != Next && result.action != Stop {
        result := result.(action := Abort);
        err := Some(InvalidConfig);
      }
      trace := trace + [Emitted(m, result, err)];
    }

    method CloseLifetime(life: Option<LifeId>) returns (err: Option<Fault>)
      requires Valid()
      modifies this
      ensures Valid() && ran == old(ran)
      ensures (err, trace) == CloseLife(env, life, old(trace))
    {
      if life.None? { return None; }
      var known := ClosedWith(trace, life.value);
      if known.Some? { return known.value; }
      err := env.close(life.value, trace);
      trace := trace + [LifeClosed(life.value, err)];
    }

    method DispatchEntry(node: Node, path: seq<RouteId>, depth: nat)
      returns (hit: bool, result: RouteResult, err: Option<Fault>)
      requires Valid()
      modifies this
      ensures Valid() && old(ran) <= ran
      ensures match Ask(env, node.matcher)
        case Miss => !hit && trace == old(trace)
        case Fail(fault) =>
          hit && Done(result, err, trace) == Broken(MatchOf(node, path, depth, NoData), fault, old(trace))
        case Hit(data) =>
          hit && Done(result, err, trace) == DispatchHit(env, node, MatchOf(node, path, depth, data), depth, old(trace))
      decreases node
    {
      var answer := AskMatcher(node.matcher);
      if answer.Miss? { return false, NoRoute, None; }
      if answer.Fail? {
        var m := MatchOf(node, path, depth, NoData);
        result := AbortResult.(matched := Some(m));
        trace := trace + [Emitted(m, result, Some(answer.err))];
        return true, result, Some(answer.err);
      }
      hit := true;
      var m := MatchOf(node, path, depth, answer.data);
      match node.target {
        case Leaf(handler) => result, err := CallHandler(handler, m);
        case Nested(tree) => result, err := DispatchTable(tree, m.path, depth + 1);
      }
    }

    method DispatchTable(tree: Tree, path: seq<RouteId>, depth: nat) returns (result: RouteResult, err: Option<Fault>)
      requires Valid()
      modifies this
      ensures Valid() && old(ran) <= ran
      ensures Done(result, err, trace) == Dispatch.DispatchTable(env, tree, path, depth, old(trace))
      decreases tree
    {
      ghost var start := trace;
      var cancelled := env.cancelled(trace);
      if cancelled.Some? { return AbortResult, cancelled; }
      var last: Option<RouteResult> := None;
      assert tree.routes[0..] == tree.routes;
      for k := 0 to |tree.routes|
        invariant Valid() && old(ran) <= ran
        invariant RunNodes(env, tree.routes, path, depth, start, None)
               == RunNodes(env, tree.routes[k..], path, depth, trace, last)
      {
        var node := tree.routes[k];
        assert tree.routes[k..][0] == node && tree.routes[k..][1..] == tree.routes[k + 1..];
        cancelled := env.cancelled(trace);
        if cancelled.Some? { return AbortResult, cancelled; }
        ghost var before, older := trace, last;
        var hit;
        hit, result, err := DispatchEntry(node, path, depth);
        if hit {
          if err.Some? || result.action != Next {
            assert RunNode(env, node, path, depth, before, older) == Ended(Done(result, err, trace));
            return;
          }
          ghost var done := Done(result, err, trace);
          assert RunNode(env, node, path, depth, before, older) == Discarded(env, done);
          var closeErr := CloseLifetime(result.life);
          if closeErr.Some? { return result.(action := Abort), closeErr; }
          last := Some(result);
        }
        assert RunNode(env, node, path, depth, before, older) == Through(last, trace);
      }
      assert tree.routes[|tree.routes|..] == [];
      assert RunNodes(env, tree.routes, path, depth, start, None) == Through(last, trace);
      result, err := Finish(tree.fallback, path, depth, last);
    }

    method Finish(fallback: Option<HandlerId>, path: seq<RouteId>, depth: nat, last: Option<RouteResult>)
      returns (result: RouteResult, err: Option<Fault>)
      requires Valid()
      modifies this
      ensures Valid() && ran == old(ran)
      ensures Done(result, err, trace) == FinishTable(env, fallback, path, depth, last, old(trace))
    {
      if fallback.Some? {
        var cancelled := env.cancelled(trace);
        if cancelled.Some? { return AbortResult, cancelled; }
        result, err := CallHandler(fallback.value, FallbackMatch(path, depth));
        return;
      }
      if last.Some? { return last.value, None; }
      return NoRoute, None;
    }
  }

  /** Router.Dispatch: one call, one cache. The outcome is that of the flat list without any cache; its events are
      justified, its matches true and its end accounted for; and every classifier ran at most once, however many
      nested tables asked it. */
  method RunDispatch(env: Env, tree: Tree)
    returns (result: RouteResult, err: Option<Fault>, trace: Trace, ran: seq<nat>)
    ensures Done(result, err, trace) == FlatDispatch(env, tree)
    ensures Conduct.AllJustified(env, trace) && PathsAreTrue(env, tree, trace)
    ensures Conduct.Concludes(env, Flatten(tree.routes, [], [], 0), tree.fallback, [], None, Done(result, err, trace))
    ensures forall i, j :: 0 <= i < j < |ran| ==> ran[i] != ran[j]
  {
    var call := new RouteCall(env);
    result, err := call.DispatchTable(tree, [], 0);
    NestedDispatchEqualsFlat(env, tree);
    MatchPathsAreTreePaths(env, tree);
    Conduct.EveryDispatchConcludes(env, tree);
    trace, ran := call.trace, call.ran;
  }

  // ---------------------------------------------------------------------------------------------
  // Who answers

  lemma {:induction false} MissesArePassedOver(env: Env, nodes: seq<Node>, path: seq<RouteId>, depth: nat, trace: Trace,
                                               last: Option<RouteResult>, k: nat)
    requires k <= |nodes| && env.cancelled(trace).None?
    requires forall i :: 0 <= i < k ==> Ask(env, nodes[i].matcher) == Miss
    ensures RunNodes(env, nodes, path, depth, trace, last) == RunNodes(env, nodes[k..], path, depth, trace, last)
    decreases k
  {
    if k == 0 {
      assert nodes[0..] == nodes;
    } else {
      assert nodes[1..][k - 1..] == nodes[k..];
      MissesArePassedOver(env, nodes[1..], path, depth, trace, last, k - 1);
    }
  }

  ghost predicate Matches(env: Env, nodes: seq<Node>, i: nat) {
    i < |nodes| && Hits(env, nodes[i].matcher)
  }

  ghost function Matching(env: Env, nodes: seq<Node>): nat -> bool {
    (i: nat) => Matches(env, nodes, i)
  }

  ghost function Winner(nodes: seq<Node>, longest: bool, k: nat): nat
    requires k < |nodes|
  {
    Order.StableOrder(NodeKeys(nodes), longest, 0)[k]
  }

  /** The match of a route at the root of a table. */
  ghost predicate RootMatch(env: Env, node: Node, m: Match) {
    && m.id == node.id && m.path == [node.id] && m.priority == node.priority && m.depth == 0
    && KindNames(node.matcher, m.kind) && Applies(env, node.matcher, m.data)
  }

  lemma RootMatchIsReported(env: Env, node: Node, m: Match)
    requires RootMatch(env, node, m)
    ensures Ask(env, node.matcher) == Hit(m.data) && m == MatchOf(node, [], 0, m.data)
  {
    MatchersAnswerExactly(env, node.matcher, m.data, InvalidConfig);
    assert [] + [node.id] == [node.id];
  }

  lemma MissesExactly(env: Env, m: Matcher)
    requires !Hits(env, m) && !Conduct.Fails(env, m)
    ensures Ask(env, m) == Miss
  {
    var answer := Ask(env, m);
    MatchersAnswerExactly(env, m, NoData, if answer.Fail? then answer.err else InvalidConfig);
  }

  /** A compiled table of routes declared as `nodes` is answered by its first match in stable order: that route's
      handler is the first to be called, with the route's match, and a terminal reply is what dispatch returns. */
  lemma FirstMatchAnswers(env: Env, nodes: seq<Node>, fallback: Option<HandlerId>, longest: bool, k: nat, m: Match)
    requires env.cancelled([]).None?
    requires Order.FirstMatch(Order.StableOrder(NodeKeys(nodes), longest, 0), Matching(env, nodes), k)
    requires forall i :: 0 <= i < k ==> !Conduct.Fails(env, nodes[Winner(nodes, longest, i)].matcher)
    requires nodes[Winner(nodes, longest, k)].target.Leaf? && RootMatch(env, nodes[Winner(nodes, longest, k)], m)
    ensures var node := nodes[Winner(nodes, longest, k)];
      var d := Dispatch.DispatchTable(env, Tree(Arranged(nodes, longest), fallback, longest), [], 0, []);
      var reply := env.handle(node.target.handler, m, []);
      reply.err.Some? || reply.result.action != Next ==>
        Conduct.Passes(reply, m, d.result, d.err) && Conduct.Calls(d.trace) == [Invoked(node.target.handler, m)]
  {
    var sorted := Arranged(nodes, longest);
    var order := Order.StableOrder(NodeKeys(nodes), longest, 0);
    forall i | 0 <= i < k ensures Ask(env, sorted[i].matcher) == Miss {
      assert !Matches(env, nodes, order[i]) && order[i] == Winner(nodes, longest, i);
      MissesExactly(env, sorted[i].matcher);
    }
    MissesArePassedOver(env, sorted, [], 0, [], None, k);
    var node := nodes[Winner(nodes, longest, k)];
    assert sorted[k..][0] == node;
    RootMatchIsReported(env, node, m);
    assert DispatchHit(env, node, m, 0, []) == Invoke(env, node.target.handler, m, []);
    assert RunNode(env, node, [], 0, [], None) == Discarded(env, Invoke(env, node.target.handler, m, []));
    Conduct.InvokeCalls(env, node.target.handler, m, []);
  }

  function PrefixLength(node: Node): nat {
    if node.matcher.Prefix? then |node.matcher.prefix| else 0
  }

  /** Precedence: in longest-prefix mode a matching prefix route beats every other kind and a longer prefix a shorter
      one, then priority decides; otherwise priority decides before kind and length; declaration order comes last. */
  lemma AnswerOutranks(env: Env, nodes: seq<Node>, longest: bool, k: nat, other: nat)
    requires Order.FirstMatch(Order.StableOrder(NodeKeys(nodes), longest, 0), Matching(env, nodes), k)
    requires Matches(env, nodes, other) && other != Winner(nodes, longest, k)
    ensures var winner := Winner(nodes, longest, k);
      var a, b := nodes[winner], nodes[other];
      var alike := a.matcher.Prefix? == b.matcher.Prefix? && PrefixLength(a) == PrefixLength(b);
      && (if longest then Narrower(a, b) || (alike && a.priority >= b.priority)
          else a.priority > b.priority || (a.priority == b.priority && (Narrower(a, b) || alike)))
      && (alike && a.priority == b.priority ==> winner < other)
  {
    Order.FirstMatchOutranks(NodeKeys(nodes), longest, Matching(env, nodes), k, other);
  }

  /** A prefix route against another kind, or the longer of two prefixes. */
  predicate Narrower(a: Node, b: Node) {
    a.matcher.Prefix? && (!b.matcher.Prefix? || PrefixLength(a) > PrefixLength(b))
  }
}
