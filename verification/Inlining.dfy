/** The plain reading of nested tables: one list of routes, each mount replaced by its own routes and fallback under its
    matcher, and nothing else. It does what nested dispatch does, except that nested dispatch (router.go) forgets an
    earlier non-terminal result on entering a mount. When that shows is stated exactly. */
module Inlining {
  import opened Wrappers
  import opened Compile
  import opened Dispatch

  /** The flat list without the marks of entering a mount. */
  function Plain(items: seq<Item>): seq<Item> {
    if items == [] then []
    else (if items[0].work.Enter? then [] else [items[0]]) + Plain(items[1..])
  }

  function PlainDispatch(env: Env, tree: Tree): Done {
    var cancelled := env.cancelled([]);
    if cancelled.Some? then Done(AbortResult, cancelled, [])
    else RunFlat(env, Plain(Flatten(tree.routes, [], [], 0)), tree.fallback, [], None)
  }

  // ---------------------------------------------------------------------------------------------
  // Compiled tables are never empty, so every mount contributes at least one route or fallback

  ghost predicate Inhabited(tree: Tree)
    decreases tree
  {
    && (tree.routes != [] || tree.fallback.Some?)
    && (forall i :: 0 <= i < |tree.routes| ==> InhabitedNode(tree.routes[i]))
  }

  ghost predicate InhabitedNode(node: Node)
    decreases node
  {
    node.target.Nested? ==> Inhabited(node.target.tree)
  }

  lemma {:induction false} BuiltTreesAreInhabited(g: Graph, t: TableId, ancestors: set<TableId>, path: seq<RouteId>)
    requires Compile.Closed(g) && t in g && Build(g, t, ancestors, path).Ok?
    ensures Inhabited(Build(g, t, ancestors, path).value)
    decreases g.Keys - ancestors, 0, 0
  {
    BuiltNodesAreInhabited(g, g[t].routes, ancestors + {t}, path);
  }

  lemma {:induction false} BuiltNodesAreInhabited(g: Graph, routes: seq<Route>, ancestors: set<TableId>,
                                                  path: seq<RouteId>)
    requires Compile.Closed(g) && ClosedRoutes(g, routes) && BuildRoutes(g, routes, ancestors, path).Ok?
    ensures var nodes := BuildRoutes(g, routes, ancestors, path).value;
      forall i :: 0 <= i < |nodes| ==> InhabitedNode(nodes[i])
    decreases g.Keys - ancestors, |routes|
  {
    if routes != [] {
      if routes[0].sub.Some? {
        BuiltTreesAreInhabited(g, routes[0].sub.value, ancestors, path + [routes[0].id]);
      }
      BuiltNodesAreInhabited(g, routes[1..], ancestors, path);
    }
  }

  /** An Enter mark is followed by an item under the same guards. */
  ghost predicate Backed(items: seq<Item>) {
    forall i :: 0 <= i < |items| && items[i].work.Enter? ==> i + 1 < |items| && items[i].guards <= items[i + 1].guards
  }

  lemma BackedConcat(a: seq<Item>, b: seq<Item>)
    requires Backed(a) && Backed(b)
    ensures Backed(a + b)
  {
    var all := a + b;
    forall i | 0 <= i < |all| && all[i].work.Enter?
      ensures i + 1 < |all| && all[i].guards <= all[i + 1].guards
    {
      if i < |a| {
        assert all[i] == a[i] && all[i + 1] == a[i + 1];
      } else {
        assert all[i] == b[i - |a|] && all[i + 1] == b[i - |a| + 1];
      }
    }
  }

  lemma BackedMount(enter: Item, inside: seq<Item>)
    requires Backed(inside) && inside != [] && Under(inside, enter.guards)
    ensures Backed([enter] + inside)
  {
    var all := [enter] + inside;
    forall i | 0 <= i < |all| && all[i].work.Enter?
      ensures i + 1 < |all| && all[i].guards <= all[i + 1].guards
    {
      assert all[i + 1] == inside[i];
      if i > 0 { assert all[i] == inside[i - 1]; }
    }
  }

  lemma {:induction false} FlattenIsBacked(nodes: seq<Node>, guards: seq<Guard>, path: seq<RouteId>, depth: nat)
    requires forall i :: 0 <= i < |nodes| ==> InhabitedNode(nodes[i])
    ensures Backed(Flatten(nodes, guards, path, depth))
    decreases nodes
  {
    if nodes != [] {
      FlattenNodeIsBacked(nodes[0], guards, path, depth);
      FlattenIsBacked(nodes[1..], guards, path, depth);
      BackedConcat(FlattenNode(nodes[0], guards, path, depth), Flatten(nodes[1..], guards, path, depth));
    }
  }

  lemma {:induction false} FlattenNodeIsBacked(node: Node, guards: seq<Guard>, path: seq<RouteId>, depth: nat)
    requires InhabitedNode(node)
    ensures Backed(FlattenNode(node, guards, path, depth)) && FlattenNode(node, guards, path, depth) != []
    decreases node
  {
    if node.target.Nested? {
      var tree, inner := node.target.tree, guards + [Guard(node, path, depth)];
      var below, down := path + [node.id], depth + 1;
      var routes, own := Flatten(tree.routes, inner, below, down), FlattenFallback(tree.fallback, inner, below, down);
      FlattenIsBacked(tree.routes, inner, below, down);
      FlattenIsUnder(tree.routes, inner, below, down);
      BackedConcat(routes, own);
      assert Under(routes + own, inner);
      assert routes + own != [] by { if tree.routes != [] { FlattenIsNotEmpty(tree.routes, inner, below, down); } }
      BackedMount(Item(inner, Enter), routes + own);
      assert FlattenNode(node, guards, path, depth) == [Item(inner, Enter)] + (routes + own);
    }
  }

  lemma FlattenIsNotEmpty(nodes: seq<Node>, guards: seq<Guard>, path: seq<RouteId>, depth: nat)
    requires nodes != []
    ensures Flatten(nodes, guards, path, depth) != []
  {
    assert |FlattenNode(nodes[0], guards, path, depth)| >= 1;
  }

  // ---------------------------------------------------------------------------------------------
  // Where the two lists differ

  datatype Seen = Nothing | Entered | Called

  /** The last item, in list order, whose guards all match. This depends on the request alone. */
  function LastOpen(env: Env, items: seq<Item>): Seen {
    if items == [] then Nothing
    else
      var later := LastOpen(env, items[1..]);
      if later != Nothing then later
      else if !Check(env, items[0].guards).Open? then Nothing
      else if items[0].work.Enter? then Entered else Called
  }

  predicate AnyCalled(env: Env, items: seq<Item>) {
    items != [] && ((!items[0].work.Enter? && Check(env, items[0].guards).Open?) || AnyCalled(env, items[1..]))
  }

  /** A mount is entered after the last route or fallback that applies, and there is one. */
  predicate Forgets(env: Env, items: seq<Item>) {
    LastOpen(env, items) == Entered && AnyCalled(env, items)
  }

  function OrNoRoute(last: Option<RouteResult>): RouteResult {
    if last.Some? then last.value else NoRoute
  }

  ghost predicate NextOrNone(last: Option<RouteResult>) {
    last.Some? ==> last.value.action == Next
  }

  /** How the runs of the two lists relate, from any remembered results: `e` with the marks, `p` without. */
  ghost predicate Related(env: Env, items: seq<Item>, fallback: Option<HandlerId>, older: Option<RouteResult>,
                          plain: Option<RouteResult>, e: Done, p: Done)
  {
    && e.trace == p.trace && e.err == p.err
    && (Terminal(e) || fallback.Some? ==> e == p)
    && (!Terminal(e) && fallback.None? ==>
          && !Terminal(p)
          && (LastOpen(env, items) == Nothing ==> e.result == OrNoRoute(older))
          && (LastOpen(env, items) == Entered ==> e.result == NoRoute)
          && (LastOpen(env, items) == Called ==> e.result == p.result)
          && (if AnyCalled(env, items) then p.result.matched.Some? else p.result == OrNoRoute(plain)))
  }

  lemma {:induction false} CalledIsSeen(env: Env, items: seq<Item>)
    requires LastOpen(env, items) == Nothing
    ensures !AnyCalled(env, items)
  {
    if items != [] { CalledIsSeen(env, items[1..]); }
  }

  lemma DoneByHandler(env: Env, work: Work, m: Option<Match>, trace: Trace)
    requires !work.Enter?
    ensures var p := DoItem(env, work, m, trace);
      && (p.Ended? ==> Terminal(p.done))
      && (p.Through? ==> p.last.Some? && p.last.value.action == Next && p.last.value.matched.Some?)
  {
  }

  lemma {:induction false} ListsAreRelated(env: Env, items: seq<Item>, fallback: Option<HandlerId>, trace: Trace,
                                           older: Option<RouteResult>, plain: Option<RouteResult>)
    requires Backed(items) && NextOrNone(older) && NextOrNone(plain)
    ensures Related(env, items, fallback, older, plain, RunFlat(env, items, fallback, trace, older),
                    RunFlat(env, Plain(items), fallback, trace, plain))
    decreases |items|
  {
    if items != [] {
      assert Backed(items[1..]) by { BackedTail(items); }
      if items[0].work.Enter? {
        MarkIsRelated(env, items, fallback, trace, older, plain);
      } else {
        assert Plain(items) == [items[0]] + Plain(items[1..]);
        assert Plain(items)[0] == items[0] && Plain(items)[1..] == Plain(items[1..]);
        if env.cancelled(trace).None? {
          match Check(env, items[0].guards)
          case Shut => ListsAreRelated(env, items[1..], fallback, trace, older, plain);
          case Breaks(_, _) =>
          case Open(m) =>
            DoneByHandler(env, items[0].work, m, trace);
            var p := DoItem(env, items[0].work, m, trace);
            if p.Through? {
              ListsAreRelated(env, items[1..], fallback, p.trace, p.last, p.last);
              if LastOpen(env, items[1..]) == Nothing { CalledIsSeen(env, items[1..]); }
            }
        }
      }
    }
  }

  lemma BackedTail(items: seq<Item>)
    requires Backed(items) && items != []
    ensures Backed(items[1..])
  {
    forall i | 0 <= i < |items[1..]| && items[1..][i].work.Enter?
      ensures i + 1 < |items[1..]| && items[1..][i].guards <= items[1..][i + 1].guards
    {
      assert items[i + 1].work.Enter?;
    }
  }

  /** A mark decides nothing: what it would stop at, the item behind it stops at too. */
  lemma MarkRuns(env: Env, items: seq<Item>, fallback: Option<HandlerId>, trace: Trace, older: Option<RouteResult>)
    requires items != [] && items[0].work.Enter? && Backed(items)
    ensures RunFlat(env, items, fallback, trace, older)
         == RunFlat(env, items[1..], fallback, trace,
                    if Check(env, items[0].guards).Open? then Some(NoRoute) else older)
  {
    var outer := items[0].guards;
    assert items[1..][0] == items[1] && outer <= items[1].guards;
    if env.cancelled(trace).None? && Check(env, outer).Breaks? {
      var deeper := items[1].guards[|outer|..];
      assert items[1].guards == outer + deeper;
      if deeper != [] { CheckAppend(env, outer, deeper); } else { assert items[1].guards == outer; }
    }
  }

  lemma {:induction false} MarkIsRelated(env: Env, items: seq<Item>, fallback: Option<HandlerId>, trace: Trace,
                                         older: Option<RouteResult>, plain: Option<RouteResult>)
    requires items != [] && items[0].work.Enter? && Backed(items) && Backed(items[1..])
    requires NextOrNone(older) && NextOrNone(plain)
    ensures Related(env, items, fallback, older, plain, RunFlat(env, items, fallback, trace, older),
                    RunFlat(env, Plain(items), fallback, trace, plain))
    decreases |items|, 0
  {
    var entered := Check(env, items[0].guards).Open?;
    var newer := if entered then Some(NoRoute) else older;
    MarkRuns(env, items, fallback, trace, older);
    ListsAreRelated(env, items[1..], fallback, trace, newer, plain);
    assert Plain(items) == Plain(items[1..]);
    RelatedAcrossMark(env, items, fallback, older, plain, RunFlat(env, items, fallback, trace, older),
                      RunFlat(env, Plain(items), fallback, trace, plain));
  }

  lemma RelatedAcrossMark(env: Env, items: seq<Item>, fallback: Option<HandlerId>, older: Option<RouteResult>,
                          plain: Option<RouteResult>, e: Done, p: Done)
    requires items != [] && items[0].work.Enter?
    requires Related(env, items[1..], fallback,
                     if Check(env, items[0].guards).Open? then Some(NoRoute) else older, plain, e, p)
    ensures Related(env, items, fallback, older, plain, e, p)
  {
  }

  /** Inlining mounts plainly never changes which handlers run, in which order, with which events, cleanups and error.
      It returns the same result exactly if dispatch ends terminally, or the root has a fallback, or no mount is
      entered after the last route that applies. */
  lemma PlainListAgreesExactly(env: Env, tree: Tree)
    requires Inhabited(tree)
    ensures var d, p := DispatchTable(env, tree, [], 0, []), PlainDispatch(env, tree);
      && p.trace == d.trace && p.err == d.err
      && (p.result == d.result <==>
            Terminal(d) || tree.fallback.Some? || !Forgets(env, Flatten(tree.routes, [], [], 0)))
  {
    var items := Flatten(tree.routes, [], [], 0);
    NestedDispatchEqualsFlat(env, tree);
    FlattenIsBacked(tree.routes, [], [], 0);
    ListsAreRelated(env, items, tree.fallback, [], None, None);
    if LastOpen(env, items) == Nothing { CalledIsSeen(env, items); }
  }

  /** The same for whatever compiles. */
  lemma CompiledTablesInlineExactly(env: Env, g: Graph, t: TableId)
    requires Compile.Closed(g) && t in g && Compiled(g, Some(t)).Ok?
    ensures var tree := Compiled(g, Some(t)).value;
      var d, p := DispatchTable(env, tree, [], 0, []), PlainDispatch(env, tree);
      && p.trace == d.trace && p.err == d.err
      && (p.result == d.result <==>
            Terminal(d) || tree.fallback.Some? || !Forgets(env, Flatten(tree.routes, [], [], 0)))
  {
    BuiltTreesAreInhabited(g, t, {}, []);
    PlainListAgreesExactly(env, Compiled(g, Some(t)).value);
  }

  // ---------------------------------------------------------------------------------------------
  // A request that tells them apart

  /** Code 0 holds, code 1 does not; every handler returns Next with body 7. */
  const Asking := Env(
    code => code == 0, _ => NoKey, _ => Err(InvalidConfig),
    (handler, m, trace) => Reply(RouteResult(Next, 7, None, None), None), (life, trace) => None, trace => None)

  const First := Node("first", 0, Predicate(0), Leaf(0))
  const Inside := Node("inside", 0, Predicate(1), Leaf(1))
  const Mounted := Node("mounted", 0, Predicate(0), Nested(Tree([Inside], None, false)))
  const Example := Tree([First, Mounted], None, false)

  const AtFirst := Guard(First, [], 0)
  const AtMount := Guard(Mounted, [], 0)
  const AtInside := Guard(Inside, ["mounted"], 1)
  const CallFirst := Item([AtFirst], Call(0))
  const EnterMount := Item([AtMount], Enter)
  const CallInside := Item([AtMount, AtInside], Call(1))

  lemma ExampleIsInhabited()
    ensures Inhabited(Example)
  {
    assert InhabitedNode(First) && InhabitedNode(Inside);
    assert Inhabited(Tree([Inside], None, false));
  }

  lemma ExampleFlattens()
    ensures Flatten(Example.routes, [], [], 0) == [CallFirst, EnterMount, CallInside]
  {
    assert Flatten([Inside], [AtMount], ["mounted"], 1) == [CallInside] by {
      assert [Inside][1..] == [] && [AtMount] + [AtInside] == [AtMount, AtInside];
      assert Flatten([Inside][1..], [AtMount], ["mounted"], 1) == [];
    }
    assert FlattenNode(Mounted, [], [], 0) == [EnterMount, CallInside] by {
      assert [] + [AtMount] == [AtMount] && [] + ["mounted"] == ["mounted"];
    }
    assert FlattenNode(First, [], [], 0) == [CallFirst] by { assert [] + [AtFirst] == [AtFirst]; }
    assert Flatten([Mounted], [], [], 0) == [EnterMount, CallInside] by {
      assert [Mounted][1..] == [] && Flatten([Mounted][1..], [], [], 0) == [];
    }
    assert Example.routes[1..] == [Mounted];
  }

  /** After the first route, the rest only keeps or forgets its result. */
  lemma ExampleRests(trace: Trace, r: RouteResult)
    ensures RunFlat(Asking, [EnterMount, CallInside], None, trace, Some(r)).result == NoRoute
    ensures RunFlat(Asking, [CallInside], None, trace, Some(r)).result == r
  {
    assert [AtMount, AtInside][1..] == [AtInside];
    assert Check(Asking, [AtInside]) == Shut && Check(Asking, [AtMount]).Open?;
    assert Check(Asking, [AtMount, AtInside]) == Shut;
    assert [EnterMount, CallInside][1..] == [CallInside] && [CallInside][1..] == [];
    assert RunFlat(Asking, [CallInside], None, trace, Some(NoRoute)).result == NoRoute;
  }

  lemma ExampleStarts(rest: seq<Item>)
    ensures var d := Invoke(Asking, 0, MatchOf(First, [], 0, NoData), []);
      && d.result.body == 7
      && RunFlat(Asking, [CallFirst] + rest, None, [], None) == RunFlat(Asking, rest, None, d.trace, Some(d.result))
  {
    var m := MatchOf(First, [], 0, NoData);
    assert Check(Asking, [AtFirst]) == Open(Some(m));
    assert ([CallFirst] + rest)[0] == CallFirst && ([CallFirst] + rest)[1..] == rest;
    var d := Invoke(Asking, 0, m, []);
    assert DoItem(Asking, Call(0), Some(m), []) == Through(Some(d.result), d.trace);
  }

  /** A route answers Next, then a mount is entered in which nothing matches: nested dispatch returns "no route", the
      plain list returns the first route's result. */
  lemma ListsCanDisagree()
    ensures Inhabited(Example)
    ensures DispatchTable(Asking, Example, [], 0, []).result == NoRoute
    ensures PlainDispatch(Asking, Example).result.body == 7
  {
    ExampleIsInhabited();
    ExampleFlattens();
    NestedDispatchEqualsFlat(Asking, Example);
    var d := Invoke(Asking, 0, MatchOf(First, [], 0, NoData), []);
    ExampleRests(d.trace, d.result);
    ExampleStarts([EnterMount, CallInside]);
    assert [CallFirst, EnterMount, CallInside] == [CallFirst] + [EnterMount, CallInside];
    ExampleStarts([CallInside]);
    ExamplePlain();
  }

  lemma ExamplePlain()
    ensures Plain([CallFirst, EnterMount, CallInside]) == [CallFirst] + [CallInside]
  {
    assert [CallFirst, EnterMount, CallInside][1..] == [EnterMount, CallInside];
    assert [EnterMount, CallInside][1..] == [CallInside] && [CallInside][1..] == [];
    assert Plain([CallInside]) == [CallInside] + Plain([]);
    assert Plain([EnterMount, CallInside]) == [] + Plain([CallInside]);
  }
}
