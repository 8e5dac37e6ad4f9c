/** Compiling route tables (RouteTable.build in route_table.go): a graph of mutable tables, possibly shared and possibly
    cyclic, becomes an immutable tree of sorted routes. Tables are named by TableId where the source has pointers. */
module Compile {
  import opened Wrappers
  import Order

  type TableId = nat
  type HandlerId = nat
  type RouteId = string

  /** Matchers by kind. A decision matcher belongs to the memoization group of its builder. */
  datatype Matcher =
    | Predicate(code: nat)
    | Exact(extractor: nat, key: string)
    | Prefix(extractor: nat, prefix: string)
    | Decision(group: nat, expected: string, minConfidence: real)
    | TableCase(group: nat, expected: string)

  /** A declared route; `matcher` is absent and `configErr` set when its builder rejected the configuration. */
  datatype Route = Route(id: RouteId, priority: int, matcher: Option<Matcher>, configErr: bool,
                         handler: Option<HandlerId>, sub: Option<TableId>)

  datatype Table = Table(routes: seq<Route>, fallback: Option<HandlerId>, longest: bool)

  type Graph = map<TableId, Table>

  datatype Target = Leaf(handler: HandlerId) | Nested(tree: Tree)
  datatype Node = Node(id: RouteId, priority: int, matcher: Matcher, target: Target)
  datatype Tree = Tree(routes: seq<Node>, fallback: Option<HandlerId>, longest: bool)

  datatype Error =
    | NilTable | MountCycle(path: seq<RouteId>) | RejectedMatcher | NoTarget(id: RouteId) | TwoTargets(id: RouteId)
    | MissingMatcher(id: RouteId) | NoHandlers

  /** Mounted pointers lead to tables. */
  ghost predicate Closed(g: Graph) {
    forall t :: t in g ==> ClosedRoutes(g, g[t].routes)
  }

  ghost predicate ClosedRoutes(g: Graph, routes: seq<Route>) {
    forall route :: route in routes && route.sub.Some? ==> route.sub.value in g
  }

  function ValidateRoute(route: Route): Option<Error> {
    if route.configErr then Some(RejectedMatcher)
    else if route.handler.None? && route.sub.None? then Some(NoTarget(route.id))
    else if route.handler.Some? && route.sub.Some? then Some(TwoTargets(route.id))
    else if route.matcher.None? then Some(MissingMatcher(route.id))
    else None
  }

  function KeyOf(matcher: Matcher, priority: int): Order.Key {
    if matcher.Prefix? then Order.Prefix(|matcher.prefix|, priority) else Order.Other(priority)
  }

  function NodeKeys(nodes: seq<Node>): seq<Order.Key> {
    seq(|nodes|, i requires 0 <= i < |nodes| => KeyOf(nodes[i].matcher, nodes[i].priority))
  }

  function Arranged(nodes: seq<Node>, longest: bool): (r: seq<Node>)
    ensures |r| == |nodes|
  {
    var order := Order.StableOrder(NodeKeys(nodes), longest, 0);
    seq(|nodes|, i requires 0 <= i < |nodes| => nodes[order[i]])
  }

  // ---------------------------------------------------------------------------------------------
  // build

  function Build(g: Graph, t: TableId, ancestors: set<TableId>, path: seq<RouteId>): Result<Tree, Error>
    requires Closed(g) && t in g
    decreases g.Keys - ancestors, 0, 0
  {
    if t in ancestors then Err(MountCycle(path))
    else
      var nodes := BuildRoutes(g, g[t].routes, ancestors + {t}, path);
      if nodes.Err? then Err(nodes.error)
      else if nodes.value == [] && g[t].fallback.None? then Err(NoHandlers)
      else Ok(Tree(Arranged(nodes.value, g[t].longest), g[t].fallback, g[t].longest))
  }

  function BuildRoutes(g: Graph, routes: seq<Route>, ancestors: set<TableId>, path: seq<RouteId>)
    : Result<seq<Node>, Error>
    requires Closed(g) && ClosedRoutes(g, routes)
    decreases g.Keys - ancestors, |routes|
  {
    if routes == [] then Ok([])
    else
      var node := BuildRoute(g, routes[0], ancestors, path);
      if node.Err? then Err(node.error)
      else
        var rest := BuildRoutes(g, routes[1..], ancestors, path);
        if rest.Err? then Err(rest.error) else Ok([node.value] + rest.value)
  }

  function BuildRoute(g: Graph, route: Route, ancestors: set<TableId>, path: seq<RouteId>): Result<Node, Error>
    requires Closed(g) && (route.sub.Some? ==> route.sub.value in g)
    decreases g.Keys - ancestors, 0, 1
  {
    var invalid := ValidateRoute(route);
    if invalid.Some? then Err(invalid.value)
    else if route.sub.None? then Ok(Node(route.id, route.priority, route.matcher.value, Leaf(route.handler.value)))
    else
      var nested := Build(g, route.sub.value, ancestors, path + [route.id]);
      if nested.Err? then Err(nested.error)
      else Ok(Node(route.id, route.priority, route.matcher.value, Nested(nested.value)))
  }

  function Compiled(g: Graph, root: Option<TableId>): Result<Tree, Error>
    requires Closed(g) && (root.Some? ==> root.value in g)
  {
    if root.None? then Err(NilTable) else Build(g, root.value, {}, [])
  }

  /** The compiler as the source runs it: one mutable ancestor set, marked on the way in and unmarked on the way out. */
  class Compiler {
    var ancestors: set<TableId>

    constructor ()
      ensures ancestors == {}
    {
      ancestors := {};
    }

    method BuildTable(g: Graph, t: TableId, path: seq<RouteId>) returns (r: Result<Tree, Error>)
      requires Closed(g) && t in g
      modifies this
      ensures ancestors == old(ancestors)
      ensures r == Build(g, t, old(ancestors), path)
      decreases g.Keys - ancestors
    {
      if t in ancestors { return Err(MountCycle(path)); }
      ghost var above := ancestors;
      ancestors := ancestors + {t};
      var routes, nodes := g[t].routes, [];
      assert routes[0..] == routes;
      PrependNothing(BuildRoutes(g, routes, ancestors, path));
      for k := 0 to |routes|
        invariant ancestors == above + {t}
        invariant ClosedRoutes(g, routes[k..])
        invariant BuildRoutes(g, routes, ancestors, path)
               == Prepended(nodes, BuildRoutes(g, routes[k..], ancestors, path))
      {
        var route := routes[k];
        RoutesFrom(g, routes, ancestors, path, k, nodes);
        var invalid := ValidateRoute(route);
        if invalid.Some? {
          ancestors := ancestors - {t};
          return Err(invalid.value);
        }
        if route.sub.Some? {
          var nested := BuildTable(g, route.sub.value, path + [route.id]);
          if nested.Err? {
            ancestors := ancestors - {t};
            return Err(nested.error);
          }
          nodes := nodes + [Node(route.id, route.priority, route.matcher.value, Nested(nested.value))];
        } else {
          nodes := nodes + [Node(route.id, route.priority, route.matcher.value, Leaf(route.handler.value))];
        }
      }
      assert routes[|routes|..] == [] && nodes + [] == nodes;
      assert BuildRoutes(g, routes, above + {t}, path) == Ok(nodes);
      ancestors := ancestors - {t};
      assert ancestors == above;
      if nodes == [] && g[t].fallback.None? { return Err(NoHandlers); }
      return Ok(Tree(Arranged(nodes, g[t].longest), g[t].fallback, g[t].longest));
    }
  }

  function Prepended(nodes: seq<Node>, rest: Result<seq<Node>, Error>): Result<seq<Node>, Error> {
    if rest.Err? then rest else Ok(nodes + rest.value)
  }

  lemma PrependNothing(rest: Result<seq<Node>, Error>)
    ensures Prepended([], rest) == rest
  {
    if rest.Ok? { assert [] + rest.value == rest.value; }
  }

  /** One turn of the loop: the first remaining route either fails the table or joins the nodes built so far. */
  lemma RoutesFrom(g: Graph, routes: seq<Route>, ancestors: set<TableId>, path: seq<RouteId>, k: nat, nodes: seq<Node>)
    requires Closed(g) && k < |routes| && ClosedRoutes(g, routes[k..])
    ensures ClosedRoutes(g, routes[k + 1..]) && (routes[k].sub.Some? ==> routes[k].sub.value in g)
    ensures var node := BuildRoute(g, routes[k], ancestors, path);
      Prepended(nodes, BuildRoutes(g, routes[k..], ancestors, path))
      == if node.Err? then Err(node.error)
         else Prepended(nodes + [node.value], BuildRoutes(g, routes[k + 1..], ancestors, path))
  {
    assert routes[k..][0] == routes[k] && routes[k..][1..] == routes[k + 1..];
    assert forall r :: r in routes[k + 1..] ==> r in routes[k..];
    var node, rest := BuildRoute(g, routes[k], ancestors, path), BuildRoutes(g, routes[k + 1..], ancestors, path);
    if node.Ok? && rest.Ok? {
      assert nodes + ([node.value] + rest.value) == nodes + [node.value] + rest.value;
    }
  }

  // ---------------------------------------------------------------------------------------------
  // When compilation succeeds

  ghost predicate Mounts(g: Graph, a: TableId, b: TableId) {
    a in g && exists i :: 0 <= i < |g[a].routes| && g[a].routes[i].sub == Some(b)
  }

  ghost predicate Walk(g: Graph, w: seq<TableId>) {
    && w != [] && (forall i :: 0 <= i < |w| ==> w[i] in g)
    && (forall i :: 0 <= i < |w| - 1 ==> Mounts(g, w[i], w[i + 1]))
  }

  /** A route with an accepted matcher and either a handler or a mounted table. */
  predicate GoodRoute(route: Route) {
    !route.configErr && route.matcher.Some? && route.handler.Some? == route.sub.None?
  }

  predicate Good(table: Table) {
    && (forall i :: 0 <= i < |table.routes| ==> GoodRoute(table.routes[i]))
    && (table.routes != [] || table.fallback.Some?)
  }

  /** The walk visits no table twice and none above it, and ends in a well-configured one. */
  ghost predicate Clean(g: Graph, w: seq<TableId>, ancestors: set<TableId>)
    requires Walk(g, w)
  {
    && (forall i, j :: 0 <= i < j < |w| ==> w[i] != w[j])
    && (forall i :: 0 <= i < |w| ==> w[i] !in ancestors)
    && Good(g[w[|w| - 1]])
  }

  ghost predicate EveryWalkIsClean(g: Graph, t: TableId, ancestors: set<TableId>) {
    forall w :: Walk(g, w) && w[0] == t ==> Clean(g, w, ancestors)
  }

  lemma {:induction false} RoutesSucceedExactly(g: Graph, routes: seq<Route>, ancestors: set<TableId>,
                                                path: seq<RouteId>)
    requires Closed(g) && ClosedRoutes(g, routes)
    ensures BuildRoutes(g, routes, ancestors, path).Ok?
       <==> forall i :: 0 <= i < |routes| ==> BuildRoute(g, routes[i], ancestors, path).Ok?
    ensures BuildRoutes(g, routes, ancestors, path).Ok? ==> |BuildRoutes(g, routes, ancestors, path).value| == |routes|
    decreases |routes|
  {
    if routes != [] {
      RoutesSucceedExactly(g, routes[1..], ancestors, path);
      assert forall i :: 1 <= i < |routes| ==> routes[i] == routes[1..][i - 1];
    }
  }

  /** A mount graph compiles exactly when every walk from its root is clean: nothing reachable mounts itself again
      and every reachable table is well configured. Sharing a table between mounts is no obstacle. */
  lemma {:induction false} BuildSucceedsExactly(g: Graph, t: TableId, ancestors: set<TableId>, path: seq<RouteId>)
    requires Closed(g) && t in g
    ensures Build(g, t, ancestors, path).Ok? <==> EveryWalkIsClean(g, t, ancestors)
    decreases g.Keys - ancestors
  {
    if Build(g, t, ancestors, path).Ok? {
      forall w | Walk(g, w) && w[0] == t ensures Clean(g, w, ancestors) {
        SuccessCleansWalk(g, t, ancestors, path, w);
      }
    } else if EveryWalkIsClean(g, t, ancestors) {
      CleanWalksSucceed(g, t, ancestors, path);
    }
  }

  lemma BuiltRoute(g: Graph, t: TableId, ancestors: set<TableId>, path: seq<RouteId>, i: nat)
    requires Closed(g) && t in g && i < |g[t].routes| && Build(g, t, ancestors, path).Ok?
    ensures t !in ancestors && BuildRoute(g, g[t].routes[i], ancestors + {t}, path).Ok?
  {
    RoutesSucceedExactly(g, g[t].routes, ancestors + {t}, path);
  }

  lemma {:induction false} SuccessCleansWalk(g: Graph, t: TableId, ancestors: set<TableId>, path: seq<RouteId>,
                                             w: seq<TableId>)
    requires Closed(g) && t in g && Build(g, t, ancestors, path).Ok? && Walk(g, w) && w[0] == t
    ensures Clean(g, w, ancestors)
    decreases |w|
  {
    RoutesSucceedExactly(g, g[t].routes, ancestors + {t}, path);
    if |w| > 1 {
      assert Mounts(g, w[0], w[1]);
      var i :| 0 <= i < |g[t].routes| && g[t].routes[i].sub == Some(w[1]);
      BuiltRoute(g, t, ancestors, path, i);
      SuccessCleansWalk(g, w[1], ancestors + {t}, path + [g[t].routes[i].id], w[1..]);
      assert forall j :: 1 <= j < |w| ==> w[j] == w[1..][j - 1];
    }
  }

  lemma WalkFromChild(g: Graph, t: TableId, ancestors: set<TableId>, c: TableId, w: seq<TableId>)
    requires EveryWalkIsClean(g, t, ancestors) && Mounts(g, t, c) && Walk(g, w) && w[0] == c
    ensures Clean(g, w, ancestors + {t})
  {
    ExtendWalk(g, t, w);
    CleanTail(g, t, w, ancestors);
  }

  lemma ExtendWalk(g: Graph, t: TableId, w: seq<TableId>)
    requires Walk(g, w) && Mounts(g, t, w[0])
    ensures Walk(g, [t] + w)
  {
    var longer := [t] + w;
    forall i | 0 <= i < |longer| - 1 ensures Mounts(g, longer[i], longer[i + 1]) {
      if i > 0 { assert Mounts(g, w[i - 1], w[i - 1 + 1]); }
    }
  }

  lemma CleanTail(g: Graph, t: TableId, w: seq<TableId>, ancestors: set<TableId>)
    requires Walk(g, w) && Walk(g, [t] + w) && Clean(g, [t] + w, ancestors)
    ensures Clean(g, w, ancestors + {t})
  {
    var longer := [t] + w;
    forall i | 0 <= i < |w| ensures w[i] !in ancestors + {t} {
      assert longer[0] != longer[i + 1];
    }
    forall i, j | 0 <= i < j < |w| ensures w[i] != w[j] {
      assert longer[i + 1] != longer[j + 1];
    }
  }

  lemma {:induction false} CleanWalksSucceed(g: Graph, t: TableId, ancestors: set<TableId>, path: seq<RouteId>)
    requires Closed(g) && t in g && EveryWalkIsClean(g, t, ancestors)
    ensures Build(g, t, ancestors, path).Ok?
    decreases g.Keys - ancestors, 0
  {
    assert Walk(g, [t]) && Clean(g, [t], ancestors);
    assert [t][0] == t && [t][|[t]| - 1] == t;
    var routes := g[t].routes;
    forall i | 0 <= i < |routes| ensures BuildRoute(g, routes[i], ancestors + {t}, path).Ok? {
      assert ValidateRoute(routes[i]).None?;
      if routes[i].sub.Some? {
        var c := routes[i].sub.value;
        assert Mounts(g, t, c);
        forall w | Walk(g, w) && w[0] == c ensures Clean(g, w, ancestors + {t}) {
          WalkFromChild(g, t, ancestors, c, w);
        }
        CleanWalksSucceed(g, c, ancestors + {t}, path + [routes[i].id]);
      }
    }
    RoutesSucceedExactly(g, routes, ancestors + {t}, path);
  }

  // ---------------------------------------------------------------------------------------------
  // Which error a failed compilation reports

  /** What is wrong with a route, the matcher's own configuration first. */
  predicate Misconfigured(route: Route, err: Error) {
    match err
    case RejectedMatcher => route.configErr
    case NoTarget(id) => id == route.id && !route.configErr && route.handler.None? && route.sub.None?
    case TwoTargets(id) => id == route.id && !route.configErr && route.handler.Some? && route.sub.Some?
    case MissingMatcher(id) =>
      id == route.id && !route.configErr && route.matcher.None? && route.handler.Some? == route.sub.None?
    case _ => false
  }

  ghost predicate CleanRoute(g: Graph, route: Route, ancestors: set<TableId>) {
    GoodRoute(route) && (route.sub.Some? ==> EveryWalkIsClean(g, route.sub.value, ancestors))
  }

  /** The error of table t: it is mounted below itself, it has nothing to dispatch to, or its first route that is not
      clean is to blame. */
  ghost predicate Blamed(g: Graph, t: TableId, ancestors: set<TableId>, path: seq<RouteId>, err: Error)
    requires Closed(g) && t in g
    decreases g.Keys - ancestors, 0
  {
    if t in ancestors then err == MountCycle(path)
    else if g[t].routes == [] then g[t].fallback.None? && err == NoHandlers
    else SomeBlamed(g, g[t].routes, ancestors + {t}, path, err)
  }

  ghost predicate SomeBlamed(g: Graph, routes: seq<Route>, ancestors: set<TableId>, path: seq<RouteId>, err: Error)
    requires Closed(g) && ClosedRoutes(g, routes)
    decreases g.Keys - ancestors, 3
  {
    exists i :: FirstBlamed(g, routes, ancestors, path, i, err)
  }

  ghost predicate FirstBlamed(g: Graph, routes: seq<Route>, ancestors: set<TableId>, path: seq<RouteId>, i: int,
                              err: Error)
    requires Closed(g) && ClosedRoutes(g, routes)
    decreases g.Keys - ancestors, 2
  {
    && 0 <= i < |routes|
    && (forall k :: 0 <= k < i ==> CleanRoute(g, routes[k], ancestors))
    && BlamedRoute(g, routes[i], ancestors, path, err)
  }

  ghost predicate BlamedRoute(g: Graph, route: Route, ancestors: set<TableId>, path: seq<RouteId>, err: Error)
    requires Closed(g) && (route.sub.Some? ==> route.sub.value in g)
    decreases g.Keys - ancestors, 1
  {
    || Misconfigured(route, err)
    || (GoodRoute(route) && route.sub.Some? && Blamed(g, route.sub.value, ancestors, path + [route.id], err))
  }

  lemma MisconfiguredExactly(route: Route, err: Error)
    ensures ValidateRoute(route) == Some(err) <==> Misconfigured(route, err)
    ensures ValidateRoute(route).None? <==> GoodRoute(route)
  {
  }

  lemma RouteBuildsExactly(g: Graph, route: Route, ancestors: set<TableId>, path: seq<RouteId>)
    requires Closed(g) && (route.sub.Some? ==> route.sub.value in g)
    ensures BuildRoute(g, route, ancestors, path).Ok? <==> CleanRoute(g, route, ancestors)
  {
    if GoodRoute(route) && route.sub.Some? {
      BuildSucceedsExactly(g, route.sub.value, ancestors, path + [route.id]);
    }
  }

  lemma {:induction false} RouteFailsExactly(g: Graph, route: Route, ancestors: set<TableId>, path: seq<RouteId>,
                                             err: Error)
    requires Closed(g) && (route.sub.Some? ==> route.sub.value in g)
    ensures BuildRoute(g, route, ancestors, path) == Err(err) <==> BlamedRoute(g, route, ancestors, path, err)
    decreases g.Keys - ancestors, 1
  {
    MisconfiguredExactly(route, err);
    if GoodRoute(route) && route.sub.Some? {
      BuildFailsExactly(g, route.sub.value, ancestors, path + [route.id], err);
    }
  }

  lemma {:induction false} RoutesFailExactly(g: Graph, routes: seq<Route>, ancestors: set<TableId>, path: seq<RouteId>,
                                             err: Error)
    requires Closed(g) && ClosedRoutes(g, routes)
    ensures BuildRoutes(g, routes, ancestors, path) == Err(err)
       <==> SomeBlamed(g, routes, ancestors, path, err)
    decreases g.Keys - ancestors, 2, |routes|
  {
    if routes != [] {
      var rest := routes[1..];
      RouteBuildsExactly(g, routes[0], ancestors, path);
      RouteFailsExactly(g, routes[0], ancestors, path, err);
      if BuildRoute(g, routes[0], ancestors, path).Ok? {
        RoutesFailExactly(g, rest, ancestors, path, err);
        BlameShifts(g, routes, ancestors, path, err);
      } else {
        assert !CleanRoute(g, routes[0], ancestors);
        assert forall i :: FirstBlamed(g, routes, ancestors, path, i, err) ==> i == 0;
        assert BuildRoute(g, routes[0], ancestors, path) == Err(err)
            <==> FirstBlamed(g, routes, ancestors, path, 0, err);
      }
    }
  }

  lemma BlameShifts(g: Graph, routes: seq<Route>, ancestors: set<TableId>, path: seq<RouteId>, err: Error)
    requires Closed(g) && ClosedRoutes(g, routes) && routes != [] && CleanRoute(g, routes[0], ancestors)
    requires !BlamedRoute(g, routes[0], ancestors, path, err)
    ensures SomeBlamed(g, routes, ancestors, path, err) <==> SomeBlamed(g, routes[1..], ancestors, path, err)
  {
    var rest := routes[1..];
    if i :| FirstBlamed(g, routes, ancestors, path, i, err) {
      assert i > 0 && rest[i - 1] == routes[i];
      assert forall k :: 0 <= k < i - 1 ==> rest[k] == routes[k + 1];
      assert FirstBlamed(g, rest, ancestors, path, i - 1, err);
    }
    if i :| FirstBlamed(g, rest, ancestors, path, i, err) {
      assert routes[i + 1] == rest[i];
      assert forall k :: 1 <= k < i + 1 ==> routes[k] == rest[k - 1];
      assert FirstBlamed(g, routes, ancestors, path, i + 1, err);
    }
  }

  /** A failed compilation reports the first thing that is wrong, in declaration order and depth first, as it is: the
      route's own fault, a table with nothing to dispatch to, or the mount path at which a table contains itself. */
  lemma {:induction false} BuildFailsExactly(g: Graph, t: TableId, ancestors: set<TableId>, path: seq<RouteId>,
                                             err: Error)
    requires Closed(g) && t in g
    ensures Build(g, t, ancestors, path) == Err(err) <==> Blamed(g, t, ancestors, path, err)
    decreases g.Keys - ancestors, 0
  {
    if t !in ancestors {
      var routes, nodes := g[t].routes, BuildRoutes(g, g[t].routes, ancestors + {t}, path);
      RoutesFailExactly(g, routes, ancestors + {t}, path, err);
      RoutesSucceedExactly(g, routes, ancestors + {t}, path);
      assert routes != [] ==> (Build(g, t, ancestors, path) == Err(err) <==> nodes == Err(err));
    }
  }

  // ---------------------------------------------------------------------------------------------
  // What compilation produces

  function RouteKey(route: Route): Order.Key {
    if route.matcher.Some? then KeyOf(route.matcher.value, route.priority) else Order.Other(route.priority)
  }

  function RouteKeys(routes: seq<Route>): seq<Order.Key> {
    seq(|routes|, i requires 0 <= i < |routes| => RouteKey(routes[i]))
  }

  /** The tree is the unfolding of the graph at t: the same routes in stable order, mounts replaced by unfoldings. */
  ghost predicate Unfolds(g: Graph, t: TableId, tree: Tree)
    decreases tree
  {
    && t in g && tree.longest == g[t].longest && tree.fallback == g[t].fallback
    && exists order :: UnfoldsInOrder(g, t, tree.routes, order)
  }

  ghost predicate UnfoldsInOrder(g: Graph, t: TableId, nodes: seq<Node>, order: seq<nat>)
    requires t in g
    decreases nodes, 1
  {
    && Order.IsStableOrder(RouteKeys(g[t].routes), g[t].longest, order)
    && |nodes| == |order|
    && (forall i :: 0 <= i < |nodes| ==> UnfoldsRoute(g, g[t].routes[order[i]], nodes[i]))
  }

  ghost predicate UnfoldsRoute(g: Graph, route: Route, node: Node)
    decreases node
  {
    && node.id == route.id && node.priority == route.priority && route.matcher == Some(node.matcher)
    && match node.target
       case Leaf(handler) => route.handler == Some(handler) && route.sub.None?
       case Nested(tree) => route.handler.None? && route.sub.Some? && Unfolds(g, route.sub.value, tree)
  }

  lemma {:induction false} RoutesUnfold(g: Graph, routes: seq<Route>, ancestors: set<TableId>, path: seq<RouteId>)
    requires Closed(g) && ClosedRoutes(g, routes) && BuildRoutes(g, routes, ancestors, path).Ok?
    ensures var nodes := BuildRoutes(g, routes, ancestors, path).value;
      |nodes| == |routes| && forall i :: 0 <= i < |routes| ==> UnfoldsRoute(g, routes[i], nodes[i])
    decreases g.Keys - ancestors, |routes|
  {
    if routes != [] {
      RouteUnfolds(g, routes[0], ancestors, path);
      RoutesUnfold(g, routes[1..], ancestors, path);
    }
  }

  lemma {:induction false} RouteUnfolds(g: Graph, route: Route, ancestors: set<TableId>, path: seq<RouteId>)
    requires Closed(g) && (route.sub.Some? ==> route.sub.value in g) && BuildRoute(g, route, ancestors, path).Ok?
    ensures UnfoldsRoute(g, route, BuildRoute(g, route, ancestors, path).value)
    decreases g.Keys - ancestors, 0, 1
  {
    if route.sub.Some? {
      BuildUnfolds(g, route.sub.value, ancestors, path + [route.id]);
    }
  }

  /** A successful build returns the sorted unfolding. */
  lemma {:induction false} BuildUnfolds(g: Graph, t: TableId, ancestors: set<TableId>, path: seq<RouteId>)
    requires Closed(g) && t in g && Build(g, t, ancestors, path).Ok?
    ensures Unfolds(g, t, Build(g, t, ancestors, path).value)
    decreases g.Keys - ancestors, 0, 0
  {
    var routes, longest := g[t].routes, g[t].longest;
    var nodes := BuildRoutes(g, routes, ancestors + {t}, path).value;
    RoutesUnfold(g, routes, ancestors + {t}, path);
    SameKeys(g, routes, nodes);
    var order := Order.StableOrder(RouteKeys(routes), longest, 0);
    Order.StableSortIsUnique(RouteKeys(routes), longest, order);
    assert UnfoldsInOrder(g, t, Arranged(nodes, longest), order);
  }

  lemma SameKeys(g: Graph, routes: seq<Route>, nodes: seq<Node>)
    requires |nodes| == |routes| && forall i :: 0 <= i < |routes| ==> UnfoldsRoute(g, routes[i], nodes[i])
    ensures NodeKeys(nodes) == RouteKeys(routes)
  {
    forall i | 0 <= i < |nodes| ensures NodeKeys(nodes)[i] == RouteKeys(routes)[i] {
      assert UnfoldsRoute(g, routes[i], nodes[i]);
    }
  }

  /** There is only one unfolding, so the result depends on neither the mount path nor how tables are shared. */
  lemma {:induction false} UnfoldingIsUnique(g: Graph, t: TableId, a: Tree, b: Tree)
    requires Unfolds(g, t, a) && Unfolds(g, t, b)
    ensures a == b
    decreases a
  {
    var p :| UnfoldsInOrder(g, t, a.routes, p);
    var q :| UnfoldsInOrder(g, t, b.routes, q);
    Order.StableSortIsUnique(RouteKeys(g[t].routes), g[t].longest, p);
    Order.StableSortIsUnique(RouteKeys(g[t].routes), g[t].longest, q);
    forall i | 0 <= i < |a.routes| ensures a.routes[i] == b.routes[i] {
      NodeIsUnique(g, g[t].routes[p[i]], a.routes[i], b.routes[i]);
    }
  }

  lemma {:induction false} NodeIsUnique(g: Graph, route: Route, a: Node, b: Node)
    requires UnfoldsRoute(g, route, a) && UnfoldsRoute(g, route, b)
    ensures a == b
    decreases a
  {
    if a.target.Nested? {
      UnfoldingIsUnique(g, route.sub.value, a.target.tree, b.target.tree);
    }
  }

  /** Building exactly produces the unfolding: a tree is the result if and only if compilation succeeds at all and
      the tree unfolds the graph. */
  lemma CompiledIsTheUnfolding(g: Graph, t: TableId, tree: Tree)
    requires Closed(g) && t in g
    ensures Compiled(g, Some(t)) == Ok(tree) <==> EveryWalkIsClean(g, t, {}) && Unfolds(g, t, tree)
  {
    BuildSucceedsExactly(g, t, {}, []);
    if Build(g, t, {}, []).Ok? {
      BuildUnfolds(g, t, {}, []);
      if Unfolds(g, t, tree) {
        UnfoldingIsUnique(g, t, tree, Build(g, t, {}, []).value);
      }
    }
  }

  /** A table mounted in several places compiles to the same subtree in each. */
  lemma SharedTableCompilesAlike(g: Graph, t: TableId, above: set<TableId>, above': set<TableId>,
                                 path: seq<RouteId>, path': seq<RouteId>)
    requires Closed(g) && t in g && Build(g, t, above, path).Ok? && Build(g, t, above', path').Ok?
    ensures Build(g, t, above, path) == Build(g, t, above', path')
  {
    BuildUnfolds(g, t, above, path);
    BuildUnfolds(g, t, above', path');
    UnfoldingIsUnique(g, t, Build(g, t, above, path).value, Build(g, t, above', path').value);
  }
}
