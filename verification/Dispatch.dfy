/** Dispatching a request through a compiled tree (router.go, and the matchers of route_table.go). What the engine does
    is recorded in a trace; handlers, cleanups and cancellation may depend on everything that happened before, so
    they are arbitrary functions of the trace. Matchers see only the request, which is fixed for one dispatch. */
module Dispatch {
  import opened Wrappers
  import opened Compile
  import Order

  type LifeId = int

  datatype Action = Next | Stop | Abort | Undeclared(code: nat)

  datatype Fault = Host(code: nat) | InvalidConfig | InvalidConfidence

  datatype Data = Data(key: string, prefix: string, remainder: string, reason: Option<int>)
  const NoData := Data("", "", "", None)

  datatype Kind = PredicateKind | ExactKind | PrefixKind | DecisionKind | TableKind | FallbackKind

  datatype Match = Match(id: RouteId, path: seq<RouteId>, priority: int, depth: nat, kind: Kind, data: Data)

  /** `body` stands for kind, reason and payload, which the engine never looks at. */
  datatype RouteResult = RouteResult(action: Action, body: int, life: Option<LifeId>, matched: Option<Match>)
  const NoRoute := RouteResult(Next, 0, None, None)
  const AbortResult := RouteResult(Abort, 0, None, None)

  datatype Event =
    | Invoked(handler: HandlerId, matched: Match)
    | Yielded(life: LifeId)
    | Emitted(matched: Match, result: RouteResult, err: Option<Fault>)
    | LifeClosed(life: LifeId, err: Option<Fault>)

  type Trace = seq<Event>

  datatype Reply = Reply(result: RouteResult, err: Option<Fault>)

  /** A classifier's decision; a confidence that is not a number or infinite is absent. */
  datatype Verdict = Verdict(key: string, matched: bool, confidence: Option<real>, reason: int)

  datatype Extracted = NoExtractor | NoKey | Key(key: string)

  datatype Env = Env(
    holds: nat -> bool,
    extract: nat -> Extracted,
    classify: nat -> Result<Verdict, Fault>,
    handle: (HandlerId, Match, Trace) -> Reply,
    close: (LifeId, Trace) -> Option<Fault>,
    cancelled: Trace -> Option<Fault>)

  // ---------------------------------------------------------------------------------------------
  // Matchers

  datatype Answer = Miss | Hit(data: Data) | Fail(err: Fault)

  predicate Decides(m: Matcher) {
    m.Decision? || m.TableCase?
  }

  predicate ValidConfidence(c: Option<real>) {
    c.Some? && 0.0 <= c.value <= 1.0
  }

  function Judge(m: Matcher, verdict: Result<Verdict, Fault>): Answer
    requires Decides(m)
  {
    if verdict.Err? then Fail(verdict.error)
    else if m.Decision? && !ValidConfidence(verdict.value.confidence) then Fail(InvalidConfidence)
    else if !verdict.value.matched || verdict.value.key != m.expected then Miss
    else if m.Decision? && verdict.value.confidence.value < m.minConfidence then Miss
    else Hit(Data(verdict.value.key, "", "", Some(verdict.value.reason)))
  }

  function Lookup(m: Matcher, extracted: Extracted): Answer
    requires m.Exact? || m.Prefix?
  {
    match extracted
    case NoExtractor => Fail(InvalidConfig)
    case NoKey => Miss
    case Key(key) =>
      if m.Exact? then (if key == m.key then Hit(Data(key, "", "", None)) else Miss)
      else if m.prefix <= key then Hit(Data(key, m.prefix, key[|m.prefix|..], None))
      else Miss
  }

  /** What a matcher answers, classifying afresh. */
  function Ask(env: Env, m: Matcher): Answer {
    match m
    case Predicate(code) => if env.holds(code) then Hit(NoData) else Miss
    case Exact(extractor, _) => Lookup(m, env.extract(extractor))
    case Prefix(extractor, _) => Lookup(m, env.extract(extractor))
    case Decision(group, _, _) => Judge(m, env.classify(group))
    case TableCase(group, _) => Judge(m, env.classify(group))
  }

  /** When a matcher matches, and what it then reports, from the request alone. */
  ghost predicate Applies(env: Env, m: Matcher, data: Data) {
    match m
    case Predicate(code) => env.holds(code) && data == Data("", "", "", None)
    case Exact(extractor, key) => env.extract(extractor) == Key(key) && data == Data(key, "", "", None)
    case Prefix(extractor, prefix) =>
      && env.extract(extractor) == Key(data.key) && data.key == prefix + data.remainder
      && data.prefix == prefix && data.reason == None
    case Decision(group, expected, minConfidence) =>
      && env.classify(group).Ok? && Says(env.classify(group).value, expected, data)
      && env.classify(group).value.confidence.Some?
      && 0.0 <= env.classify(group).value.confidence.value <= 1.0
      && minConfidence <= env.classify(group).value.confidence.value
    case TableCase(group, expected) => env.classify(group).Ok? && Says(env.classify(group).value, expected, data)
  }

  predicate Says(verdict: Verdict, expected: string, data: Data) {
    verdict.matched && verdict.key == expected && data == Data(expected, "", "", Some(verdict.reason))
  }

  /** When a matcher fails: no extractor, a classifier error, or a confidence that is no number in [0,1]. */
  ghost predicate Faults(env: Env, m: Matcher, err: Fault) {
    match m
    case Predicate(_) => false
    case Exact(extractor, _) => env.extract(extractor) == NoExtractor && err == InvalidConfig
    case Prefix(extractor, _) => env.extract(extractor) == NoExtractor && err == InvalidConfig
    case Decision(group, _, _) =>
      match env.classify(group) {
        case Err(error) => err == error
        case Ok(verdict) =>
          && err == InvalidConfidence
          && (verdict.confidence.None? || verdict.confidence.value < 0.0 || verdict.confidence.value > 1.0)
      }
    case TableCase(group, _) => env.classify(group) == Err(err)
  }

  ghost predicate Hits(env: Env, m: Matcher) {
    exists data :: Applies(env, m, data)
  }

  /** Every matcher kind hits, with its report, and fails, with its error, exactly as specified; it misses exactly
      when neither is the case. */
  lemma MatchersAnswerExactly(env: Env, m: Matcher, data: Data, err: Fault)
    ensures Ask(env, m) == Hit(data) <==> Applies(env, m, data)
    ensures Ask(env, m) == Fail(err) <==> Faults(env, m, err)
    ensures Ask(env, m).Hit? <==> Hits(env, m)
    ensures Hits(env, m) ==> !Faults(env, m, err)
  {
    AnswersData(env, m, data);
    if Ask(env, m).Hit? { AnswersData(env, m, Ask(env, m).data); }
    if Hits(env, m) {
      var hit :| Applies(env, m, hit);
      AnswersData(env, m, hit);
    }
    if m.Decision? || m.TableCase? { assert Ask(env, m) == Judge(m, env.classify(m.group)); }
  }

  lemma AnswersData(env: Env, m: Matcher, data: Data)
    ensures Ask(env, m) == Hit(data) <==> Applies(env, m, data)
  {
    if m.Prefix? && env.extract(m.extractor).Key? {
      var key := env.extract(m.extractor).key;
      assert m.prefix <= key ==> key == m.prefix + key[|m.prefix|..];
      assert Applies(env, m, data) ==> data.remainder == key[|m.prefix|..];
    }
    if m.Decision? || m.TableCase? { assert Ask(env, m) == Judge(m, env.classify(m.group)); }
  }

  function KindOf(m: Matcher): Kind {
    match m
    case Predicate(_) => PredicateKind
    case Exact(_, _) => ExactKind
    case Prefix(_, _) => PrefixKind
    case Decision(_, _, _) => DecisionKind
    case TableCase(_, _) => TableKind
  }

  function MatchOf(node: Node, path: seq<RouteId>, depth: nat, data: Data): Match {
    Match(node.id, path + [node.id], node.priority, depth, KindOf(node.matcher), data)
  }

  const FALLBACK: RouteId := "fallback"

  function FallbackMatch(path: seq<RouteId>, depth: nat): Match {
    Match(FALLBACK, path + [FALLBACK], 0, depth, FallbackKind, NoData)
  }

  // ---------------------------------------------------------------------------------------------
  // Handlers and cleanups

  /** The recorded outcome of closing a Lifetime, if it was closed. */
  function ClosedWith(trace: Trace, life: LifeId): Option<Option<Fault>> {
    if trace == [] then None
    else
      var last := trace[|trace| - 1];
      if last.LifeClosed? && last.life == life then Some(last.err) else ClosedWith(trace[..|trace| - 1], life)
  }

  /** Lifetime.Close: a nil Lifetime has nothing to close, a closed one repeats its answer. */
  function CloseLife(env: Env, life: Option<LifeId>, trace: Trace): (Option<Fault>, Trace) {
    if life.None? then (None, trace)
    else
      var known := ClosedWith(trace, life.value);
      if known.Some? then (known.value, trace)
      else
        var err := env.close(life.value, trace);
        (err, trace + [LifeClosed(life.value, err)])
  }

  datatype Done = Done(result: RouteResult, err: Option<Fault>, trace: Trace)

  predicate Terminal(d: Done) {
    d.err.Some? || d.result.action != Next
  }

  /** dispatchHandler and dispatchFallback: call, annotate, validate, emit. */
  function Invoke(env: Env, handler: HandlerId, m: Match, trace: Trace): Done {
    var reply := env.handle(handler, m, trace);
    var result := reply.result.(matched := Some(m));
    var started := trace + [Invoked(handler, m)];
    var returned := if result.life.Some? then started + [Yielded(result.life.value)] else started;
    var err := if reply.err.Some? then reply.err
               else if result.action == Next || result.action == Stop then None else Some(InvalidConfig);
    var final := if err.Some? then result.(action := Abort) else result;
    Done(final, err, returned + [Emitted(m, final, err)])
  }

  // ---------------------------------------------------------------------------------------------
  // The recursive interpreter

  /** After some routes: dispatch is over, or goes on with the last non-terminal result. */
  datatype Progress = Ended(done: Done) | Through(last: Option<RouteResult>, trace: Trace)

  function DispatchTable(env: Env, tree: Tree, path: seq<RouteId>, depth: nat, trace: Trace): Done
    decreases tree
  {
    var cancelled := env.cancelled(trace);
    if cancelled.Some? then Done(AbortResult, cancelled, trace)
    else
      match RunNodes(env, tree.routes, path, depth, trace, None)
      case Ended(done) => done
      case Through(last, after) => FinishTable(env, tree.fallback, path, depth, last, after)
  }

  function FinishTable(env: Env, fallback: Option<HandlerId>, path: seq<RouteId>, depth: nat,
                       last: Option<RouteResult>, trace: Trace): Done
  {
    if fallback.Some? then
      var cancelled := env.cancelled(trace);
      if cancelled.Some? then Done(AbortResult, cancelled, trace)
      else Invoke(env, fallback.value, FallbackMatch(path, depth), trace)
    else Done(if last.Some? then last.value else NoRoute, None, trace)
  }

  function RunNodes(env: Env, nodes: seq<Node>, path: seq<RouteId>, depth: nat, trace: Trace,
                    last: Option<RouteResult>): (p: Progress)
    ensures p.Ended? ==> Terminal(p.done)
    decreases nodes
  {
    if nodes == [] then Through(last, trace)
    else
      var cancelled := env.cancelled(trace);
      if cancelled.Some? then Ended(Done(AbortResult, cancelled, trace))
      else
        match RunNode(env, nodes[0], path, depth, trace, last)
        case Ended(done) => Ended(done)
        case Through(newer, after) => RunNodes(env, nodes[1..], path, depth, after, newer)
  }

  /** One turn of the loop in dispatchTable around dispatchEntry. */
  function RunNode(env: Env, node: Node, path: seq<RouteId>, depth: nat, trace: Trace,
                   last: Option<RouteResult>): (p: Progress)
    ensures p.Ended? ==> Terminal(p.done)
    decreases node, 1
  {
    match Ask(env, node.matcher)
    case Miss => Through(last, trace)
    case Fail(err) => Ended(Broken(MatchOf(node, path, depth, NoData), err, trace))
    case Hit(data) => Discarded(env, DispatchHit(env, node, MatchOf(node, path, depth, data), depth, trace))
  }

  function DispatchHit(env: Env, node: Node, m: Match, depth: nat, trace: Trace): Done
    decreases node, 0
  {
    match node.target
    case Leaf(handler) => Invoke(env, handler, m, trace)
    case Nested(tree) => DispatchTable(env, tree, m.path, depth + 1, trace)
  }

  function Broken(m: Match, err: Fault, trace: Trace): (d: Done)
    ensures d.err.Some?
  {
    var result := AbortResult.(matched := Some(m));
    Done(result, Some(err), trace + [Emitted(m, result, Some(err))])
  }

  /** A terminal result ends dispatch; a non-terminal one is closed before anything else happens. */
  function Discarded(env: Env, done: Done): (p: Progress)
    ensures p.Ended? ==> Terminal(p.done)
  {
    if Terminal(done) then Ended(done)
    else
      var (err, closed) := CloseLife(env, done.result.life, done.trace);
      if err.Some? then Ended(Done(done.result.(action := Abort), err, closed))
      else Through(Some(done.result), closed)
  }

  // ---------------------------------------------------------------------------------------------
  // The flat reference

  /** A matcher together with what a match of it reports. */
  datatype Guard = Guard(node: Node, path: seq<RouteId>, depth: nat)

  datatype Work = Enter | Call(handler: HandlerId) | Otherwise(handler: HandlerId, matched: Match)

  /** Work that is done when every guard matches: the mounts on the way down, then the route's own matcher. */
  datatype Item = Item(guards: seq<Guard>, work: Work)

  datatype Gate = Open(matched: Option<Match>) | Shut | Breaks(broken: Match, err: Fault)

  function Check(env: Env, guards: seq<Guard>): Gate {
    if guards == [] then Open(None)
    else
      var g := guards[0];
      match Ask(env, g.node.matcher)
      case Miss => Shut
      case Fail(err) => Breaks(MatchOf(g.node, g.path, g.depth, NoData), err)
      case Hit(data) =>
        if |guards| == 1 then Open(Some(MatchOf(g.node, g.path, g.depth, data))) else Check(env, guards[1..])
  }

  /** The mount graph's routes as one list. A mount contributes an Enter item, its own routes and its own fallback,
      all guarded by its matcher as well. */
  function Flatten(nodes: seq<Node>, guards: seq<Guard>, path: seq<RouteId>, depth: nat): seq<Item>
    decreases nodes
  {
    if nodes == [] then []
    else FlattenNode(nodes[0], guards, path, depth) + Flatten(nodes[1..], guards, path, depth)
  }

  function FlattenNode(node: Node, guards: seq<Guard>, path: seq<RouteId>, depth: nat): seq<Item>
    decreases node
  {
    var inner := guards + [Guard(node, path, depth)];
    match node.target
    case Leaf(handler) => [Item(inner, Call(handler))]
    case Nested(tree) =>
      [Item(inner, Enter)] + Flatten(tree.routes, inner, path + [node.id], depth + 1)
      + FlattenFallback(tree.fallback, inner, path + [node.id], depth + 1)
  }

  function FlattenFallback(fallback: Option<HandlerId>, guards: seq<Guard>, path: seq<RouteId>, depth: nat): seq<Item> {
    if fallback.Some? then [Item(guards, Otherwise(fallback.value, FallbackMatch(path, depth)))] else []
  }

  /** A plain loop over the list. Entering a mount only forgets earlier non-terminal results. */
  function RunFlat(env: Env, items: seq<Item>, fallback: Option<HandlerId>, trace: Trace, last: Option<RouteResult>)
    : Done
    decreases |items|
  {
    if items == [] then FinishTable(env, fallback, [], 0, last, trace)
    else
      var cancelled := env.cancelled(trace);
      if cancelled.Some? then Done(AbortResult, cancelled, trace)
      else
        match Check(env, items[0].guards)
        case Shut => RunFlat(env, items[1..], fallback, trace, last)
        case Breaks(m, err) => Broken(m, err, trace)
        case Open(m) =>
          match DoItem(env, items[0].work, m, trace)
          case Ended(done) => done
          case Through(newer, after) => RunFlat(env, items[1..], fallback, after, newer)
  }

  function DoItem(env: Env, work: Work, m: Option<Match>, trace: Trace): Progress {
    match work
    case Enter => Through(Some(NoRoute), trace)
    case Call(handler) =>
      Discarded(env, Invoke(env, handler, if m.Some? then m.value else FallbackMatch([], 0), trace))
    case Otherwise(handler, own) => Discarded(env, Invoke(env, handler, own, trace))
  }

  function FlatDispatch(env: Env, tree: Tree): Done {
    var cancelled := env.cancelled([]);
    if cancelled.Some? then Done(AbortResult, cancelled, [])
    else RunFlat(env, Flatten(tree.routes, [], [], 0), tree.fallback, [], None)
  }

  // ---------------------------------------------------------------------------------------------
  // Nested dispatch equals flat dispatch

  function Resume(env: Env, p: Progress, rest: seq<Item>, fallback: Option<HandlerId>): Done {
    match p
    case Ended(done) => done
    case Through(last, trace) => RunFlat(env, rest, fallback, trace, last)
  }

  /** A remembered result is non-terminal and already closed without error. */
  predicate LastIsClosed(last: Option<RouteResult>, trace: Trace) {
    last.Some? ==>
      && last.value.action == Next
      && (last.value.life.Some? ==> ClosedWith(trace, last.value.life.value) == Some(None))
  }

  lemma ClosedAppend(trace: Trace, e: Event, life: LifeId)
    ensures ClosedWith(trace + [e], life)
         == if e.LifeClosed? && e.life == life then Some(e.err) else ClosedWith(trace, life)
  {
    assert (trace + [e])[..|trace|] == trace;
  }

  lemma DiscardedIsClosed(env: Env, done: Done)
    ensures var p := Discarded(env, done);
      p.Through? ==> p.last == Some(done.result) && LastIsClosed(p.last, p.trace)
  {
    if !Terminal(done) && done.result.life.Some? {
      var life := done.result.life.value;
      ClosedAppend(done.trace, LifeClosed(life, env.close(life, done.trace)), life);
    }
  }

  /** The result remembered before only matters if nothing newer turns up. */
  lemma {:induction false} OlderIsDefault(env: Env, nodes: seq<Node>, path: seq<RouteId>, depth: nat, trace: Trace,
                                          last: Option<RouteResult>)
    requires last.Some?
    ensures var p, p0 := RunNodes(env, nodes, path, depth, trace, last), RunNodes(env, nodes, path, depth, trace, None);
      p == if p0.Through? && p0.last.None? then Through(last, p0.trace) else p0
    decreases |nodes|
  {
    if nodes != [] && env.cancelled(trace).None? {
      if Ask(env, nodes[0].matcher).Miss? {
        OlderIsDefault(env, nodes[1..], path, depth, trace, last);
      } else {
        assert RunNode(env, nodes[0], path, depth, trace, last) == RunNode(env, nodes[0], path, depth, trace, None);
        LaterIsSome(env, nodes, path, depth, trace);
      }
    }
  }

  lemma LaterIsSome(env: Env, nodes: seq<Node>, path: seq<RouteId>, depth: nat, trace: Trace)
    requires nodes != [] && env.cancelled(trace).None? && !Ask(env, nodes[0].matcher).Miss?
    ensures var p := RunNodes(env, nodes, path, depth, trace, None); p.Through? ==> p.last.Some?
  {
    var p := RunNode(env, nodes[0], path, depth, trace, None);
    if p.Through? {
      SomeStays(env, nodes[1..], path, depth, p.trace, p.last);
    }
  }

  lemma {:induction false} SomeStays(env: Env, nodes: seq<Node>, path: seq<RouteId>, depth: nat, trace: Trace,
                                     last: Option<RouteResult>)
    requires last.Some?
    ensures var p := RunNodes(env, nodes, path, depth, trace, last); p.Through? ==> p.last.Some?
    decreases |nodes|
  {
    if nodes != [] && env.cancelled(trace).None? {
      var p := RunNode(env, nodes[0], path, depth, trace, last);
      if p.Through? { SomeStays(env, nodes[1..], path, depth, p.trace, p.last); }
    }
  }

  lemma {:induction false} LastStaysClosed(env: Env, nodes: seq<Node>, path: seq<RouteId>, depth: nat, trace: Trace,
                                           last: Option<RouteResult>)
    requires LastIsClosed(last, trace)
    ensures var p := RunNodes(env, nodes, path, depth, trace, last); p.Through? ==> LastIsClosed(p.last, p.trace)
    decreases |nodes|
  {
    if nodes != [] && env.cancelled(trace).None? {
      var p := RunNode(env, nodes[0], path, depth, trace, last);
      match Ask(env, nodes[0].matcher)
      case Miss => LastStaysClosed(env, nodes[1..], path, depth, trace, last);
      case Fail(_) =>
      case Hit(data) =>
        DiscardedIsClosed(env, DispatchHit(env, nodes[0], MatchOf(nodes[0], path, depth, data), depth, trace));
        if p.Through? { LastStaysClosed(env, nodes[1..], path, depth, p.trace, p.last); }
    }
  }

  lemma {:induction false} CheckAppend(env: Env, outer: seq<Guard>, inner: seq<Guard>)
    requires inner != []
    ensures Check(env, outer + inner) == if Check(env, outer).Open? then Check(env, inner) else Check(env, outer)
    decreases |outer|
  {
    if outer == [] {
      assert outer + inner == inner;
    } else {
      assert (outer + inner)[1..] == outer[1..] + inner;
      CheckAppend(env, outer[1..], inner);
    }
  }

  ghost predicate Under(items: seq<Item>, guards: seq<Guard>) {
    forall i :: 0 <= i < |items| ==> guards <= items[i].guards
  }

  lemma {:induction false} FlattenIsUnder(nodes: seq<Node>, guards: seq<Guard>, path: seq<RouteId>, depth: nat)
    ensures Under(Flatten(nodes, guards, path, depth), guards)
    decreases nodes
  {
    if nodes != [] {
      FlattenNodeIsUnder(nodes[0], guards, path, depth);
      FlattenIsUnder(nodes[1..], guards, path, depth);
      UnderShorter(FlattenNode(nodes[0], guards, path, depth), guards, Guard(nodes[0], path, depth));
    }
  }

  lemma {:induction false} FlattenNodeIsUnder(node: Node, guards: seq<Guard>, path: seq<RouteId>, depth: nat)
    ensures Under(FlattenNode(node, guards, path, depth), guards + [Guard(node, path, depth)])
    decreases node
  {
    if node.target.Nested? {
      FlattenIsUnder(node.target.tree.routes, guards + [Guard(node, path, depth)], path + [node.id], depth + 1);
    }
  }

  lemma UnderShorter(items: seq<Item>, guards: seq<Guard>, g: Guard)
    requires Under(items, guards + [g])
    ensures Under(items, guards)
  {
    forall i | 0 <= i < |items| ensures guards <= items[i].guards {
      assert guards <= guards + [g] <= items[i].guards;
    }
  }

  /** Items under a guard that does not match are passed over. */
  lemma {:induction false} ShutItemsAreSkipped(env: Env, items: seq<Item>, guards: seq<Guard>, rest: seq<Item>,
                                               fallback: Option<HandlerId>, trace: Trace, last: Option<RouteResult>)
    requires Under(items, guards) && Check(env, guards) == Shut && env.cancelled(trace).None?
    ensures RunFlat(env, items + rest, fallback, trace, last) == RunFlat(env, rest, fallback, trace, last)
    decreases |items|
  {
    if items == [] {
      assert items + rest == rest;
    } else {
      var all := items + rest;
      var deeper := items[0].guards[|guards|..];
      assert items[0].guards == guards + deeper;
      if deeper != [] { CheckAppend(env, guards, deeper); } else { assert items[0].guards == guards; }
      assert all[0] == items[0] && all[1..] == items[1..] + rest;
      ShutItemsAreSkipped(env, items[1..], guards, rest, fallback, trace, last);
    }
  }

  lemma {:induction false} NodesRunFlat(env: Env, nodes: seq<Node>, guards: seq<Guard>, path: seq<RouteId>, depth: nat,
                                        rest: seq<Item>, fallback: Option<HandlerId>, trace: Trace,
                                        last: Option<RouteResult>)
    requires Check(env, guards).Open?
    ensures RunFlat(env, Flatten(nodes, guards, path, depth) + rest, fallback, trace, last)
         == Resume(env, RunNodes(env, nodes, path, depth, trace, last), rest, fallback)
    decreases nodes
  {
    if nodes == [] {
      assert Flatten(nodes, guards, path, depth) + rest == rest;
    } else {
      var head, tail := FlattenNode(nodes[0], guards, path, depth), Flatten(nodes[1..], guards, path, depth);
      assert Flatten(nodes, guards, path, depth) + rest == head + (tail + rest);
      if env.cancelled(trace).None? {
        NodeRunsFlat(env, nodes[0], guards, path, depth, tail + rest, fallback, trace, last);
        var p := RunNode(env, nodes[0], path, depth, trace, last);
        if p.Through? {
          NodesRunFlat(env, nodes[1..], guards, path, depth, rest, fallback, p.trace, p.last);
        }
      }
    }
  }

  lemma {:induction false} NodeRunsFlat(env: Env, node: Node, guards: seq<Guard>, path: seq<RouteId>, depth: nat,
                                        rest: seq<Item>, fallback: Option<HandlerId>, trace: Trace,
                                        last: Option<RouteResult>)
    requires Check(env, guards).Open? && env.cancelled(trace).None?
    ensures RunFlat(env, FlattenNode(node, guards, path, depth) + rest, fallback, trace, last)
         == Resume(env, RunNode(env, node, path, depth, trace, last), rest, fallback)
    decreases node
  {
    var g := Guard(node, path, depth);
    var inner := guards + [g];
    var items := FlattenNode(node, guards, path, depth);
    CheckAppend(env, guards, [g]);
    if Ask(env, node.matcher).Miss? {
      FlattenNodeIsUnder(node, guards, path, depth);
      ShutItemsAreSkipped(env, items, inner, rest, fallback, trace, last);
    } else if node.target.Leaf? || Ask(env, node.matcher).Fail? {
      assert (items + rest)[0] == items[0] && items[0].guards == inner;
      if node.target.Leaf? { assert (items + rest)[1..] == rest; }
    } else {
      MountRunsFlat(env, node, guards, path, depth, rest, fallback, trace, last);
    }
  }

  /** A matched mount: what its own table does, seen from the flat list. */
  lemma {:induction false} MountRunsFlat(env: Env, node: Node, guards: seq<Guard>, path: seq<RouteId>, depth: nat,
                                         rest: seq<Item>, fallback: Option<HandlerId>, trace: Trace,
                                         last: Option<RouteResult>)
    requires Check(env, guards).Open? && env.cancelled(trace).None?
    requires node.target.Nested? && Ask(env, node.matcher).Hit?
    requires Check(env, guards + [Guard(node, path, depth)]).Open?
    ensures RunFlat(env, FlattenNode(node, guards, path, depth) + rest, fallback, trace, last)
         == Resume(env, RunNode(env, node, path, depth, trace, last), rest, fallback)
    decreases node, 0
  {
    var tree, inner := node.target.tree, guards + [Guard(node, path, depth)];
    var below, down := path + [node.id], depth + 1;
    var routes, own := Flatten(tree.routes, inner, below, down), FlattenFallback(tree.fallback, inner, below, down);
    var items := FlattenNode(node, guards, path, depth) + rest;
    assert items[0] == Item(inner, Enter) && items[1..] == routes + (own + rest);
    NodesRunFlat(env, tree.routes, inner, below, down, own + rest, fallback, trace, Some(NoRoute));
    OlderIsDefault(env, tree.routes, below, down, trace, Some(NoRoute));
    LastStaysClosed(env, tree.routes, below, down, trace, Some(NoRoute));
    var p := RunNodes(env, tree.routes, below, down, trace, Some(NoRoute));
    assert RunFlat(env, items, fallback, trace, last) == Resume(env, p, own + rest, fallback);
    MountTurn(env, node, path, depth, trace, last);
    if p.Through? {
      SomeStays(env, tree.routes, below, down, trace, Some(NoRoute));
      var p0 := RunNodes(env, tree.routes, below, down, trace, None);
      FallbackRunsFlat(env, tree.fallback, inner, below, down, rest, fallback, p.trace, p.last.value, p0.last);
    }
  }

  /** One turn of the loop at a matched mount, in terms of the mounted table's own loop. */
  lemma MountTurn(env: Env, node: Node, path: seq<RouteId>, depth: nat, trace: Trace, last: Option<RouteResult>)
    requires env.cancelled(trace).None? && node.target.Nested? && Ask(env, node.matcher).Hit?
    ensures var tree := node.target.tree;
      var p0 := RunNodes(env, tree.routes, path + [node.id], depth + 1, trace, None);
      RunNode(env, node, path, depth, trace, last)
      == if p0.Ended? then p0
         else Discarded(env, FinishTable(env, tree.fallback, path + [node.id], depth + 1, p0.last, p0.trace))
  {
    var m := MatchOf(node, path, depth, Ask(env, node.matcher).data);
    var done := DispatchTable(env, node.target.tree, path + [node.id], depth + 1, trace);
    assert DispatchHit(env, node, m, depth, trace) == done;
    assert RunNode(env, node, path, depth, trace, last) == Discarded(env, done);
  }

  lemma HeadAndRest(item: Item, rest: seq<Item>)
    ensures ([item] + rest)[0] == item && ([item] + rest)[1..] == rest
  {
  }

  lemma FallbackRunsFlat(env: Env, own: Option<HandlerId>, guards: seq<Guard>, path: seq<RouteId>, depth: nat,
                         rest: seq<Item>, fallback: Option<HandlerId>, trace: Trace,
                         result: RouteResult, last: Option<RouteResult>)
    requires Check(env, guards).Open? && LastIsClosed(Some(result), trace)
    requires result == if last.Some? then last.value else NoRoute
    ensures RunFlat(env, FlattenFallback(own, guards, path, depth) + rest, fallback, trace, Some(result))
         == Resume(env, Discarded(env, FinishTable(env, own, path, depth, last, trace)), rest, fallback)
  {
    match own
    case None => assert FlattenFallback(own, guards, path, depth) + rest == rest;
    case Some(handler) => HeadAndRest(Item(guards, Otherwise(handler, FallbackMatch(path, depth))), rest);
  }

  /** Dispatching through the tree is the same as running its routes as one flat list: the same handlers are invoked
      with the same matches, the same cleanups run and the same events are emitted in the same order, and the same
      result or error comes back. */
  lemma NestedDispatchEqualsFlat(env: Env, tree: Tree)
    ensures DispatchTable(env, tree, [], 0, []) == FlatDispatch(env, tree)
  {
    var items := Flatten(tree.routes, [], [], 0);
    NodesRunFlat(env, tree.routes, [], [], 0, [], tree.fallback, [], None);
    assert items + [] == items;
  }

  // ---------------------------------------------------------------------------------------------
  // Lifetimes: at most one result is open at any time

  /** Every Lifetime a handler returned is closed, except possibly one. */
  ghost predicate ClosedBut(trace: Trace, owner: Option<LifeId>) {
    forall i :: 0 <= i < |trace| && trace[i].Yielded? ==>
      ClosedWith(trace, trace[i].life).Some? || owner == Some(trace[i].life)
  }

  /** Whenever a handler was invoked, every Lifetime returned before was closed before. */
  ghost predicate Tidy(trace: Trace) {
    forall j :: 0 <= j < |trace| && trace[j].Invoked? ==> ClosedBut(trace[..j], None)
  }

  lemma TraceAppend(trace: Trace, e: Event, owner: Option<LifeId>)
    requires Tidy(trace) && ClosedBut(trace, owner) && (e.Invoked? ==> owner.None?)
    ensures Tidy(trace + [e])
    ensures !e.Yielded? ==> ClosedBut(trace + [e], owner)
    ensures e.Yielded? && owner.None? ==> ClosedBut(trace + [e], Some(e.life))
    ensures e.LifeClosed? && owner == Some(e.life) ==> ClosedBut(trace + [e], None)
  {
    var longer := trace + [e];
    forall j | 0 <= j < |longer| && longer[j].Invoked? ensures ClosedBut(longer[..j], None) {
      assert longer[..j] == trace[..j];
      assert j == |trace| ==> trace[..j] == trace;
    }
    forall i | 0 <= i < |trace| && trace[i].Yielded?
      ensures ClosedWith(trace, trace[i].life).Some? ==> ClosedWith(longer, trace[i].life).Some?
      ensures e.LifeClosed? && e.life == trace[i].life ==> ClosedWith(longer, trace[i].life).Some?
    {
      ClosedAppend(trace, e, trace[i].life);
    }
  }

  lemma InvokeIsTidy(env: Env, handler: HandlerId, m: Match, trace: Trace)
    requires Tidy(trace) && ClosedBut(trace, None)
    ensures var d := Invoke(env, handler, m, trace); Tidy(d.trace) && ClosedBut(d.trace, d.result.life)
  {
    var d := Invoke(env, handler, m, trace);
    TraceAppend(trace, Invoked(handler, m), None);
    var started := trace + [Invoked(handler, m)];
    if d.result.life.Some? {
      TraceAppend(started, Yielded(d.result.life.value), None);
      TraceAppend(started + [Yielded(d.result.life.value)], Emitted(m, d.result, d.err), d.result.life);
    } else {
      TraceAppend(started, Emitted(m, d.result, d.err), None);
    }
  }

  lemma DiscardedIsTidy(env: Env, done: Done)
    requires Tidy(done.trace) && ClosedBut(done.trace, done.result.life)
    ensures match Discarded(env, done)
      case Ended(d) => Tidy(d.trace) && ClosedBut(d.trace, d.result.life)
      case Through(_, trace) => Tidy(trace) && ClosedBut(trace, None)
  {
    if !Terminal(done) && done.result.life.Some? && ClosedWith(done.trace, done.result.life.value).None? {
      var life := done.result.life.value;
      TraceAppend(done.trace, LifeClosed(life, env.close(life, done.trace)), Some(life));
    }
  }

  lemma BrokenIsTidy(m: Match, err: Fault, trace: Trace)
    requires Tidy(trace) && ClosedBut(trace, None)
    ensures var d := Broken(m, err, trace); Tidy(d.trace) && ClosedBut(d.trace, d.result.life)
  {
    var d := Broken(m, err, trace);
    TraceAppend(trace, d.trace[|trace|], None);
  }

  lemma FinishIsTidy(env: Env, fallback: Option<HandlerId>, last: Option<RouteResult>, trace: Trace)
    requires Tidy(trace) && ClosedBut(trace, None)
    ensures var d := FinishTable(env, fallback, [], 0, last, trace); Tidy(d.trace) && ClosedBut(d.trace, d.result.life)
  {
    if fallback.Some? && env.cancelled(trace).None? {
      InvokeIsTidy(env, fallback.value, FallbackMatch([], 0), trace);
    }
  }

  lemma {:induction false} FlatIsTidy(env: Env, items: seq<Item>, fallback: Option<HandlerId>, trace: Trace,
                                      last: Option<RouteResult>)
    requires Tidy(trace) && ClosedBut(trace, None)
    ensures var d := RunFlat(env, items, fallback, trace, last); Tidy(d.trace) && ClosedBut(d.trace, d.result.life)
    decreases |items|
  {
    if items == [] {
      FinishIsTidy(env, fallback, last, trace);
    } else if env.cancelled(trace).None? {
      match Check(env, items[0].guards)
      case Shut => FlatIsTidy(env, items[1..], fallback, trace, last);
      case Breaks(m, err) => BrokenIsTidy(m, err, trace);
      case Open(m) =>
        var p := DoItem(env, items[0].work, m, trace);
        ItemIsTidy(env, items[0].work, m, trace);
        if p.Through? { FlatIsTidy(env, items[1..], fallback, p.trace, p.last); }
    }
  }

  lemma ItemIsTidy(env: Env, work: Work, m: Option<Match>, trace: Trace)
    requires Tidy(trace) && ClosedBut(trace, None)
    ensures match DoItem(env, work, m, trace)
      case Ended(d) => Tidy(d.trace) && ClosedBut(d.trace, d.result.life)
      case Through(_, after) => Tidy(after) && ClosedBut(after, None)
  {
    match work
    case Enter =>
    case Call(handler) =>
      var site := if m.Some? then m.value else FallbackMatch([], 0);
      InvokeIsTidy(env, handler, site, trace);
      DiscardedIsTidy(env, Invoke(env, handler, site, trace));
    case Otherwise(handler, own) =>
      InvokeIsTidy(env, handler, own, trace);
      DiscardedIsTidy(env, Invoke(env, handler, own, trace));
  }

  /** Whenever a handler starts, all earlier handlers' Lifetimes are closed; and when dispatch returns, the only
      Lifetime that can still be open is that of the returned result. */
  lemma OnlyTheReturnedResultStaysOpen(env: Env, tree: Tree)
    ensures var d := DispatchTable(env, tree, [], 0, []); Tidy(d.trace) && ClosedBut(d.trace, d.result.life)
  {
    NestedDispatchEqualsFlat(env, tree);
    FlatIsTidy(env, Flatten(tree.routes, [], [], 0), tree.fallback, [], None);
  }

  // ---------------------------------------------------------------------------------------------
  // Match paths

  predicate KindNames(m: Matcher, kind: Kind) {
    && (kind == PredicateKind <==> m.Predicate?)
    && (kind == ExactKind <==> m.Exact?)
    && (kind == PrefixKind <==> m.Prefix?)
    && (kind == DecisionKind <==> m.Decision?)
    && (kind == TableKind <==> m.TableCase?)
  }

  /** What a match leads to: a handler to call, or a matcher that failed. */
  datatype Site = HandlerSite(handler: HandlerId) | FaultSite(err: Fault)

  /** Following the route ids of `path` down the tree, through mounts that all match the request, leads to the site,
      and `m` describes the route found there. */
  ghost predicate Located(env: Env, tree: Tree, path: seq<RouteId>, site: Site, m: Match)
    decreases tree
  {
    || (path == [FALLBACK] && site.HandlerSite? && tree.fallback == Some(site.handler)
        && m.id == FALLBACK && m.priority == 0 && m.kind == FallbackKind && m.data == Data("", "", "", None))
    || (exists i :: 0 <= i < |tree.routes| && LocatedAt(env, tree.routes[i], path, site, m))
  }

  ghost predicate LocatedAt(env: Env, node: Node, path: seq<RouteId>, site: Site, m: Match)
    decreases node
  {
    && path != [] && path[0] == node.id
    && if |path| == 1 then FoundHere(env, node, site, m)
       else node.target.Nested? && Hits(env, node.matcher) && Located(env, node.target.tree, path[1..], site, m)
  }

  ghost predicate FoundHere(env: Env, node: Node, site: Site, m: Match) {
    && m.id == node.id && m.priority == node.priority && KindNames(node.matcher, m.kind)
    && match site
       case HandlerSite(handler) => node.target == Leaf(handler) && Applies(env, node.matcher, m.data)
       case FaultSite(err) => Faults(env, node.matcher, err) && m.data == Data("", "", "", None)
  }

  ghost predicate LocatedAmong(env: Env, nodes: seq<Node>, path: seq<RouteId>, site: Site, m: Match) {
    exists i :: 0 <= i < |nodes| && LocatedAt(env, nodes[i], path, site, m)
  }

  /** What running an item records, if anything: the handler it calls or the matcher that fails, and the match. */
  ghost predicate Leads(env: Env, item: Item, site: Site, m: Match) {
    match Check(env, item.guards)
    case Shut => false
    case Breaks(broken, err) => site == FaultSite(err) && m == broken
    case Open(matched) =>
      match item.work {
        case Enter => false
        case Call(handler) => site == HandlerSite(handler) && matched == Some(m)
        case Otherwise(handler, own) => site == HandlerSite(handler) && m == own
      }
  }

  /** Below `path`, whatever the item leads to sits at the end of some path through `nodes`. */
  ghost predicate ItemFits(env: Env, item: Item, nodes: seq<Node>, path: seq<RouteId>) {
    forall site, m :: Leads(env, item, site, m) ==>
      exists below: seq<RouteId> ::
        LocatedAmong(env, nodes, below, site, m) && m.path == path + below && m.depth == |path + below| - 1
  }

  ghost predicate ItemsFit(env: Env, items: seq<Item>, nodes: seq<Node>, path: seq<RouteId>) {
    forall i :: 0 <= i < |items| ==> ItemFits(env, items[i], nodes, path)
  }

  lemma {:induction false} FlattenFits(env: Env, nodes: seq<Node>, guards: seq<Guard>, path: seq<RouteId>)
    requires Check(env, guards).Open?
    ensures ItemsFit(env, Flatten(nodes, guards, path, |path|), nodes, path)
    decreases nodes
  {
    if nodes != [] {
      var head, tail := FlattenNode(nodes[0], guards, path, |path|), Flatten(nodes[1..], guards, path, |path|);
      FlattenNodeFits(env, nodes[0], guards, path);
      FlattenFits(env, nodes[1..], guards, path);
      forall item | item in head ensures ItemFits(env, item, nodes, path) {
        FitsMore(env, item, [nodes[0]], nodes, 0, path);
      }
      forall item | item in tail ensures ItemFits(env, item, nodes, path) {
        FitsMore(env, item, nodes[1..], nodes, 1, path);
      }
    }
  }

  lemma FitsMore(env: Env, item: Item, some: seq<Node>, nodes: seq<Node>, shift: nat, path: seq<RouteId>)
    requires ItemFits(env, item, some, path) && shift + |some| <= |nodes| && some == nodes[shift..shift + |some|]
    ensures ItemFits(env, item, nodes, path)
  {
    forall site, m | Leads(env, item, site, m)
      ensures exists below: seq<RouteId> ::
        LocatedAmong(env, nodes, below, site, m) && m.path == path + below && m.depth == |path + below| - 1
    {
      var below: seq<RouteId> :|
        LocatedAmong(env, some, below, site, m) && m.path == path + below && m.depth == |path + below| - 1;
      var i :| 0 <= i < |some| && LocatedAt(env, some[i], below, site, m);
      assert nodes[shift + i] == some[i];
      assert LocatedAmong(env, nodes, below, site, m);
    }
  }

  /** The answer of the innermost guard, once the outer ones match. */
  lemma InnerGuard(env: Env, guards: seq<Guard>, g: Guard)
    requires Check(env, guards).Open?
    ensures Check(env, guards + [g]) == Check(env, [g])
  {
    CheckAppend(env, guards, [g]);
  }

  /** A leaf, or a matcher that fails: the route itself is what its item leads to. */
  lemma RouteFits(env: Env, node: Node, item: Item, guards: seq<Guard>, path: seq<RouteId>)
    requires Check(env, guards).Open? && guards + [Guard(node, path, |path|)] <= item.guards
    requires Ask(env, node.matcher).Hit? ==> node.target.Leaf? && item.guards == guards + [Guard(node, path, |path|)]
    requires node.target.Leaf? ==> item.work == Call(node.target.handler)
    ensures ItemFits(env, item, [node], path)
  {
    var g := Guard(node, path, |path|);
    InnerGuard(env, guards, g);
    var deeper := item.guards[|guards| + 1..];
    assert item.guards == (guards + [g]) + deeper;
    if deeper != [] { CheckAppend(env, guards + [g], deeper); } else { assert item.guards == guards + [g]; }
    forall site, m | Leads(env, item, site, m)
      ensures exists below: seq<RouteId> ::
        LocatedAmong(env, [node], below, site, m) && m.path == path + below && m.depth == |path + below| - 1
    {
      MatchersAnswerExactly(env, node.matcher, m.data, if site.FaultSite? then site.err else InvalidConfig);
      var below := [node.id];
      assert FoundHere(env, node, site, m);
      assert LocatedAt(env, [node][0], below, site, m);
      assert LocatedAmong(env, [node], below, site, m);
    }
  }

  lemma {:induction false} FlattenNodeFits(env: Env, node: Node, guards: seq<Guard>, path: seq<RouteId>)
    requires Check(env, guards).Open?
    ensures ItemsFit(env, FlattenNode(node, guards, path, |path|), [node], path)
    decreases node
  {
    var g := Guard(node, path, |path|);
    var inner, items := guards + [g], FlattenNode(node, guards, path, |path|);
    FlattenNodeIsUnder(node, guards, path, |path|);
    if node.target.Leaf? || !Ask(env, node.matcher).Hit? {
      forall i | 0 <= i < |items| ensures ItemFits(env, items[i], [node], path) {
        RouteFits(env, node, items[i], guards, path);
      }
    } else {
      InnerGuard(env, guards, g);
      MountFits(env, node, inner, path);
    }
  }

  lemma {:induction false} MountFits(env: Env, node: Node, inner: seq<Guard>, path: seq<RouteId>)
    requires node.target.Nested? && Ask(env, node.matcher).Hit? && Check(env, inner).Open?
    ensures var tree, down := node.target.tree, path + [node.id];
      && ItemFits(env, Item(inner, Enter), [node], path)
      && ItemsFit(env, Flatten(tree.routes, inner, down, |down|), [node], path)
      && ItemsFit(env, FlattenFallback(tree.fallback, inner, down, |down|), [node], path)
    decreases node, 0
  {
    var tree, down := node.target.tree, path + [node.id];
    var items := Flatten(tree.routes, inner, down, |down|);
    FlattenFits(env, tree.routes, inner, down);
    forall i | 0 <= i < |items| ensures ItemFits(env, items[i], [node], path) {
      ItemFitsBelow(env, items[i], node, path);
    }
    if tree.fallback.Some? {
      var own := FallbackMatch(down, |down|);
      var item := Item(inner, Otherwise(tree.fallback.value, own));
      forall site, m | Leads(env, item, site, m)
        ensures exists below: seq<RouteId> ::
          LocatedAmong(env, [node], below, site, m) && m.path == path + below && m.depth == |path + below| - 1
      {
        FitsBelow(env, node, path, [FALLBACK], site, m);
      }
    }
  }

  lemma ItemFitsBelow(env: Env, item: Item, node: Node, path: seq<RouteId>)
    requires node.target.Nested? && Ask(env, node.matcher).Hit?
    requires ItemFits(env, item, node.target.tree.routes, path + [node.id])
    ensures ItemFits(env, item, [node], path)
  {
    var down := path + [node.id];
    forall site, m | Leads(env, item, site, m)
      ensures exists below: seq<RouteId> ::
        LocatedAmong(env, [node], below, site, m) && m.path == path + below && m.depth == |path + below| - 1
    {
      var below: seq<RouteId> :| LocatedAmong(env, node.target.tree.routes, below, site, m)
        && m.path == down + below && m.depth == |down + below| - 1;
      assert below != [];
      FitsBelow(env, node, path, below, site, m);
    }
  }

  /** What is located in a mounted table is located under its mount. */
  lemma FitsBelow(env: Env, node: Node, path: seq<RouteId>, below: seq<RouteId>, site: Site, m: Match)
    requires node.target.Nested? && Ask(env, node.matcher).Hit? && below != []
    requires Located(env, node.target.tree, below, site, m)
    requires m.path == path + [node.id] + below && m.depth == |m.path| - 1
    ensures exists longer: seq<RouteId> ::
      LocatedAmong(env, [node], longer, site, m) && m.path == path + longer && m.depth == |path + longer| - 1
  {
    var longer := [node.id] + below;
    assert longer[1..] == below && path + longer == path + [node.id] + below;
    MatchersAnswerExactly(env, node.matcher, Ask(env, node.matcher).data, InvalidConfig);
    assert LocatedAt(env, [node][0], longer, site, m);
    assert LocatedAmong(env, [node], longer, site, m);
  }

  /** What an event names as its origin: the invoked handler, or, for an event that follows no invocation, the
      matcher that failed. */
  ghost predicate Names(trace: Trace, j: nat, site: Site, m: Match)
    requires j < |trace|
  {
    match trace[j]
    case Invoked(handler, matched) => site == HandlerSite(handler) && m == matched
    case Emitted(matched, _, err) =>
      && (j == 0 || (!trace[j - 1].Invoked? && !trace[j - 1].Yielded?))
      && err.Some? && site == FaultSite(err.value) && m == matched
    case _ => false
  }

  ghost predicate TruePath(env: Env, tree: Tree, site: Site, m: Match) {
    Located(env, tree, m.path, site, m) && m.depth == |m.path| - 1
  }

  /** Every match names the path to the invoked handler or failed matcher, at depth one less than its length. */
  ghost predicate PathsAreTrue(env: Env, tree: Tree, trace: Trace) {
    forall j, site, m :: 0 <= j < |trace| && Names(trace, j, site, m) ==> TruePath(env, tree, site, m)
  }

  lemma PathsGrow(env: Env, tree: Tree, trace: Trace, more: Trace)
    requires PathsAreTrue(env, tree, trace)
    requires forall j, site, m :: |trace| <= j < |trace + more| && Names(trace + more, j, site, m) ==>
      TruePath(env, tree, site, m)
    ensures PathsAreTrue(env, tree, trace + more)
  {
    forall j, site, m | 0 <= j < |trace + more| && Names(trace + more, j, site, m)
      ensures TruePath(env, tree, site, m)
    {
      if j < |trace| { assert Names(trace, j, site, m); }
    }
  }

  lemma InvokeAppends(env: Env, handler: HandlerId, m: Match, trace: Trace, tree: Tree)
    requires PathsAreTrue(env, tree, trace) && TruePath(env, tree, HandlerSite(handler), m)
    ensures PathsAreTrue(env, tree, Invoke(env, handler, m, trace).trace)
  {
    var d := Invoke(env, handler, m, trace);
    var life, event := d.result.life, Emitted(m, d.result, d.err);
    var more := if life.Some? then [Invoked(handler, m), Yielded(life.value), event] else [Invoked(handler, m), event];
    assert d.trace == trace + more;
    PathsGrow(env, tree, trace, more);
  }

  lemma BrokenAppends(env: Env, m: Match, err: Fault, trace: Trace, tree: Tree)
    requires PathsAreTrue(env, tree, trace) && TruePath(env, tree, FaultSite(err), m)
    ensures PathsAreTrue(env, tree, Broken(m, err, trace).trace)
  {
    PathsGrow(env, tree, trace, [Emitted(m, AbortResult.(matched := Some(m)), Some(err))]);
  }

  ghost predicate ProgressIsTrue(env: Env, tree: Tree, p: Progress) {
    match p
    case Ended(d) => PathsAreTrue(env, tree, d.trace)
    case Through(_, after) => PathsAreTrue(env, tree, after)
  }

  lemma DiscardedKeepsPaths(env: Env, done: Done, tree: Tree)
    requires PathsAreTrue(env, tree, done.trace)
    ensures ProgressIsTrue(env, tree, Discarded(env, done))
  {
    if !Terminal(done) && done.result.life.Some? {
      var life := done.result.life.value;
      PathsGrow(env, tree, done.trace, [LifeClosed(life, env.close(life, done.trace))]);
    }
  }

  lemma ItemNamesTree(env: Env, item: Item, tree: Tree, site: Site, m: Match)
    requires ItemFits(env, item, tree.routes, []) && Leads(env, item, site, m)
    ensures TruePath(env, tree, site, m)
  {
    var below: seq<RouteId> :|
      LocatedAmong(env, tree.routes, below, site, m) && m.path == [] + below && m.depth == |[] + below| - 1;
    assert [] + below == below;
  }

  lemma {:induction false} SomeMatch(env: Env, guards: seq<Guard>)
    requires guards != [] && Check(env, guards).Open?
    ensures Check(env, guards).matched.Some?
    decreases |guards|
  {
    if |guards| > 1 { SomeMatch(env, guards[1..]); }
  }

  lemma ItemKeepsPaths(env: Env, item: Item, tree: Tree, trace: Trace)
    requires ItemFits(env, item, tree.routes, []) && item.guards != [] && Check(env, item.guards).Open?
    requires PathsAreTrue(env, tree, trace)
    ensures ProgressIsTrue(env, tree, DoItem(env, item.work, Check(env, item.guards).matched, trace))
  {
    SomeMatch(env, item.guards);
    if !item.work.Enter? {
      var handler := item.work.handler;
      var m := if item.work.Call? then Check(env, item.guards).matched.value else item.work.matched;
      ItemNamesTree(env, item, tree, HandlerSite(handler), m);
      InvokeAppends(env, handler, m, trace, tree);
      DiscardedKeepsPaths(env, Invoke(env, handler, m, trace), tree);
    }
  }

  /** Every item has a guard: its own route's or its mount's. */
  ghost predicate Guarded(items: seq<Item>) {
    forall i :: 0 <= i < |items| ==> items[i].guards != []
  }

  lemma {:induction false} FlattenIsGuarded(nodes: seq<Node>, guards: seq<Guard>, path: seq<RouteId>, depth: nat)
    ensures Guarded(Flatten(nodes, guards, path, depth))
    decreases |nodes|
  {
    if nodes != [] {
      FlattenNodeIsUnder(nodes[0], guards, path, depth);
      FlattenIsGuarded(nodes[1..], guards, path, depth);
    }
  }

  lemma {:induction false} FlatKeepsPaths(env: Env, items: seq<Item>, tree: Tree, trace: Trace,
                                          last: Option<RouteResult>)
    requires ItemsFit(env, items, tree.routes, []) && Guarded(items) && PathsAreTrue(env, tree, trace)
    ensures PathsAreTrue(env, tree, RunFlat(env, items, tree.fallback, trace, last).trace)
    decreases |items|
  {
    if items == [] {
      if tree.fallback.Some? && env.cancelled(trace).None? {
        assert [] + [FALLBACK] == [FALLBACK];
        InvokeAppends(env, tree.fallback.value, FallbackMatch([], 0), trace, tree);
      }
    } else if env.cancelled(trace).None? {
      match Check(env, items[0].guards)
      case Shut => FlatKeepsPaths(env, items[1..], tree, trace, last);
      case Breaks(m, err) =>
        ItemNamesTree(env, items[0], tree, FaultSite(err), m);
        BrokenAppends(env, m, err, trace, tree);
      case Open(m) =>
        ItemKeepsPaths(env, items[0], tree, trace);
        var p := DoItem(env, items[0].work, m, trace);
        if p.Through? { FlatKeepsPaths(env, items[1..], tree, p.trace, p.last); }
    }
  }

  /** Every match that dispatch reports is true: its path leads, through mounts that all match the request, to the
      handler that was called or the matcher that failed, and it carries that route's identity and data. */
  lemma MatchPathsAreTreePaths(env: Env, tree: Tree)
    ensures PathsAreTrue(env, tree, DispatchTable(env, tree, [], 0, []).trace)
  {
    NestedDispatchEqualsFlat(env, tree);
    FlattenFits(env, tree.routes, [], []);
    FlattenIsGuarded(tree.routes, [], [], 0);
    FlatKeepsPaths(env, Flatten(tree.routes, [], [], 0), tree, [], None);
  }

  // ---------------------------------------------------------------------------------------------
  // Results and events

  /** The routing contract: a result says Abort exactly when there is an error, and otherwise Next or Stop. */
  predicate Lawful(result: RouteResult, err: Option<Fault>) {
    (err.Some? <==> result.action == Abort) && !result.action.Undeclared?
  }

  /** Every invocation is followed by its one event, carrying the same match on the event and on the result. */
  ghost predicate Reported(trace: Trace) {
    && (forall j :: 0 <= j < |trace| && trace[j].Emitted? ==> Lawful(trace[j].result, trace[j].err))
    && (forall j :: 0 <= j < |trace| && trace[j].Emitted? ==> trace[j].result.matched == Some(trace[j].matched))
    && (forall j :: 0 <= j < |trace| && trace[j].Invoked? ==>
          ReportedAt(trace, j, j + 1) || ReportedAt(trace, j, j + 2))
  }

  ghost predicate ReportedAt(trace: Trace, j: nat, k: nat)
    requires j < |trace| && trace[j].Invoked?
  {
    && k < |trace| && trace[k].Emitted? && trace[k].matched == trace[j].matched
    && (k == j + 2 ==> trace[j + 1].Yielded? && trace[k].result.life == Some(trace[j + 1].life))
    && (k == j + 1 ==> trace[k].result.life.None?)
  }

  lemma ReportedGrows(trace: Trace, more: Trace)
    requires Reported(trace) && Reported(more)
    ensures Reported(trace + more)
  {
    var all := trace + more;
    forall j | 0 <= j < |all| && all[j].Invoked? ensures ReportedAt(all, j, j + 1) || ReportedAt(all, j, j + 2) {
      if j < |trace| {
        assert ReportedAt(trace, j, j + 1) || ReportedAt(trace, j, j + 2);
      } else {
        var i := j - |trace|;
        assert all[j] == more[i];
        assert ReportedAt(more, i, i + 1) || ReportedAt(more, i, i + 2);
        assert i + 1 < |more| ==> all[j + 1] == more[i + 1];
        assert i + 2 < |more| ==> all[j + 2] == more[i + 2];
      }
    }
  }

  lemma InvokeIsReported(env: Env, handler: HandlerId, m: Match, trace: Trace)
    requires Reported(trace)
    ensures var d := Invoke(env, handler, m, trace); Reported(d.trace) && Lawful(d.result, d.err)
  {
    var d := Invoke(env, handler, m, trace);
    var life, event := d.result.life, Emitted(m, d.result, d.err);
    var more := if life.Some? then [Invoked(handler, m), Yielded(life.value), event] else [Invoked(handler, m), event];
    assert ReportedAt(more, 0, |more| - 1);
    ReportedGrows(trace, more);
    assert d.trace == trace + more;
  }

  lemma DiscardedIsReported(env: Env, done: Done)
    requires Reported(done.trace) && Lawful(done.result, done.err)
    ensures match Discarded(env, done)
      case Ended(d) => Reported(d.trace) && Lawful(d.result, d.err)
      case Through(last, trace) => Reported(trace) && last.Some? && last.value.action == Next
  {
    if !Terminal(done) && done.result.life.Some? && ClosedWith(done.trace, done.result.life.value).None? {
      var life := done.result.life.value;
      ReportedGrows(done.trace, [LifeClosed(life, env.close(life, done.trace))]);
    }
  }

  lemma BrokenIsReported(m: Match, err: Fault, trace: Trace)
    requires Reported(trace)
    ensures var d := Broken(m, err, trace); Reported(d.trace) && Lawful(d.result, d.err)
  {
    ReportedGrows(trace, [Emitted(m, AbortResult.(matched := Some(m)), Some(err))]);
  }

  lemma ItemIsReported(env: Env, work: Work, m: Option<Match>, trace: Trace)
    requires Reported(trace)
    ensures match DoItem(env, work, m, trace)
      case Ended(d) => Reported(d.trace) && Lawful(d.result, d.err)
      case Through(last, after) => Reported(after) && last.Some? && last.value.action == Next
  {
    match work
    case Enter =>
    case Call(handler) =>
      var site := if m.Some? then m.value else FallbackMatch([], 0);
      InvokeIsReported(env, handler, site, trace);
      DiscardedIsReported(env, Invoke(env, handler, site, trace));
    case Otherwise(handler, own) =>
      InvokeIsReported(env, handler, own, trace);
      DiscardedIsReported(env, Invoke(env, handler, own, trace));
  }

  lemma {:induction false} FlatIsReported(env: Env, items: seq<Item>, fallback: Option<HandlerId>, trace: Trace,
                                          last: Option<RouteResult>)
    requires Reported(trace) && (last.Some? ==> last.value.action == Next)
    ensures var d := RunFlat(env, items, fallback, trace, last); Reported(d.trace) && Lawful(d.result, d.err)
    decreases |items|
  {
    if items == [] {
      if fallback.Some? && env.cancelled(trace).None? {
        InvokeIsReported(env, fallback.value, FallbackMatch([], 0), trace);
      }
    } else if env.cancelled(trace).None? {
      match Check(env, items[0].guards)
      case Shut => FlatIsReported(env, items[1..], fallback, trace, last);
      case Breaks(m, err) => BrokenIsReported(m, err, trace);
      case Open(m) =>
        ItemIsReported(env, items[0].work, m, trace);
        var p := DoItem(env, items[0].work, m, trace);
        if p.Through? { FlatIsReported(env, items[1..], fallback, p.trace, p.last); }
    }
  }

  /** Whatever handlers return, dispatch obeys the routing contract, and every invocation was reported once. */
  lemma DispatchObeysTheContract(env: Env, tree: Tree)
    ensures var d := DispatchTable(env, tree, [], 0, []); Reported(d.trace) && Lawful(d.result, d.err)
  {
    NestedDispatchEqualsFlat(env, tree);
    FlatIsReported(env, Flatten(tree.routes, [], [], 0), tree.fallback, [], None);
  }
}
