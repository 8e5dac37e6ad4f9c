/** The fingerprint of a compiled router (route_table.go): module Fingerprint speaks of what is hashed, this module of
    the trees that module Compile produces. */
module Topology {
  import opened Wrappers
  import opened Compile
  import Fingerprint

  type Bytes = Fingerprint.Bytes
  type Group = Fingerprint.Group
  type Hash = Fingerprint.Hash

  /** How texts become bytes, and the static key of a matcher. */
  datatype Encoding = Encoding(text: string -> Bytes, staticKey: Matcher -> Bytes)

  ghost predicate Faithful(enc: Encoding) {
    forall s, t :: enc.text(s) == enc.text(t) ==> s == t
  }

  function KindName(m: Matcher): string {
    match m
    case Predicate(_) => "predicate"
    case Exact(_, _) => "exact"
    case Prefix(_, _) => "prefix"
    case Decision(_, _, _) => "decision"
    case TableCase(_, _) => "decision_table"
  }

  /** Groups of classifiers and of decision tables are different objects. */
  function GroupOf(m: Matcher): Option<Group> {
    match m
    case Decision(group, _, _) => Some(2 * group)
    case TableCase(group, _) => Some(2 * group + 1)
    case _ => None
  }

  function TableOf(enc: Encoding, tree: Tree): Fingerprint.Table
    decreases tree
  {
    Fingerprint.Table(tree.longest, tree.fallback.Some?, EntriesOf(enc, tree.routes))
  }

  function EntriesOf(enc: Encoding, nodes: seq<Node>): seq<Fingerprint.Entry>
    decreases nodes
  {
    if nodes == [] then [] else [EntryOf(enc, nodes[0])] + EntriesOf(enc, nodes[1..])
  }

  function EntryOf(enc: Encoding, node: Node): Fingerprint.Entry
    decreases node
  {
    Fingerprint.Entry(
      enc.text(node.id), node.priority, Fingerprint.Ascii(KindName(node.matcher)), enc.staticKey(node.matcher),
      GroupOf(node.matcher), if node.target.Nested? then Some(TableOf(enc, node.target.tree)) else None)
  }

  /** routerImpl.fingerprint */
  function RouterFingerprint(hash: Hash, enc: Encoding, tree: Tree): Bytes {
    Fingerprint.FingerprintTable(hash, TableOf(enc, tree))
  }

  // ---------------------------------------------------------------------------------------------
  // Agreement of compiled trees

  predicate SameKind(a: Matcher, b: Matcher) {
    a.Predicate? == b.Predicate? && a.Exact? == b.Exact? && a.Prefix? == b.Prefix? && a.Decision? == b.Decision?
  }

  predicate SameGroup(a: Matcher, b: Matcher, rename: map<Group, Group>) {
    && GroupOf(a).Some? == GroupOf(b).Some?
    && (GroupOf(a).Some? ==> GroupOf(a).value in rename && rename[GroupOf(a).value] == GroupOf(b).value)
  }

  /** The routers route alike, up to what handlers and matcher functions do and what the classifiers are called. */
  predicate TreesMatch(enc: Encoding, a: Tree, b: Tree, rename: map<Group, Group>)
    decreases a, 1
  {
    && a.longest == b.longest && a.fallback.Some? == b.fallback.Some?
    && NodesMatch(enc, a.routes, b.routes, rename)
  }

  predicate NodesMatch(enc: Encoding, a: seq<Node>, b: seq<Node>, rename: map<Group, Group>)
    decreases a, 0
  {
    |a| == |b| && (a == [] || (NodeMatches(enc, a[0], b[0], rename) && NodesMatch(enc, a[1..], b[1..], rename)))
  }

  predicate NodeMatches(enc: Encoding, a: Node, b: Node, rename: map<Group, Group>)
    decreases a, 2
  {
    && a.id == b.id && a.priority == b.priority && SameKind(a.matcher, b.matcher)
    && enc.staticKey(a.matcher) == enc.staticKey(b.matcher) && SameGroup(a.matcher, b.matcher, rename)
    && a.target.Nested? == b.target.Nested?
    && (a.target.Nested? ==> TreesMatch(enc, a.target.tree, b.target.tree, rename))
  }

  ghost predicate SameRouting(enc: Encoding, a: Tree, b: Tree) {
    exists rename :: Fingerprint.OneToOne(rename) && TreesMatch(enc, a, b, rename)
  }

  lemma KindNamesDiffer(a: Matcher, b: Matcher)
    ensures Fingerprint.Ascii(KindName(a)) == Fingerprint.Ascii(KindName(b)) <==> SameKind(a, b)
  {
    assert |Fingerprint.Ascii(KindName(a))| == |KindName(a)| && |Fingerprint.Ascii(KindName(b))| == |KindName(b)|;
  }

  lemma {:induction false} TreesMatchIsAgreement(enc: Encoding, a: Tree, b: Tree, rename: map<Group, Group>)
    requires Faithful(enc)
    ensures Fingerprint.Agree(TableOf(enc, a), TableOf(enc, b), rename) <==> TreesMatch(enc, a, b, rename)
    decreases a, 1
  {
    NodesMatchIsAgreement(enc, a.routes, b.routes, rename);
  }

  lemma {:induction false} NodesMatchIsAgreement(enc: Encoding, a: seq<Node>, b: seq<Node>, rename: map<Group, Group>)
    requires Faithful(enc)
    ensures |EntriesOf(enc, a)| == |a|
    ensures Fingerprint.AgreeEntries(EntriesOf(enc, a), EntriesOf(enc, b), rename) <==> NodesMatch(enc, a, b, rename)
    decreases a, 0
  {
    EntriesLength(enc, a);
    EntriesLength(enc, b);
    if a != [] && b != [] {
      NodeMatchIsAgreement(enc, a[0], b[0], rename);
      NodesMatchIsAgreement(enc, a[1..], b[1..], rename);
      assert EntriesOf(enc, a)[1..] == EntriesOf(enc, a[1..]) && EntriesOf(enc, b)[1..] == EntriesOf(enc, b[1..]);
    }
  }

  lemma {:induction false} EntriesLength(enc: Encoding, nodes: seq<Node>)
    ensures |EntriesOf(enc, nodes)| == |nodes|
    decreases |nodes|
  {
    if nodes != [] { EntriesLength(enc, nodes[1..]); }
  }

  lemma {:induction false} NodeMatchIsAgreement(enc: Encoding, a: Node, b: Node, rename: map<Group, Group>)
    requires Faithful(enc)
    ensures Fingerprint.AgreeEntry(EntryOf(enc, a), EntryOf(enc, b), rename) <==> NodeMatches(enc, a, b, rename)
    decreases a, 2
  {
    KindNamesDiffer(a.matcher, b.matcher);
    if a.target.Nested? && b.target.Nested? {
      TreesMatchIsAgreement(enc, a.target.tree, b.target.tree, rename);
    }
  }

  /** The fingerprint of a compiled router is a canonical form of its topology: routers that agree up to a one-to-one
      renaming of memoization groups have equal fingerprints, and equal fingerprints mean such an agreement or two
      different hashed byte strings with one digest. */
  lemma CompiledFingerprintIsCanonical(hash: Hash, enc: Encoding, g: Graph, t: TableId, h: Graph, u: TableId)
    requires Compile.Closed(g) && t in g && Compiled(g, Some(t)).Ok?
    requires Compile.Closed(h) && u in h && Compiled(h, Some(u)).Ok?
    requires Fingerprint.HexDigest(hash) && Faithful(enc)
    requires Fingerprint.Sized(hash, TableOf(enc, Compiled(g, Some(t)).value), map[])
    requires Fingerprint.Sized(hash, TableOf(enc, Compiled(h, Some(u)).value), map[])
    ensures var a, b := Compiled(g, Some(t)).value, Compiled(h, Some(u)).value;
      var x, y := TableOf(enc, a), TableOf(enc, b);
      && (SameRouting(enc, a, b) ==> RouterFingerprint(hash, enc, a) == RouterFingerprint(hash, enc, b))
      && (RouterFingerprint(hash, enc, a) == RouterFingerprint(hash, enc, b) ==>
            || SameRouting(enc, a, b)
            || Fingerprint.Collide(hash, Fingerprint.Preimages(hash, x, map[]), Fingerprint.Preimages(hash, y, map[])))
  {
    var a, b := Compiled(g, Some(t)).value, Compiled(h, Some(u)).value;
    AgreementIsTopology(enc, a, b);
    if SameRouting(enc, a, b) {
      Fingerprint.SameTopologySameFingerprint(hash, TableOf(enc, a), TableOf(enc, b));
    }
    if RouterFingerprint(hash, enc, a) == RouterFingerprint(hash, enc, b) {
      Fingerprint.EqualFingerprintsAgreeOrCollide(hash, TableOf(enc, a), TableOf(enc, b));
    }
  }

  lemma AgreementIsTopology(enc: Encoding, a: Tree, b: Tree)
    requires Faithful(enc)
    ensures SameRouting(enc, a, b) <==> Fingerprint.SameTopology(TableOf(enc, a), TableOf(enc, b))
  {
    if SameRouting(enc, a, b) {
      var rename :| Fingerprint.OneToOne(rename) && TreesMatch(enc, a, b, rename);
      TreesMatchIsAgreement(enc, a, b, rename);
    }
    if Fingerprint.SameTopology(TableOf(enc, a), TableOf(enc, b)) {
      var rename :| Fingerprint.OneToOne(rename) && Fingerprint.Agree(TableOf(enc, a), TableOf(enc, b), rename);
      TreesMatchIsAgreement(enc, a, b, rename);
    }
  }
}
