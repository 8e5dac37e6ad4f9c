/** Topology fingerprints (route_table.go, snapshot.go): a length-framed encoding of a compiled route tree in
    which memoization groups are numbered by first occurrence. The hash itself is a parameter, of which only
    the 64-character hexadecimal length of its digests is used. */
module Fingerprint {
  import opened Wrappers

  newtype byte = b: int | 0 <= b < 256
  type Bytes = seq<byte>
  type Hash = Bytes -> Bytes

  /** The identity of a classifier (a pointer in the source). */
  type Group = int

  datatype Table = Table(longestPrefixWins: bool, fallback: bool, routes: seq<Entry>)
  datatype Entry = Entry(id: Bytes, priority: int, kind: Bytes, staticKey: Bytes, group: Option<Group>,
                         nested: Option<Table>)

  ghost predicate HexDigest(hash: Hash) {
    forall x :: |hash(x)| == 64
  }

  function Ascii(text: string): Bytes {
    seq(|text|, i requires 0 <= i < |text| => ((text[i] as int) % 256) as byte)
  }

  // ---------------------------------------------------------------------------------------------
  // FingerprintSHA256: big-endian 64-bit length, then the part

  function BigEndian(n: nat, width: nat): (r: Bytes)
    ensures |r| == width
  {
    if width == 0 then [] else BigEndian(n / 256, width - 1) + [(n % 256) as byte]
  }

  function Power256(k: nat): (r: nat)
    ensures r >= 1
  {
    if k == 0 then 1 else 256 * Power256(k - 1)
  }

  const LENGTH_LIMIT: nat := Power256(8)

  lemma {:induction false} BigEndianInjective(n: nat, m: nat, width: nat)
    requires n < Power256(width) && m < Power256(width) && BigEndian(n, width) == BigEndian(m, width)
    ensures n == m
  {
    if width > 0 {
      var p, q := BigEndian(n / 256, width - 1), BigEndian(m / 256, width - 1);
      var a, b := [(n % 256) as byte], [(m % 256) as byte];
      assert (p + a)[..width - 1] == p && (q + b)[..width - 1] == q;
      assert (p + a)[width - 1] == a[0] && (q + b)[width - 1] == b[0];
      BigEndianInjective(n / 256, m / 256, width - 1);
    }
  }

  function Frame(parts: seq<Bytes>): (r: Bytes)
    ensures |r| >= 8 * |parts|
  {
    if parts == [] then [] else BigEndian(|parts[0]|, 8) + parts[0] + Frame(parts[1..])
  }

  predicate Framable(parts: seq<Bytes>) {
    forall i :: 0 <= i < |parts| ==> |parts[i]| < LENGTH_LIMIT
  }

  /** The framing separates the parts: no two different lists of parts give the same bytes. */
  lemma {:induction false} FrameInjective(a: seq<Bytes>, b: seq<Bytes>)
    requires Framable(a) && Framable(b) && Frame(a) == Frame(b)
    ensures a == b
    decreases |a|
  {
    if a != [] && b != [] {
      var fa, fb := Frame(a), Frame(b);
      assert fa[..8] == BigEndian(|a[0]|, 8) && fb[..8] == BigEndian(|b[0]|, 8);
      BigEndianInjective(|a[0]|, |b[0]|, 8);
      var end := 8 + |a[0]|;
      assert fa[8..end] == a[0] && fb[8..end] == b[0];
      assert fa[end..] == Frame(a[1..]) && fb[end..] == Frame(b[1..]);
      FrameInjective(a[1..], b[1..]);
      assert a == [a[0]] + a[1..] && b == [b[0]] + b[1..];
    }
  }

  lemma {:induction false} FrameAppend(parts: seq<Bytes>, part: Bytes)
    ensures Frame(parts + [part]) == Frame(parts) + (BigEndian(|part|, 8) + part)
    decreases |parts|
  {
    if parts == [] {
      assert [part][1..] == [];
      assert Frame([part]) == BigEndian(|part|, 8) + part + [];
    } else {
      assert (parts + [part])[1..] == parts[1..] + [part];
      FrameAppend(parts[1..], part);
    }
  }

  method FingerprintSHA256(hash: Hash, parts: seq<Bytes>) returns (digest: Bytes)
    ensures digest == hash(Frame(parts))
  {
    var buffer: Bytes := [];
    for i := 0 to |parts|
      invariant buffer == Frame(parts[..i])
    {
      assert parts[..i + 1] == parts[..i] + [parts[i]];
      FrameAppend(parts[..i], parts[i]);
      buffer := buffer + (BigEndian(|parts[i]|, 8) + parts[i]);
    }
    assert parts[..|parts|] == parts;
    return hash(buffer);
  }

  // ---------------------------------------------------------------------------------------------
  // strconv

  function Digits(n: nat): (r: Bytes)
    ensures |r| >= 1 && 48 <= r[0] < 58
  {
    if n < 10 then [(n + 48) as byte] else Digits(n / 10) + [(n % 10 + 48) as byte]
  }

  function Itoa(i: int): (r: Bytes)
    ensures |r| >= 1 && (i < 0 <==> r[0] == 45)
  {
    if i < 0 then [45] + Digits(-i) else Digits(i)
  }

  function FormatBool(b: bool): Bytes {
    if b then Ascii("true") else Ascii("false")
  }

  lemma {:induction false} DigitsInjective(n: nat, m: nat)
    requires Digits(n) == Digits(m)
    ensures n == m
    decreases n
  {
    if n >= 10 && m >= 10 {
      var p, q := Digits(n / 10), Digits(m / 10);
      assert Digits(n)[..|Digits(n)| - 1] == p && Digits(m)[..|Digits(m)| - 1] == q;
      assert Digits(n)[|Digits(n)| - 1] == (n % 10 + 48) as byte && Digits(m)[|Digits(m)| - 1] == (m % 10 + 48) as byte;
      DigitsInjective(n / 10, m / 10);
    }
  }

  lemma ItoaInjective(i: int, j: int)
    requires Itoa(i) == Itoa(j)
    ensures i == j
  {
    if i < 0 && j < 0 {
      assert Itoa(i)[1..] == Digits(-i) && Itoa(j)[1..] == Digits(-j);
      DigitsInjective(-i, -j);
    } else if i >= 0 && j >= 0 {
      DigitsInjective(i, j);
    }
  }

  lemma FormatBoolInjective(a: bool, b: bool)
    requires FormatBool(a) == FormatBool(b)
    ensures a == b
  {
    assert |FormatBool(true)| == 4 && |FormatBool(false)| == 5;
  }

  // ---------------------------------------------------------------------------------------------
  // fingerprintTree

  function Numbered(groups: map<Group, nat>, group: Option<Group>): (nat, map<Group, nat>) {
    if group.None? then (0, groups)
    else if group.value in groups then (groups[group.value], groups)
    else (|groups| + 1, groups[group.value := |groups| + 1])
  }

  function EntryParts(entry: Entry, index: nat, nested: Bytes): seq<Bytes> {
    [entry.id, Itoa(entry.priority), entry.kind, entry.staticKey, Itoa(index), nested]
  }

  function HeaderParts(table: Table): seq<Bytes> {
    [Ascii("routery-topology-v2"), FormatBool(table.longestPrefixWins), FormatBool(table.fallback),
     Itoa(|table.routes|)]
  }

  function FingerprintTree(hash: Hash, table: Table, groups: map<Group, nat>): (Bytes, map<Group, nat>)
    decreases table, 1
  {
    var (digests, after) := FingerprintEntries(hash, table.routes, groups);
    (hash(Frame(HeaderParts(table) + digests)), after)
  }

  function FingerprintEntries(hash: Hash, entries: seq<Entry>, groups: map<Group, nat>): (seq<Bytes>, map<Group, nat>)
    decreases entries, 0
  {
    if entries == [] then ([], groups)
    else
      var (digest, after) := FingerprintEntry(hash, entries[0], groups);
      var (rest, final) := FingerprintEntries(hash, entries[1..], after);
      ([digest] + rest, final)
  }

  function FingerprintEntry(hash: Hash, entry: Entry, groups: map<Group, nat>): (Bytes, map<Group, nat>)
    decreases entry, 2
  {
    var (index, numbered) := Numbered(groups, entry.group);
    var (nested, after) :=
      if entry.nested.Some? then FingerprintTree(hash, entry.nested.value, numbered) else (Ascii("leaf"), numbered);
    (hash(Frame(EntryParts(entry, index, nested))), after)
  }

  function FingerprintTable(hash: Hash, table: Table): Bytes {
    FingerprintTree(hash, table, map[]).0
  }

  /** The traversal as the source runs it: one loop per table, numbering groups and appending digests in place. */
  method ComputeFingerprint(hash: Hash, table: Table, known: map<Group, nat>)
    returns (digest: Bytes, groups: map<Group, nat>)
    ensures (digest, groups) == FingerprintTree(hash, table, known)
    decreases table, 1
  {
    groups := known;
    var digests: seq<Bytes> := [];
    var routes := table.routes;
    ghost var all := FingerprintEntries(hash, routes, known);
    assert routes[0..] == routes && [] + all.0 == all.0;
    for i := 0 to |routes|
      invariant all.0 == digests + FingerprintEntries(hash, routes[i..], groups).0
      invariant all.1 == FingerprintEntries(hash, routes[i..], groups).1
    {
      EntriesFrom(hash, routes, i, groups, digests);
      var line;
      line, groups := ComputeEntry(hash, routes[i], groups);
      digests := digests + [line];
    }
    assert routes[|routes|..] == [] && digests + [] == digests;
    digest := FingerprintSHA256(hash, HeaderParts(table) + digests);
  }

  /** One turn of that loop. */
  lemma EntriesFrom(hash: Hash, routes: seq<Entry>, i: nat, groups: map<Group, nat>, digests: seq<Bytes>)
    requires i < |routes|
    ensures var (line, after) := FingerprintEntry(hash, routes[i], groups);
      var rest := FingerprintEntries(hash, routes[i + 1..], after);
      && digests + FingerprintEntries(hash, routes[i..], groups).0 == digests + [line] + rest.0
      && FingerprintEntries(hash, routes[i..], groups).1 == rest.1
  {
    assert routes[i..][0] == routes[i] && routes[i..][1..] == routes[i + 1..];
    var (line, after) := FingerprintEntry(hash, routes[i], groups);
    var rest := FingerprintEntries(hash, routes[i + 1..], after);
    assert digests + ([line] + rest.0) == digests + [line] + rest.0;
  }

  method ComputeEntry(hash: Hash, entry: Entry, known: map<Group, nat>) returns (digest: Bytes, groups: map<Group, nat>)
    ensures (digest, groups) == FingerprintEntry(hash, entry, known)
    decreases entry, 2
  {
    groups := known;
    var index := 0;
    if entry.group.Some? {
      if entry.group.value in groups {
        index := groups[entry.group.value];
      } else {
        index := |groups| + 1;
        groups := groups[entry.group.value := index];
      }
    }
    var nested := Ascii("leaf");
    if entry.nested.Some? { nested, groups := ComputeFingerprint(hash, entry.nested.value, groups); }
    digest := FingerprintSHA256(hash, EntryParts(entry, index, nested));
  }

  // ---------------------------------------------------------------------------------------------
  // What two tables must agree on

  /** The tables agree on flags, fallback presence, route order, ids, priorities, kinds, static keys and nesting,
      and `rename` takes the groups of the first to those of the second. */
  predicate Agree(a: Table, b: Table, rename: map<Group, Group>)
    decreases a, 1
  {
    && a.longestPrefixWins == b.longestPrefixWins && a.fallback == b.fallback
    && AgreeEntries(a.routes, b.routes, rename)
  }

  predicate AgreeEntries(a: seq<Entry>, b: seq<Entry>, rename: map<Group, Group>)
    decreases a, 0
  {
    |a| == |b| && (a == [] || (AgreeEntry(a[0], b[0], rename) && AgreeEntries(a[1..], b[1..], rename)))
  }

  predicate AgreeEntry(a: Entry, b: Entry, rename: map<Group, Group>)
    decreases a, 2
  {
    && a.id == b.id && a.priority == b.priority && a.kind == b.kind && a.staticKey == b.staticKey
    && a.group.Some? == b.group.Some?
    && (a.group.Some? ==> a.group.value in rename && rename[a.group.value] == b.group.value)
    && a.nested.Some? == b.nested.Some?
    && (a.nested.Some? ==> Agree(a.nested.value, b.nested.value, rename))
  }

  ghost predicate OneToOne(rename: map<Group, Group>) {
    forall g, h :: g in rename && h in rename && rename[g] == rename[h] ==> g == h
  }

  ghost predicate SameTopology(a: Table, b: Table) {
    exists rename :: OneToOne(rename) && Agree(a, b, rename)
  }

  // ---------------------------------------------------------------------------------------------
  // Renaming groups does not show

  /** The numberings of two traversals correspond under `rename`. */
  ghost predicate Corresponds(m: map<Group, nat>, n: map<Group, nat>, rename: map<Group, Group>) {
    && |m| == |n|
    && (forall g :: g in m ==> g in rename && rename[g] in n && n[rename[g]] == m[g])
    && (forall h :: h in n ==> exists g :: g in m && rename[g] == h)
  }

  lemma FreshCorresponds(m: map<Group, nat>, n: map<Group, nat>, rename: map<Group, Group>, g: Group, v: nat)
    requires Corresponds(m, n, rename) && g in rename && g !in m && rename[g] !in n
    ensures Corresponds(m[g := v], n[rename[g] := v], rename)
  {
    var m', n' := m[g := v], n[rename[g] := v];
    InsertSize(m, g, v);
    InsertSize(n, rename[g], v);
    forall k | k in n' ensures exists j :: j in m' && rename[j] == k {
      if k == rename[g] { assert g in m'; }
      else { var j :| j in m && rename[j] == k; assert j in m'; }
    }
  }

  lemma NumberedCorresponds(m: map<Group, nat>, n: map<Group, nat>, rename: map<Group, Group>, g: Group)
    requires OneToOne(rename) && Corresponds(m, n, rename) && g in rename
    ensures Numbered(m, Some(g)).0 == Numbered(n, Some(rename[g])).0
    ensures Corresponds(Numbered(m, Some(g)).1, Numbered(n, Some(rename[g])).1, rename)
  {
    if g !in m {
      if rename[g] in n {
        var j :| j in m && rename[j] == rename[g];
        assert false;
      }
      FreshCorresponds(m, n, rename, g, |m| + 1);
    }
  }

  lemma {:induction false} TreeCorresponds(hash: Hash, a: Table, b: Table, m: map<Group, nat>, n: map<Group, nat>,
                                           rename: map<Group, Group>)
    requires OneToOne(rename) && Corresponds(m, n, rename) && Agree(a, b, rename)
    ensures FingerprintTree(hash, a, m).0 == FingerprintTree(hash, b, n).0
    ensures Corresponds(FingerprintTree(hash, a, m).1, FingerprintTree(hash, b, n).1, rename)
    decreases a, 1
  {
    EntriesCorrespond(hash, a.routes, b.routes, m, n, rename);
  }

  lemma {:induction false} EntriesCorrespond(hash: Hash, a: seq<Entry>, b: seq<Entry>, m: map<Group, nat>,
                                             n: map<Group, nat>, rename: map<Group, Group>)
    requires OneToOne(rename) && Corresponds(m, n, rename) && AgreeEntries(a, b, rename)
    ensures FingerprintEntries(hash, a, m).0 == FingerprintEntries(hash, b, n).0
    ensures Corresponds(FingerprintEntries(hash, a, m).1, FingerprintEntries(hash, b, n).1, rename)
    decreases a, 0
  {
    if a != [] {
      EntryCorresponds(hash, a[0], b[0], m, n, rename);
      EntriesCorrespond(hash, a[1..], b[1..], FingerprintEntry(hash, a[0], m).1, FingerprintEntry(hash, b[0], n).1,
                        rename);
    }
  }

  lemma {:induction false} EntryCorresponds(hash: Hash, a: Entry, b: Entry, m: map<Group, nat>, n: map<Group, nat>,
                                            rename: map<Group, Group>)
    requires OneToOne(rename) && Corresponds(m, n, rename) && AgreeEntry(a, b, rename)
    ensures FingerprintEntry(hash, a, m).0 == FingerprintEntry(hash, b, n).0
    ensures Corresponds(FingerprintEntry(hash, a, m).1, FingerprintEntry(hash, b, n).1, rename)
    decreases a, 2
  {
    if a.group.Some? { NumberedCorresponds(m, n, rename, a.group.value); }
    if a.nested.Some? {
      TreeCorresponds(hash, a.nested.value, b.nested.value, Numbered(m, a.group).1, Numbered(n, b.group).1, rename);
    }
  }

  /** Tables of the same topology get the same fingerprint, whatever their classifiers are called. */
  lemma SameTopologySameFingerprint(hash: Hash, a: Table, b: Table)
    requires SameTopology(a, b)
    ensures FingerprintTable(hash, a) == FingerprintTable(hash, b)
  {
    var rename :| OneToOne(rename) && Agree(a, b, rename);
    TreeCorresponds(hash, a, b, map[], map[], rename);
  }

  // ---------------------------------------------------------------------------------------------
  // Numberings only grow and stay one-to-one

  ghost predicate Numbering(m: map<Group, nat>) {
    && (forall g :: g in m ==> 1 <= m[g] <= |m|)
    && (forall g, h :: g in m && h in m && m[g] == m[h] ==> g == h)
  }

  ghost predicate Extends(m: map<Group, nat>, n: map<Group, nat>) {
    forall g :: g in m ==> g in n && n[g] == m[g]
  }

  lemma NumberedGrows(m: map<Group, nat>, group: Option<Group>)
    requires Numbering(m)
    ensures Numbering(Numbered(m, group).1) && Extends(m, Numbered(m, group).1)
    ensures group.Some? ==>
      group.value in Numbered(m, group).1 && Numbered(m, group).1[group.value] == Numbered(m, group).0
    ensures group.Some? <==> Numbered(m, group).0 >= 1
  {
    if group.Some? {
      var g := group.value;
      if g in m {
        assert 1 <= m[g];
      } else {
        InsertSize(m, g, |m| + 1);
        assert Numbered(m, group) == (|m| + 1, m[g := |m| + 1]);
      }
    }
  }

  lemma {:induction false} TreeGrows(hash: Hash, a: Table, m: map<Group, nat>)
    requires Numbering(m)
    ensures Numbering(FingerprintTree(hash, a, m).1) && Extends(m, FingerprintTree(hash, a, m).1)
    decreases a, 1
  {
    EntriesGrow(hash, a.routes, m);
  }

  lemma {:induction false} EntriesGrow(hash: Hash, a: seq<Entry>, m: map<Group, nat>)
    requires Numbering(m)
    ensures Numbering(FingerprintEntries(hash, a, m).1) && Extends(m, FingerprintEntries(hash, a, m).1)
    decreases a, 0
  {
    if a != [] {
      EntryGrows(hash, a[0], m);
      EntriesGrow(hash, a[1..], FingerprintEntry(hash, a[0], m).1);
    }
  }

  lemma {:induction false} EntryGrows(hash: Hash, a: Entry, m: map<Group, nat>)
    requires Numbering(m)
    ensures Numbering(FingerprintEntry(hash, a, m).1) && Extends(m, FingerprintEntry(hash, a, m).1)
    ensures Extends(Numbered(m, a.group).1, FingerprintEntry(hash, a, m).1)
    decreases a, 2
  {
    NumberedGrows(m, a.group);
    if a.nested.Some? { TreeGrows(hash, a.nested.value, Numbered(m, a.group).1); }
  }

  // ---------------------------------------------------------------------------------------------
  // Equal fingerprints: the same topology, or a collision the traversal itself exhibits

  /** Every byte string hashed while fingerprinting the table. */
  function Preimages(hash: Hash, a: Table, m: map<Group, nat>): set<Bytes>
    decreases a, 1
  {
    {Frame(HeaderParts(a) + FingerprintEntries(hash, a.routes, m).0)} + EntriesPreimages(hash, a.routes, m)
  }

  function EntriesPreimages(hash: Hash, a: seq<Entry>, m: map<Group, nat>): set<Bytes>
    decreases a, 0
  {
    if a == [] then {}
    else EntryPreimages(hash, a[0], m) + EntriesPreimages(hash, a[1..], FingerprintEntry(hash, a[0], m).1)
  }

  function NestedDigest(hash: Hash, a: Entry, m: map<Group, nat>): Bytes {
    if a.nested.Some? then FingerprintTree(hash, a.nested.value, Numbered(m, a.group).1).0 else Ascii("leaf")
  }

  function EntryPreimages(hash: Hash, a: Entry, m: map<Group, nat>): set<Bytes>
    decreases a, 2
  {
    {Frame(EntryParts(a, Numbered(m, a.group).0, NestedDigest(hash, a, m)))}
    + (if a.nested.Some? then Preimages(hash, a.nested.value, Numbered(m, a.group).1) else {})
  }

  ghost predicate Collide(hash: Hash, xs: set<Bytes>, ys: set<Bytes>) {
    exists x, y :: x in xs && y in ys && x != y && hash(x) == hash(y)
  }

  /** Every text that is framed for the table has a length that 64 bits can hold. */
  predicate Sized(hash: Hash, a: Table, m: map<Group, nat>)
    decreases a, 1
  {
    |Itoa(|a.routes|)| < LENGTH_LIMIT && SizedEntries(hash, a.routes, m)
  }

  predicate SizedEntries(hash: Hash, a: seq<Entry>, m: map<Group, nat>)
    decreases a, 0
  {
    a == [] || (SizedEntry(hash, a[0], m) && SizedEntries(hash, a[1..], FingerprintEntry(hash, a[0], m).1))
  }

  predicate SizedEntry(hash: Hash, a: Entry, m: map<Group, nat>)
    decreases a, 2
  {
    && |a.id| < LENGTH_LIMIT && |a.kind| < LENGTH_LIMIT && |a.staticKey| < LENGTH_LIMIT
    && |Itoa(a.priority)| < LENGTH_LIMIT && |Itoa(Numbered(m, a.group).0)| < LENGTH_LIMIT
    && (a.nested.Some? ==> Sized(hash, a.nested.value, Numbered(m, a.group).1))
  }

  lemma SmallTexts()
    ensures 64 < LENGTH_LIMIT
    ensures |Ascii("routery-topology-v2")| < LENGTH_LIMIT && |Ascii("leaf")| == 4
    ensures |FormatBool(true)| == 4 && |FormatBool(false)| == 5
  {
    assert Power256(8) == 256 * Power256(7);
    assert Power256(7) >= 1;
  }

  lemma {:induction false} EntriesDigests(hash: Hash, a: seq<Entry>, m: map<Group, nat>)
    requires HexDigest(hash)
    ensures |FingerprintEntries(hash, a, m).0| == |a|
    ensures forall i :: 0 <= i < |a| ==> |FingerprintEntries(hash, a, m).0[i]| == 64
    decreases |a|
  {
    if a != [] { EntriesDigests(hash, a[1..], FingerprintEntry(hash, a[0], m).1); }
  }

  lemma HeadersDecode(a: Table, b: Table, da: seq<Bytes>, db: seq<Bytes>)
    requires |Itoa(|a.routes|)| < LENGTH_LIMIT && |Itoa(|b.routes|)| < LENGTH_LIMIT
    requires forall i :: 0 <= i < |da| ==> |da[i]| == 64
    requires forall i :: 0 <= i < |db| ==> |db[i]| == 64
    requires Frame(HeaderParts(a) + da) == Frame(HeaderParts(b) + db)
    ensures a.longestPrefixWins == b.longestPrefixWins && a.fallback == b.fallback && da == db
  {
    var pa, pb := HeaderParts(a) + da, HeaderParts(b) + db;
    SmallTexts();
    assert Framable(pa) && Framable(pb);
    FrameInjective(pa, pb);
    assert pa[1] == pb[1] && pa[2] == pb[2] && pa[4..] == da && pb[4..] == db;
    FormatBoolInjective(a.longestPrefixWins, b.longestPrefixWins);
    FormatBoolInjective(a.fallback, b.fallback);
  }

  lemma EntryDecodes(a: Entry, b: Entry, i: nat, j: nat, x: Bytes, y: Bytes)
    requires Framable(EntryParts(a, i, x)) && Framable(EntryParts(b, j, y))
    requires Frame(EntryParts(a, i, x)) == Frame(EntryParts(b, j, y))
    ensures a.id == b.id && a.priority == b.priority && a.kind == b.kind && a.staticKey == b.staticKey
    ensures i == j && x == y
  {
    var pa, pb := EntryParts(a, i, x), EntryParts(b, j, y);
    FrameInjective(pa, pb);
    assert pa[0] == pb[0] && pa[1] == pb[1] && pa[2] == pb[2] && pa[3] == pb[3] && pa[4] == pb[4] && pa[5] == pb[5];
    ItoaInjective(a.priority, b.priority);
    ItoaInjective(i, j);
  }

  lemma EntryFramable(hash: Hash, a: Entry, m: map<Group, nat>)
    requires HexDigest(hash) && SizedEntry(hash, a, m)
    ensures Framable(EntryParts(a, Numbered(m, a.group).0, NestedDigest(hash, a, m)))
    ensures |NestedDigest(hash, a, m)| == if a.nested.Some? then 64 else 4
  {
    SmallTexts();
  }

  /** Equal indices at one entry mean corresponding groups there. */
  lemma GroupsAgree(x: Option<Group>, y: Option<Group>, m: map<Group, nat>, n: map<Group, nat>,
                    f: map<Group, nat>, h: map<Group, nat>, rename: map<Group, Group>)
    requires Numbering(m) && Numbering(n) && Numbered(m, x).0 == Numbered(n, y).0
    requires Extends(Numbered(m, x).1, f) && Extends(Numbered(n, y).1, h) && Matches(rename, f, h)
    ensures x.Some? == y.Some?
    ensures x.Some? ==> x.value in rename && rename[x.value] == y.value
  {
    NumberKept(m, x, f);
    NumberKept(n, y, h);
    if x.Some? && y.Some? { MatchesAt(rename, f, h, x.value, y.value); }
  }

  lemma MatchesAt(rename: map<Group, Group>, f: map<Group, nat>, h: map<Group, nat>, g: Group, k: Group)
    requires Matches(rename, f, h) && g in f && k in h && f[g] == h[k]
    ensures g in rename && rename[g] == k
  {
  }

  lemma ExtendsAt(a: map<Group, nat>, b: map<Group, nat>, g: Group)
    requires Extends(a, b) && g in a
    ensures g in b && b[g] == a[g]
  {
  }

  /** A group's number is still its number at the end, and no group has number zero. */
  lemma NumberKept(m: map<Group, nat>, group: Option<Group>, f: map<Group, nat>)
    requires Numbering(m) && Extends(Numbered(m, group).1, f)
    ensures group.Some? <==> Numbered(m, group).0 >= 1
    ensures group.Some? ==> group.value in f && f[group.value] == Numbered(m, group).0
  {
    NumberedGrows(m, group);
    if group.Some? { ExtendsAt(Numbered(m, group).1, f, group.value); }
  }

  lemma ExtendsTransitive(a: map<Group, nat>, b: map<Group, nat>, c: map<Group, nat>)
    requires Extends(a, b) && Extends(b, c)
    ensures Extends(a, c)
  {
  }

  /** Groups with equal final numbers are renamed into each other. */
  ghost predicate Matches(rename: map<Group, Group>, f: map<Group, nat>, h: map<Group, nat>) {
    forall g, k :: g in f && k in h && f[g] == h[k] ==> g in rename && rename[g] == k
  }

  lemma {:induction false} TreesAgree(hash: Hash, a: Table, b: Table, m: map<Group, nat>, n: map<Group, nat>,
                                      f: map<Group, nat>, h: map<Group, nat>, rename: map<Group, Group>)
    requires HexDigest(hash) && Sized(hash, a, m) && Sized(hash, b, n) && Numbering(m) && Numbering(n)
    requires FingerprintTree(hash, a, m).0 == FingerprintTree(hash, b, n).0
    requires !Collide(hash, Preimages(hash, a, m), Preimages(hash, b, n))
    requires Extends(FingerprintTree(hash, a, m).1, f) && Extends(FingerprintTree(hash, b, n).1, h)
    requires Matches(rename, f, h)
    ensures Agree(a, b, rename)
    decreases a, 1
  {
    var da, db := FingerprintEntries(hash, a.routes, m).0, FingerprintEntries(hash, b.routes, n).0;
    var pa, pb := HeaderParts(a) + da, HeaderParts(b) + db;
    EntriesDigests(hash, a.routes, m);
    EntriesDigests(hash, b.routes, n);
    assert Frame(pa) in Preimages(hash, a, m) && Frame(pb) in Preimages(hash, b, n);
    assert Frame(pa) == Frame(pb);
    HeadersDecode(a, b, da, db);
    EntriesAgree(hash, a.routes, b.routes, m, n, f, h, rename);
  }

  lemma {:induction false} EntriesAgree(hash: Hash, a: seq<Entry>, b: seq<Entry>, m: map<Group, nat>, n: map<Group,
                                        nat>,
                                        f: map<Group, nat>, h: map<Group, nat>, rename: map<Group, Group>)
    requires HexDigest(hash) && SizedEntries(hash, a, m) && SizedEntries(hash, b, n) && Numbering(m) && Numbering(n)
    requires FingerprintEntries(hash, a, m).0 == FingerprintEntries(hash, b, n).0 && |a| == |b|
    requires !Collide(hash, EntriesPreimages(hash, a, m), EntriesPreimages(hash, b, n))
    requires Extends(FingerprintEntries(hash, a, m).1, f) && Extends(FingerprintEntries(hash, b, n).1, h)
    requires Matches(rename, f, h)
    ensures AgreeEntries(a, b, rename)
    decreases a, 0
  {
    if a != [] {
      var (x, m') := FingerprintEntry(hash, a[0], m);
      var (y, n') := FingerprintEntry(hash, b[0], n);
      var xs, ys := FingerprintEntries(hash, a[1..], m').0, FingerprintEntries(hash, b[1..], n').0;
      assert ([x] + xs)[0] == ([y] + ys)[0] && ([x] + xs)[1..] == xs && ([y] + ys)[1..] == ys;
      EntryGrows(hash, a[0], m);
      EntryGrows(hash, b[0], n);
      EntriesGrow(hash, a[1..], m');
      EntriesGrow(hash, b[1..], n');
      EntryAgrees(hash, a[0], b[0], m, n, f, h, rename);
      EntriesAgree(hash, a[1..], b[1..], m', n', f, h, rename);
    }
  }

  lemma {:induction false} EntryAgrees(hash: Hash, a: Entry, b: Entry, m: map<Group, nat>, n: map<Group, nat>,
                                       f: map<Group, nat>, h: map<Group, nat>, rename: map<Group, Group>)
    requires HexDigest(hash) && SizedEntry(hash, a, m) && SizedEntry(hash, b, n) && Numbering(m) && Numbering(n)
    requires FingerprintEntry(hash, a, m).0 == FingerprintEntry(hash, b, n).0
    requires !Collide(hash, EntryPreimages(hash, a, m), EntryPreimages(hash, b, n))
    requires Extends(FingerprintEntry(hash, a, m).1, f) && Extends(FingerprintEntry(hash, b, n).1, h)
    requires Matches(rename, f, h)
    ensures AgreeEntry(a, b, rename)
    decreases a, 2
  {
    var (i, m') := Numbered(m, a.group);
    var (j, n') := Numbered(n, b.group);
    EntryFieldsAgree(hash, a, b, m, n);
    EntryGrows(hash, a, m);
    EntryGrows(hash, b, n);
    ExtendsTransitive(m', FingerprintEntry(hash, a, m).1, f);
    ExtendsTransitive(n', FingerprintEntry(hash, b, n).1, h);
    GroupsAgree(a.group, b.group, m, n, f, h, rename);
    if a.nested.Some? && b.nested.Some? {
      NumberedGrows(m, a.group);
      NumberedGrows(n, b.group);
      TreesAgree(hash, a.nested.value, b.nested.value, m', n', f, h, rename);
    }
  }

  lemma EntryFieldsAgree(hash: Hash, a: Entry, b: Entry, m: map<Group, nat>, n: map<Group, nat>)
    requires HexDigest(hash) && SizedEntry(hash, a, m) && SizedEntry(hash, b, n)
    requires FingerprintEntry(hash, a, m).0 == FingerprintEntry(hash, b, n).0
    requires !Collide(hash, EntryPreimages(hash, a, m), EntryPreimages(hash, b, n))
    ensures a.id == b.id && a.priority == b.priority && a.kind == b.kind && a.staticKey == b.staticKey
    ensures Numbered(m, a.group).0 == Numbered(n, b.group).0 && a.nested.Some? == b.nested.Some?
    ensures NestedDigest(hash, a, m) == NestedDigest(hash, b, n)
    ensures a.nested.Some? ==> !Collide(hash, Preimages(hash, a.nested.value, Numbered(m, a.group).1),
                                              Preimages(hash, b.nested.value, Numbered(n, b.group).1))
  {
    var i, j := Numbered(m, a.group).0, Numbered(n, b.group).0;
    var x, y := NestedDigest(hash, a, m), NestedDigest(hash, b, n);
    var pa, pb := EntryParts(a, i, x), EntryParts(b, j, y);
    assert Frame(pa) in EntryPreimages(hash, a, m) && Frame(pb) in EntryPreimages(hash, b, n);
    assert Frame(pa) == Frame(pb);
    EntryFramable(hash, a, m);
    EntryFramable(hash, b, n);
    EntryDecodes(a, b, i, j, x, y);
  }

  ghost function RenameBy(f: map<Group, nat>, h: map<Group, nat>): map<Group, Group> {
    map g | g in f && (exists k :: k in h && h[k] == f[g]) :: var k :| k in h && h[k] == f[g]; k
  }

  /** Equal fingerprints mean the same topology up to a one-to-one renaming of classifiers - or two different byte
      strings, both hashed while computing these fingerprints, with the same digest. */
  lemma EqualFingerprintsAgreeOrCollide(hash: Hash, a: Table, b: Table)
    requires HexDigest(hash) && Sized(hash, a, map[]) && Sized(hash, b, map[])
    requires FingerprintTable(hash, a) == FingerprintTable(hash, b)
    ensures SameTopology(a, b) || Collide(hash, Preimages(hash, a, map[]), Preimages(hash, b, map[]))
  {
    if !Collide(hash, Preimages(hash, a, map[]), Preimages(hash, b, map[])) {
      var f, h := FingerprintTree(hash, a, map[]).1, FingerprintTree(hash, b, map[]).1;
      TreeGrows(hash, a, map[]);
      TreeGrows(hash, b, map[]);
      var rename := RenameBy(f, h);
      TreesAgree(hash, a, b, map[], map[], f, h, rename);
      assert OneToOne(rename);
    }
  }

  // ---------------------------------------------------------------------------------------------
  // Reading it back: what exactly is hashed

  /** The number written in base 256, most significant byte first, continuing from `high`. */
  function ReadNumber(bytes: Bytes, high: nat): nat
    decreases |bytes|
  {
    if bytes == [] then high else ReadNumber(bytes[1..], 256 * high + bytes[0] as nat)
  }

  lemma {:induction false} ReadNumberAppend(bytes: Bytes, last: byte, high: nat)
    ensures ReadNumber(bytes + [last], high) == 256 * ReadNumber(bytes, high) + last as nat
    decreases |bytes|
  {
    if bytes == [] {
      assert ([] + [last])[1..] == [] && ([] + [last])[0] == last;
    } else {
      assert (bytes + [last])[1..] == bytes[1..] + [last];
      ReadNumberAppend(bytes[1..], last, 256 * high + bytes[0] as nat);
    }
  }

  lemma {:induction false} BigEndianReads(n: nat, width: nat)
    requires n < Power256(width)
    ensures ReadNumber(BigEndian(n, width), 0) == n
  {
    if width > 0 {
      BigEndianReads(n / 256, width - 1);
      ReadNumberAppend(BigEndian(n / 256, width - 1), (n % 256) as byte, 0);
    }
  }

  /** A reader of the framing: eight bytes of length, most significant first, then that many bytes, and so on. */
  function Unframe(bytes: Bytes): Option<seq<Bytes>>
    decreases |bytes|
  {
    if bytes == [] then Some([])
    else if |bytes| < 8 then None
    else
      var end := 8 + ReadNumber(bytes[..8], 0);
      if end > |bytes| then None
      else
        var rest := Unframe(bytes[end..]);
        if rest.None? then None else Some([bytes[8..end]] + rest.value)
  }

  /** What is framed can be read back. */
  lemma {:induction false} UnframeReadsFrame(parts: seq<Bytes>)
    requires Framable(parts)
    ensures Unframe(Frame(parts)) == Some(parts)
    decreases |parts|
  {
    if parts != [] {
      var bytes, end := Frame(parts), 8 + |parts[0]|;
      assert bytes[..8] == BigEndian(|parts[0]|, 8);
      BigEndianReads(|parts[0]|, 8);
      assert bytes[8..end] == parts[0] && bytes[end..] == Frame(parts[1..]);
      UnframeReadsFrame(parts[1..]);
      assert parts == [parts[0]] + parts[1..];
    }
  }

  /** A reader of decimal text, first digit first. */
  function ReadDigits(text: Bytes, high: nat): Option<nat>
    decreases |text|
  {
    if text == [] then Some(high)
    else if text[0] < 48 || text[0] > 57 then None
    else ReadDigits(text[1..], 10 * high + (text[0] - 48) as nat)
  }

  function ReadInteger(text: Bytes): Option<int> {
    if text == [] then None
    else if text[0] == 45 then
      var n := ReadDigits(text[1..], 0);
      if n.None? then None else Some(-(n.value as int))
    else
      var n := ReadDigits(text, 0);
      if n.None? then None else Some(n.value)
  }

  lemma {:induction false} ReadDigitsAppend(text: Bytes, last: byte, high: nat)
    requires 48 <= last <= 57 && ReadDigits(text, high).Some?
    ensures ReadDigits(text + [last], high) == Some(10 * ReadDigits(text, high).value + (last - 48) as nat)
    decreases |text|
  {
    if text == [] {
      assert ([] + [last])[1..] == [] && ([] + [last])[0] == last;
    } else {
      assert (text + [last])[1..] == text[1..] + [last];
      ReadDigitsAppend(text[1..], last, 10 * high + (text[0] - 48) as nat);
    }
  }

  lemma {:induction false} DigitsRead(n: nat)
    ensures ReadDigits(Digits(n), 0) == Some(n)
    decreases n
  {
    if n >= 10 {
      DigitsRead(n / 10);
      ReadDigitsAppend(Digits(n / 10), (n % 10 + 48) as byte, 0);
    } else {
      assert Digits(n)[1..] == [];
    }
  }

  /** Numbers are written in decimal. */
  lemma ItoaReads(i: int)
    ensures ReadInteger(Itoa(i)) == Some(i)
  {
    if i < 0 {
      assert Itoa(i)[1..] == Digits(-i);
      DigitsRead(-i);
    } else {
      DigitsRead(i);
    }
  }

  predicate Spells(text: Bytes, letters: seq<int>) {
    |text| == |letters| && forall i :: 0 <= i < |text| ==> text[i] as int == letters[i]
  }

  /** "true" or "false". */
  predicate SpellsTruth(text: Bytes, b: bool) {
    if b then Spells(text, [0x74, 0x72, 0x75, 0x65]) else Spells(text, [0x66, 0x61, 0x6c, 0x73, 0x65])
  }

  /** "routery-topology-v2". */
  predicate SpellsVersion(text: Bytes) {
    Spells(text, [0x72, 0x6f, 0x75, 0x74, 0x65, 0x72, 0x79, 0x2d, 0x74, 0x6f, 0x70, 0x6f, 0x6c, 0x6f, 0x67, 0x79,
                  0x2d, 0x76, 0x32])
  }

  /** "leaf". */
  predicate SpellsLeaf(text: Bytes) {
    Spells(text, [0x6c, 0x65, 0x61, 0x66])
  }

  lemma VersionText()
    ensures SpellsVersion(Ascii("routery-topology-v2"))
  {
    var text := "routery-topology-v2";
    var letters := [0x72, 0x6f, 0x75, 0x74, 0x65, 0x72, 0x79, 0x2d, 0x74, 0x6f, 0x70, 0x6f, 0x6c, 0x6f, 0x67, 0x79,
                    0x2d, 0x76, 0x32];
    assert text[..10] == "routery-to" && text[10..] == "pology-v2";
    forall i | 0 <= i < 19 ensures text[i] as int == letters[i] {
    }
  }

  lemma FixedTexts(b: bool)
    ensures SpellsTruth(FormatBool(b), b) && SpellsLeaf(Ascii("leaf"))
  {
  }

  /** A table's fingerprint is the hash of a document that reads: the version, the two flags, the number of routes,
      and one digest per route in order. */
  lemma TableDocument(hash: Hash, a: Table, m: map<Group, nat>) returns (document: Bytes, parts: seq<Bytes>)
    requires HexDigest(hash) && Sized(hash, a, m)
    ensures FingerprintTree(hash, a, m).0 == hash(document) && Unframe(document) == Some(parts)
    ensures |parts| == 4 + |a.routes| && parts[4..] == FingerprintEntries(hash, a.routes, m).0
    ensures SpellsVersion(parts[0]) && SpellsTruth(parts[1], a.longestPrefixWins) && SpellsTruth(parts[2], a.fallback)
    ensures ReadInteger(parts[3]) == Some(|a.routes|)
  {
    parts := HeaderParts(a) + FingerprintEntries(hash, a.routes, m).0;
    document := Frame(parts);
    EntriesDigests(hash, a.routes, m);
    SmallTexts();
    UnframeReadsFrame(parts);
    FixedTexts(a.longestPrefixWins);
    FixedTexts(a.fallback);
    VersionText();
    ItoaReads(|a.routes|);
  }

  /** A route's digest is the hash of a document that reads: its id, priority, matcher kind and static key, the number
      of its classifier or zero, and the fingerprint of its mounted table or "leaf". */
  lemma EntryDocument(hash: Hash, a: Entry, m: map<Group, nat>) returns (document: Bytes, parts: seq<Bytes>)
    requires HexDigest(hash) && SizedEntry(hash, a, m)
    ensures FingerprintEntry(hash, a, m).0 == hash(document) && Unframe(document) == Some(parts)
    ensures |parts| == 6 && parts[0] == a.id && ReadInteger(parts[1]) == Some(a.priority)
    ensures parts[2] == a.kind && parts[3] == a.staticKey
    ensures var (index, numbered) := Numbered(m, a.group);
      && ReadInteger(parts[4]) == Some(index)
      && (a.group.None? ==> index == 0)
      && (a.nested.None? ==> SpellsLeaf(parts[5]))
      && (a.nested.Some? ==> parts[5] == FingerprintTree(hash, a.nested.value, numbered).0)
  {
    var index := Numbered(m, a.group).0;
    parts := EntryParts(a, index, NestedDigest(hash, a, m));
    document := Frame(parts);
    EntryFramable(hash, a, m);
    UnframeReadsFrame(parts);
    FixedTexts(true);
    ItoaReads(a.priority);
    ItoaReads(index);
  }

  /** The digests come in route order, each route numbering its classifiers after those of the routes before it. */
  lemma {:induction false} DigestsInOrder(hash: Hash, a: seq<Entry>, m: map<Group, nat>, i: nat)
    requires i < |a|
    ensures var before := FingerprintEntries(hash, a[..i], m).1;
      && |FingerprintEntries(hash, a, m).0| == |a|
      && FingerprintEntries(hash, a, m).0[i] == FingerprintEntry(hash, a[i], before).0
    decreases |a|
  {
    var (_, after) := FingerprintEntry(hash, a[0], m);
    if i > 0 {
      assert a[..i][0] == a[0] && a[..i][1..] == a[1..][..i - 1];
      DigestsInOrder(hash, a[1..], after, i - 1);
    } else {
      assert a[..0] == [];
      if |a| > 1 { DigestsInOrder(hash, a[1..], after, 0); }
    }
  }
}
