/** The order of routes in a compiled table (compareRoutes in route_table.go) and the stable sort that applies it. */
module Order {

  /** What the comparison looks at. Only prefix routes have a prefix length; the others carry zero. */
  datatype Key = Prefix(length: nat, priority: int) | Other(priority: int)

  function Group(k: Key): int {
    if k.Prefix? then 0 else 1
  }

  function Length(k: Key): nat {
    if k.Prefix? then k.length else 0
  }

  function Compare(left: int, right: int): int {
    if left < right then -1 else if left > right then 1 else 0
  }

  function CompareRoutes(left: Key, right: Key, longest: bool): int {
    var byGroup := Compare(Group(left), Group(right));
    var byLength := Compare(Length(right), Length(left));
    var byPriority := Compare(right.priority, left.priority);
    if longest && byGroup != 0 then byGroup
    else if longest && byLength != 0 then byLength
    else if byPriority != 0 then byPriority
    else if byGroup != 0 then byGroup
    else byLength
  }

  /** The comparison is a total preorder in both modes. */
  lemma CompareIsTotalPreorder(a: Key, b: Key, c: Key, longest: bool)
    ensures CompareRoutes(a, a, longest) == 0
    ensures CompareRoutes(a, b, longest) == -CompareRoutes(b, a, longest)
    ensures CompareRoutes(a, b, longest) <= 0 && CompareRoutes(b, c, longest) <= 0 ==> CompareRoutes(a, c, longest) <= 0
    ensures CompareRoutes(a, b, longest) == 0 && CompareRoutes(b, c, longest) <= 0 ==>
              (CompareRoutes(a, c, longest) == 0 <==> CompareRoutes(b, c, longest) == 0)
  {
  }

  /** Route i goes before route j: smaller, or equal and declared first. */
  predicate Before(keys: seq<Key>, longest: bool, i: nat, j: nat)
    requires i < |keys| && j < |keys|
  {
    var order := CompareRoutes(keys[i], keys[j], longest);
    order < 0 || (order == 0 && i < j)
  }

  lemma BeforeIsStrictTotal(keys: seq<Key>, longest: bool, i: nat, j: nat)
    requires i < |keys| && j < |keys|
    ensures i == j || (Before(keys, longest, i, j) <==> !Before(keys, longest, j, i))
    ensures !Before(keys, longest, i, i)
  {
  }

  lemma BeforeTransitive(keys: seq<Key>, longest: bool, i: nat, j: nat, k: nat)
    requires i < |keys| && j < |keys| && k < |keys|
    requires Before(keys, longest, i, j) && Before(keys, longest, j, k)
    ensures Before(keys, longest, i, k)
  {
    CompareIsTotalPreorder(keys[i], keys[j], keys[k], longest);
    CompareIsTotalPreorder(keys[k], keys[j], keys[i], longest);
  }

  ghost predicate Ascending(keys: seq<Key>, longest: bool, order: seq<nat>) {
    && (forall i :: 0 <= i < |order| ==> order[i] < |keys|)
    && (forall i, j :: 0 <= i < j < |order| ==> Before(keys, longest, order[i], order[j]))
  }

  /** A stable sort, described without sorting: `order` lists every declaration index once, each before the next. */
  ghost predicate IsStableOrder(keys: seq<Key>, longest: bool, order: seq<nat>) {
    |order| == |keys| && Ascending(keys, longest, order)
  }

  // ---------------------------------------------------------------------------------------------
  // There is exactly one such order

  /** The declaration indices from `k` on, in order; what slices.SortStableFunc must produce for k = 0. */
  function StableOrder(keys: seq<Key>, longest: bool, k: nat): (order: seq<nat>)
    requires k <= |keys|
    ensures |order| == |keys| - k && forall i :: 0 <= i < |order| ==> k <= order[i] < |keys|
    decreases |keys| - k
  {
    if k == |keys| then [] else Insert(keys, longest, k, StableOrder(keys, longest, k + 1))
  }

  function Insert(keys: seq<Key>, longest: bool, k: nat, order: seq<nat>): (r: seq<nat>)
    requires k < |keys| && forall i :: 0 <= i < |order| ==> k < order[i] < |keys|
    ensures |r| == |order| + 1 && forall i :: 0 <= i < |r| ==> k <= r[i] < |keys|
    ensures forall x :: x in r <==> x == k || x in order
  {
    if order == [] || Before(keys, longest, k, order[0]) then [k] + order
    else [order[0]] + Insert(keys, longest, k, order[1..])
  }

  lemma {:induction false} InsertKeepsAscending(keys: seq<Key>, longest: bool, k: nat, order: seq<nat>)
    requires k < |keys| && Ascending(keys, longest, order) && forall i :: 0 <= i < |order| ==> k < order[i] < |keys|
    ensures Ascending(keys, longest, Insert(keys, longest, k, order))
  {
    var r := Insert(keys, longest, k, order);
    if order != [] && Before(keys, longest, k, order[0]) {
      forall j | 1 <= j < |order| ensures Before(keys, longest, k, order[j]) {
        BeforeTransitive(keys, longest, k, order[0], order[j]);
      }
    } else if order != [] {
      InsertKeepsAscending(keys, longest, k, order[1..]);
      BeforeIsStrictTotal(keys, longest, k, order[0]);
      forall j | 1 <= j < |r| ensures Before(keys, longest, r[0], r[j]) {
        assert r[j] in Insert(keys, longest, k, order[1..]);
        if r[j] != k {
          assert r[j] in order[1..];
        }
      }
    }
  }

  lemma {:induction false} SortIsStable(keys: seq<Key>, longest: bool, k: nat)
    requires k <= |keys|
    ensures Ascending(keys, longest, StableOrder(keys, longest, k))
    decreases |keys| - k
  {
    if k < |keys| {
      SortIsStable(keys, longest, k + 1);
      InsertKeepsAscending(keys, longest, k, StableOrder(keys, longest, k + 1));
    }
  }

  function Range(n: nat): (r: set<nat>)
    ensures |r| == n && forall x: nat :: x in r <==> x < n
  {
    if n == 0 then {} else Range(n - 1) + {n - 1}
  }

  function Elements(order: seq<nat>): (r: set<nat>)
    ensures forall x: nat :: x in r <==> x in order
  {
    if order == [] then {} else {order[0]} + Elements(order[1..])
  }

  lemma {:induction false} DistinctSize(order: seq<nat>)
    requires forall i, j :: 0 <= i < j < |order| ==> order[i] != order[j]
    ensures |Elements(order)| == |order|
  {
    if order != [] {
      DistinctSize(order[1..]);
      assert order[0] !in order[1..];
    }
  }

  lemma SubsetFills(a: set<nat>, b: set<nat>)
    requires a <= b && |a| == |b|
    ensures a == b
  {
    assert |b - a| == |b| - |a|;
  }

  lemma NoRepeatsFill(order: seq<nat>, n: nat)
    requires |order| == n && (forall i :: 0 <= i < n ==> order[i] < n)
    requires forall i, j :: 0 <= i < j < n ==> order[i] != order[j]
    ensures forall x: nat :: x < n ==> x in order
  {
    DistinctSize(order);
    SubsetFills(Elements(order), Range(n));
    forall x: nat | x < n ensures x in order {
      assert x in Range(n);
    }
  }

  lemma AscendingHasNoRepeats(keys: seq<Key>, longest: bool, order: seq<nat>, i: nat, j: nat)
    requires Ascending(keys, longest, order) && i < j < |order|
    ensures order[i] != order[j]
  {
    BeforeIsStrictTotal(keys, longest, order[i], order[j]);
  }

  /** Every declaration index occurs in a stable order. */
  lemma StableOrderIsPermutation(keys: seq<Key>, longest: bool, order: seq<nat>)
    requires IsStableOrder(keys, longest, order)
    ensures forall x: nat :: x < |keys| ==> x in order
    ensures forall i, j :: 0 <= i < j < |order| ==> order[i] != order[j]
  {
    forall i: nat, j: nat | i < j < |order| ensures order[i] != order[j] {
      AscendingHasNoRepeats(keys, longest, order, i, j);
    }
    NoRepeatsFill(order, |keys|);
  }

  lemma {:induction false} StableOrdersShareAPrefix(keys: seq<Key>, longest: bool, p: seq<nat>, q: seq<nat>, k: nat)
    requires IsStableOrder(keys, longest, p) && IsStableOrder(keys, longest, q) && k <= |p|
    ensures p[..k] == q[..k]
  {
    if k > 0 {
      StableOrdersShareAPrefix(keys, longest, p, q, k - 1);
      if Before(keys, longest, p[k - 1], q[k - 1]) {
        NotLater(keys, longest, p, q, k - 1);
      } else if Before(keys, longest, q[k - 1], p[k - 1]) {
        NotLater(keys, longest, q, p, k - 1);
      }
      BeforeIsStrictTotal(keys, longest, p[k - 1], q[k - 1]);
    }
  }

  /** If two orders agree up to k, the first cannot have a smaller element at k: the second would miss it. */
  lemma NotLater(keys: seq<Key>, longest: bool, p: seq<nat>, q: seq<nat>, k: nat)
    requires IsStableOrder(keys, longest, p) && IsStableOrder(keys, longest, q) && k < |p| && p[..k] == q[..k]
    ensures !Before(keys, longest, p[k], q[k])
  {
    StableOrderIsPermutation(keys, longest, q);
    StableOrderIsPermutation(keys, longest, p);
    assert p[k] in q;
    assert forall i :: 0 <= i < k ==> p[i] == p[..k][i] == q[..k][i] == q[i];
    var m :| 0 <= m < |q| && q[m] == p[k];
    BeforeIsStrictTotal(keys, longest, p[k], q[k]);
  }

  /** The stable sort is the unique ordered permutation that keeps declaration order among equals. */
  lemma StableSortIsUnique(keys: seq<Key>, longest: bool, order: seq<nat>)
    ensures IsStableOrder(keys, longest, order) <==> order == StableOrder(keys, longest, 0)
  {
    var sorted := StableOrder(keys, longest, 0);
    SortIsStable(keys, longest, 0);
    if IsStableOrder(keys, longest, order) {
      StableOrdersShareAPrefix(keys, longest, order, sorted, |keys|);
      assert order == order[..|keys|] && sorted == sorted[..|keys|];
    }
  }

  // ---------------------------------------------------------------------------------------------
  // Precedence in words

  /** Who answers when both match, as the table's documentation puts it. */
  predicate Outranks(a: Key, b: Key, longest: bool, first: bool) {
    if longest then
      if a.Prefix? != b.Prefix? then a.Prefix?
      else if Length(a) != Length(b) then Length(a) > Length(b)
      else a.priority > b.priority || (a.priority == b.priority && first)
    else
      if a.priority != b.priority then a.priority > b.priority
      else if a.Prefix? != b.Prefix? then a.Prefix?
      else Length(a) > Length(b) || (Length(a) == Length(b) && first)
  }

  lemma BeforeMeansOutranks(keys: seq<Key>, longest: bool, i: nat, j: nat)
    requires i < |keys| && j < |keys|
    ensures Before(keys, longest, i, j) <==> Outranks(keys[i], keys[j], longest, i < j)
  {
  }

  ghost predicate FirstMatch(order: seq<nat>, matches: nat -> bool, k: nat) {
    k < |order| && matches(order[k]) && forall i :: 0 <= i < k ==> !matches(order[i])
  }

  /** The first matching route of the compiled order outranks every other matching route: in longest-prefix mode a
      prefix route beats every other kind, a longer prefix a shorter one, then priority, then declaration. */
  lemma FirstMatchOutranks(keys: seq<Key>, longest: bool, matches: nat -> bool, k: nat, other: nat)
    requires FirstMatch(StableOrder(keys, longest, 0), matches, k)
    requires other < |keys| && matches(other) && other != StableOrder(keys, longest, 0)[k]
    ensures var winner := StableOrder(keys, longest, 0)[k];
      Outranks(keys[winner], keys[other], longest, winner < other)
  {
    var order := StableOrder(keys, longest, 0);
    StableSortIsUnique(keys, longest, order);
    StableOrderIsPermutation(keys, longest, order);
    assert other in order;
    var m :| 0 <= m < |order| && order[m] == other;
    assert k < m;
    BeforeMeansOutranks(keys, longest, order[k], other);
  }
}
