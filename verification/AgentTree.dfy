// agent-widget.ts: the propagated agent forest flattened to rows, and the stack that finds each row's
// parent again from depths alone.

module AgentTree {
  import opened Options

  /** Agent ids are only ever compared. */
  type Id = int

  datatype Node = Node(id: Id, parentId: Option<Id>, depth: nat)

  /** One propagated descendant; without a parent id it hangs under the record itself. */
  datatype Descendant = Descendant(id: Id, parentId: Option<Id>)

  datatype Record = Record(agentId: Id, descendants: seq<Descendant>)

  // ----- which nodes are accepted, in which order

  predicate Has(ns: seq<Node>, id: Id) {
    exists k :: 0 <= k < |ns| && ns[k].id == id
  }

  predicate DistinctIds(ns: seq<Node>) {
    forall j, k | 0 <= j < k < |ns| :: ns[j].id != ns[k].id
  }

  /** Node `k` hangs under node `p`. */
  predicate Hangs(ns: seq<Node>, k: nat, p: nat)
    requires k < |ns| && p < |ns|
  {
    ns[k].parentId == Some(ns[p].id) && ns[k].depth == ns[p].depth + 1
  }

  predicate Rooted(ns: seq<Node>, k: nat)
    requires k < |ns|
  {
    if ns[k].parentId.None? then ns[k].depth == 0 else exists p :: 0 <= p < k && Hangs(ns, k, p)
  }

  /** Distinct ids, and every node is a root of depth zero or one level under a node accepted before it. */
  predicate Forest(ns: seq<Node>) {
    DistinctIds(ns) && forall k | 0 <= k < |ns| :: Rooted(ns, k)
  }

  function DepthOf(ns: seq<Node>, id: Id): nat {
    if ns == [] then 0 else if ns[|ns| - 1].id == id then ns[|ns| - 1].depth else DepthOf(ns[..|ns| - 1], id)
  }

  lemma {:induction false} DepthOfIs(ns: seq<Node>, k: nat)
    requires DistinctIds(ns) && k < |ns|
    ensures DepthOf(ns, ns[k].id) == ns[k].depth
  {
    if k < |ns| - 1 {
      DepthOfIs(ns[..|ns| - 1], k);
    }
  }

  /**
   * A descendant row is accepted under a parent accepted in the same branch, unless its id is local or already
   * taken.
   */
  function Adopt(ns: seq<Node>, branch: set<Id>, locals: set<Id>, record: Id, d: Descendant): (seq<Node>, set<Id>) {
    var parentId := if d.parentId.Some? then d.parentId.value else record;
    if !Has(ns, parentId) || parentId !in branch || d.id in locals || Has(ns, d.id) then (ns, branch)
    else (ns + [Node(d.id, Some(parentId), DepthOf(ns, parentId) + 1)], branch + {d.id})
  }

  function AdoptAll(ns: seq<Node>, branch: set<Id>, locals: set<Id>, record: Id, ds: seq<Descendant>)
      : (seq<Node>, set<Id>)
  {
    if ds == [] then (ns, branch)
    else
      var (before, grown) := AdoptAll(ns, branch, locals, record, ds[..|ds| - 1]);
      Adopt(before, grown, locals, record, ds[|ds| - 1])
  }

  function Accepted(records: seq<Record>, locals: set<Id>): seq<Node> {
    if records == [] then []
    else
      var before, r := Accepted(records[..|records| - 1], locals), records[|records| - 1];
      AdoptAll(before + [Node(r.agentId, None, 0)], {r.agentId}, locals, r.agentId, r.descendants).0
  }

  // ----- the forest in depth-first preorder, as positions in the accepted list

  /** Positions of the nodes that name this parent, in order. */
  function Kids(ns: seq<Node>, parentId: Option<Id>): (r: seq<nat>)
    ensures forall i | 0 <= i < |r| :: r[i] < |ns| && ns[r[i]].parentId == parentId
    ensures forall i, j | 0 <= i < j < |r| :: r[i] < r[j]
    ensures forall k | 0 <= k < |ns| && ns[k].parentId == parentId :: k in r
  {
    if ns == [] then []
    else
      var before, n := Kids(ns[..|ns| - 1], parentId), |ns| - 1;
      assert forall k | 0 <= k < n && ns[..n][k].parentId == parentId :: k in before;
      if ns[n].parentId == parentId then before + [n] else before
  }

  predicate InRange(ks: seq<nat>, from: nat, to: nat) {
    forall j | 0 <= j < |ks| :: from <= ks[j] < to
  }

  lemma {:induction false} KidsComeLater(ns: seq<Node>, i: nat)
    requires Forest(ns) && i < |ns|
    ensures forall k | k in Kids(ns, Some(ns[i].id)) :: i < k && Hangs(ns, k, i)
    ensures InRange(Kids(ns, Some(ns[i].id)), i + 1, |ns|)
  {
    var kids := Kids(ns, Some(ns[i].id));
    forall k | k in kids
      ensures i < k && Hangs(ns, k, i)
    {
      assert Rooted(ns, k);
      var p :| 0 <= p < k && Hangs(ns, k, p);
      assert ns[p].id == ns[i].id;
    }
    assert forall j | 0 <= j < |kids| :: kids[j] in kids;
  }

  function Visit(ns: seq<Node>, i: nat): seq<nat>
    requires Forest(ns) && i < |ns|
    decreases |ns| - i, 0
  {
    KidsComeLater(ns, i);
    [i] + VisitAll(ns, i + 1, Kids(ns, Some(ns[i].id)))
  }

  function VisitAll(ns: seq<Node>, from: nat, ks: seq<nat>): seq<nat>
    requires Forest(ns) && from <= |ns| && InRange(ks, from, |ns|)
    decreases |ns| - from, |ks| + 1
  {
    if ks == [] then []
    else
      Visit(ns, ks[0]) + VisitAll(ns, from, ks[1..])
  }

  function Preorder(ns: seq<Node>): seq<nat>
    requires Forest(ns)
  {
    VisitAll(ns, 0, Kids(ns, None))
  }

  /** The nodes at some positions. */
  function At(ns: seq<Node>, ks: seq<nat>): (r: seq<Node>)
    ensures |r| == |ks|
    ensures forall i | 0 <= i < |ks| && ks[i] < |ns| :: r[i] == ns[ks[i]]
  {
    if ks == [] then []
    else
      var last := ks[|ks| - 1];
      At(ns, ks[..|ks| - 1]) + [if last < |ns| then ns[last] else Node(0, None, 0)]
  }

  lemma {:induction false} AtConcat(ns: seq<Node>, a: seq<nat>, b: seq<nat>, ordered: seq<Node>)
    ensures (ordered + At(ns, a)) + At(ns, b) == ordered + At(ns, a + b)
  {
    AtConcatOnly(ns, a, b);
  }

  lemma {:induction false} AtConcatOnly(ns: seq<Node>, a: seq<nat>, b: seq<nat>)
    ensures At(ns, a + b) == At(ns, a) + At(ns, b)
  {
    if b == [] {
      assert a + b == a;
    } else {
      var init := b[..|b| - 1];
      assert (a + b)[..|a + b| - 1] == a + init;
      AtConcatOnly(ns, a, init);
    }
  }

  // ----- every accepted node exactly once

  /** Position of the parent, or -1 for a root. */
  function Parent(ns: seq<Node>, k: nat): (p: int)
    requires Forest(ns) && k < |ns|
    ensures -1 <= p < k
    ensures p >= 0 ==> Hangs(ns, k, p)
    ensures p < 0 ==> ns[k].parentId.None? && ns[k].depth == 0
  {
    assert Rooted(ns, k);
    if ns[k].parentId.None? then -1 else (var p :| 0 <= p < k && Hangs(ns, k, p); p)
  }

  /** `k` is `i` or lies below it. */
  predicate Under(ns: seq<Node>, i: nat, k: nat)
    requires Forest(ns) && i < |ns| && k < |ns|
    decreases k
  {
    k == i || (Parent(ns, k) >= 0 && Under(ns, i, Parent(ns, k)))
  }

  lemma {:induction false} UnderIsLater(ns: seq<Node>, i: nat, k: nat)
    requires Forest(ns) && i < |ns| && k < |ns| && Under(ns, i, k)
    ensures i <= k
    decreases k
  {
    if k != i {
      UnderIsLater(ns, i, Parent(ns, k));
    }
  }

  lemma {:induction false} ParentIsNamed(ns: seq<Node>, k: nat, p: nat)
    requires Forest(ns) && k < |ns| && p < |ns| && ns[k].parentId == Some(ns[p].id)
    ensures Parent(ns, k) == p
  {
    var q := Parent(ns, k);
    assert ns[q].id == ns[p].id;
  }

  /** Below `i` means: at or below one of its children. */
  lemma {:induction false} UnderSomeKid(ns: seq<Node>, i: nat, k: nat) returns (j: nat)
    requires Forest(ns) && i < |ns| && k < |ns| && Under(ns, i, k) && k != i
    ensures j in Kids(ns, Some(ns[i].id)) && Under(ns, j, k)
    decreases k
  {
    if Parent(ns, k) == i {
      j := k;
    } else {
      j := UnderSomeKid(ns, i, Parent(ns, k));
    }
  }

  lemma {:induction false} UnderThrough(ns: seq<Node>, i: nat, j: nat, k: nat)
    requires Forest(ns) && i < |ns| && j < |ns| && k < |ns| && Under(ns, i, j) && Under(ns, j, k)
    ensures Under(ns, i, k)
    decreases k
  {
    if k != j {
      UnderThrough(ns, i, j, Parent(ns, k));
    }
  }

  /** Nodes with the same parent have nothing below them in common. */
  lemma {:induction false} SiblingsDisjoint(ns: seq<Node>, i: nat, j: nat, k: nat)
    requires Forest(ns) && i < |ns| && j < |ns| && k < |ns|
    requires Parent(ns, i) == Parent(ns, j) && Under(ns, i, k) && Under(ns, j, k)
    ensures i == j
    decreases k
  {
    if k == i && k != j {
      UnderIsLater(ns, j, Parent(ns, i));
    } else if k == j && k != i {
      UnderIsLater(ns, i, Parent(ns, j));
    } else if k != i {
      SiblingsDisjoint(ns, i, j, Parent(ns, k));
    }
  }

  /** What lies properly under a node lies under one of its children. */
  lemma {:induction false} UnderByKids(ns: seq<Node>, i: nat, k: nat)
    requires Forest(ns) && i < |ns| && k < |ns| && k != i
    ensures Under(ns, i, k) <==> exists j :: j in Kids(ns, Some(ns[i].id)) && Under(ns, j, k)
  {
    var kids := Kids(ns, Some(ns[i].id));
    if Under(ns, i, k) {
      var j := UnderSomeKid(ns, i, k);
    }
    if j :| j in kids && Under(ns, j, k) {
      KidsComeLater(ns, i);
      ParentIsNamed(ns, j, i);
      UnderThrough(ns, i, j, k);
    }
  }

  lemma {:induction false} VisitIsUnder(ns: seq<Node>, i: nat, k: nat)
    requires Forest(ns) && i < |ns| && k < |ns|
    ensures k in Visit(ns, i) <==> Under(ns, i, k)
    decreases |ns| - i, 0
  {
    KidsComeLater(ns, i);
    VisitAllIsUnder(ns, i + 1, Kids(ns, Some(ns[i].id)), k);
    if k != i {
      UnderByKids(ns, i, k);
    }
  }

  lemma {:induction false} VisitAllIsUnder(ns: seq<Node>, from: nat, ks: seq<nat>, k: nat)
    requires Forest(ns) && from <= |ns| && k < |ns| && InRange(ks, from, |ns|)
    ensures k in VisitAll(ns, from, ks) <==> exists j :: j in ks && Under(ns, j, k)
    decreases |ns| - from, |ks| + 1
  {
    if ks != [] {
      assert ks[0] in ks;
      assert forall j :: j in ks <==> j == ks[0] || j in ks[1..];
      VisitIsUnder(ns, ks[0], k);
      VisitAllIsUnder(ns, from, ks[1..], k);
    }
  }

  predicate Distinct(s: seq<nat>) {
    forall i, j | 0 <= i < j < |s| :: s[i] != s[j]
  }

  lemma {:induction false} VisitDistinct(ns: seq<Node>, i: nat)
    requires Forest(ns) && i < |ns|
    ensures Distinct(Visit(ns, i)) && forall k | k in Visit(ns, i) :: i <= k < |ns|
    decreases |ns| - i, 0
  {
    KidsComeLater(ns, i);
    var kids := Kids(ns, Some(ns[i].id));
    forall j | 0 <= j < |kids|
      ensures Parent(ns, kids[j]) == i
    {
      ParentIsNamed(ns, kids[j], i);
    }
    VisitAllDistinct(ns, i + 1, kids, i);
    ConcatDistinct([i], VisitAll(ns, i + 1, kids));
  }

  lemma {:induction false} VisitAllDistinct(ns: seq<Node>, from: nat, ks: seq<nat>, p: int)
    requires Forest(ns) && from <= |ns| && Distinct(ks) && InRange(ks, from, |ns|)
    requires forall j | 0 <= j < |ks| :: Parent(ns, ks[j]) == p
    ensures Distinct(VisitAll(ns, from, ks)) && forall k | k in VisitAll(ns, from, ks) :: from <= k < |ns|
    decreases |ns| - from, |ks| + 1
  {
    if ks != [] {
      var first, rest := Visit(ns, ks[0]), VisitAll(ns, from, ks[1..]);
      VisitDistinct(ns, ks[0]);
      VisitAllDistinct(ns, from, ks[1..], p);
      forall k | k in first && k in rest
        ensures false
      {
        VisitIsUnder(ns, ks[0], k);
        VisitAllIsUnder(ns, from, ks[1..], k);
        var j :| j in ks[1..] && Under(ns, j, k);
        SiblingsDisjoint(ns, ks[0], j, k);
      }
      ConcatDistinct(first, rest);
    }
  }

  lemma {:induction false} ConcatDistinct(a: seq<nat>, b: seq<nat>)
    requires Distinct(a) && Distinct(b) && forall k | k in a :: k !in b
    ensures Distinct(a + b)
  {
    forall i, j | 0 <= i < j < |a + b|
      ensures (a + b)[i] != (a + b)[j]
    {
      if i < |a| <= j {
        assert a[i] in a && b[j - |a|] in b;
      }
    }
  }

  /** The flattened list holds every accepted node, once. */
  lemma {:induction false} PreorderIsComplete(ns: seq<Node>)
    requires Forest(ns)
    ensures Distinct(Preorder(ns)) && forall k :: k in Preorder(ns) <==> 0 <= k < |ns|
  {
    var roots := Kids(ns, None);
    assert forall j | 0 <= j < |roots| :: Parent(ns, roots[j]) == -1;
    VisitAllDistinct(ns, 0, roots, -1);
    forall k | 0 <= k < |ns|
      ensures k in Preorder(ns)
    {
      var r := RootOf(ns, k);
      VisitAllIsUnder(ns, 0, roots, k);
    }
  }

  lemma {:induction false} RootOf(ns: seq<Node>, k: nat) returns (r: nat)
    requires Forest(ns) && k < |ns|
    ensures r in Kids(ns, None) && Under(ns, r, k)
    decreases k
  {
    if Parent(ns, k) < 0 {
      r := k;
    } else {
      r := RootOf(ns, Parent(ns, k));
    }
  }

  // ----- depths alone give the tree back

  /** The nearest entry before `k` that is shallower, or -1. */
  predicate Nearest(depths: seq<nat>, k: nat, j: int)
    requires k < |depths|
  {
    && -1 <= j < k
    && (j >= 0 ==> depths[j] < depths[k])
    && forall m | j < m < k :: depths[m] >= depths[k]
  }

  lemma {:induction false} NearestIsOne(depths: seq<nat>, k: nat, i: int, j: int)
    requires k < |depths| && Nearest(depths, k, i) && Nearest(depths, k, j)
    ensures i == j
  {
  }

  function Depths(ns: seq<Node>, b: seq<nat>): (r: seq<nat>)
    requires forall k | k in b :: k < |ns|
    ensures |r| == |b|
  {
    seq<nat>(|b|, i requires 0 <= i < |b| => assert b[i] in b; ns[b[i]].depth)
  }

  /** Siblings under `p` at depth `d` with everything below them: each entry's nearest shallower entry is its parent. */
  predicate Shaped(ns: seq<Node>, b: seq<nat>, p: int, d: nat)
    requires Forest(ns)
  {
    && (forall k | k in b :: k < |ns|)
    && forall k | 0 <= k < |b| :: Placed(ns, b, k, p, d)
  }

  predicate Placed(ns: seq<Node>, b: seq<nat>, k: nat, p: int, d: nat)
    requires Forest(ns) && k < |b| && forall k | k in b :: k < |ns|
  {
    assert b[k] in b;
    if ns[b[k]].depth <= d then ns[b[k]].depth == d && Parent(ns, b[k]) == p
    else exists j :: 0 <= j < k && b[j] == Parent(ns, b[k]) && Nearest(Depths(ns, b), k, j)
  }

  lemma {:induction false} NearestInFront(da: seq<nat>, db: seq<nat>, k: nat, j: int)
    requires k < |da| && Nearest(da, k, j)
    ensures Nearest(da + db, k, j)
  {
  }

  lemma {:induction false} NearestBehind(da: seq<nat>, db: seq<nat>, k: nat, j: nat)
    requires k < |db| && Nearest(db, k, j)
    ensures Nearest(da + db, |da| + k, |da| + j)
  {
    var n := |da|;
    forall m | n + j < m < n + k
      ensures (da + db)[m] >= (da + db)[n + k]
    {
      assert (da + db)[m] == db[m - n];
    }
  }

  lemma {:induction false} PlacedInFront(ns: seq<Node>, a: seq<nat>, b: seq<nat>, k: nat, p: int, d: nat)
    requires Forest(ns) && k < |a| && (forall x | x in a :: x < |ns|) && (forall x | x in b :: x < |ns|)
    requires forall x | x in a + b :: x < |ns|
    requires Placed(ns, a, k, p, d) && Depths(ns, a + b) == Depths(ns, a) + Depths(ns, b)
    ensures Placed(ns, a + b, k, p, d)
  {
    var ab := a + b;
    assert ab[k] == a[k] && a[k] in a;
    if ns[a[k]].depth > d {
      var j :| 0 <= j < k && a[j] == Parent(ns, a[k]) && Nearest(Depths(ns, a), k, j);
      NearestInFront(Depths(ns, a), Depths(ns, b), k, j);
      assert ab[j] == a[j];
    }
  }

  lemma {:induction false} PlacedBehind(ns: seq<Node>, a: seq<nat>, b: seq<nat>, k: nat, p: int, d: nat)
    requires Forest(ns) && k < |b| && (forall x | x in a :: x < |ns|) && (forall x | x in b :: x < |ns|)
    requires forall x | x in a + b :: x < |ns|
    requires Placed(ns, b, k, p, d) && Depths(ns, a + b) == Depths(ns, a) + Depths(ns, b)
    ensures Placed(ns, a + b, |a| + k, p, d)
  {
    var ab := a + b;
    assert ab[|a| + k] == b[k] && b[k] in b;
    if ns[b[k]].depth > d {
      var j :| 0 <= j < k && b[j] == Parent(ns, b[k]) && Nearest(Depths(ns, b), k, j);
      NearestBehind(Depths(ns, a), Depths(ns, b), k, j);
      assert ab[|a| + j] == b[j];
    }
  }

  lemma {:induction false} ShapedConcat(ns: seq<Node>, a: seq<nat>, b: seq<nat>, p: int, d: nat)
    requires Forest(ns) && Shaped(ns, a, p, d) && Shaped(ns, b, p, d)
    ensures Shaped(ns, a + b, p, d)
  {
    assert forall x | x in a + b :: x in a || x in b;
    assert Depths(ns, a + b) == Depths(ns, a) + Depths(ns, b);
    forall k | 0 <= k < |a + b|
      ensures Placed(ns, a + b, k, p, d)
    {
      if k < |a| {
        PlacedInFront(ns, a, b, k, p, d);
      } else {
        PlacedBehind(ns, a, b, k - |a|, p, d);
      }
    }
  }

  lemma {:induction false} PlacedUnder(ns: seq<Node>, i: nat, b: seq<nat>, ib: seq<nat>, k: nat)
    requires Forest(ns) && i < |ns| && Shaped(ns, b, i, ns[i].depth + 1) && k < |b| && ib == [i] + b
    requires Depths(ns, ib) == [ns[i].depth] + Depths(ns, b)
             && forall m | 0 <= m < |b| :: Depths(ns, b)[m] >= ns[i].depth + 1
    ensures (forall x | x in ib :: x < |ns|) && Placed(ns, ib, k + 1, Parent(ns, i), ns[i].depth)
  {
    var d := ns[i].depth;
    assert b[k] in b && Placed(ns, b, k, i, d + 1) && ib[k + 1] == b[k];
    if ns[b[k]].depth == d + 1 {
      assert ib[0] == Parent(ns, ib[k + 1]) && Nearest(Depths(ns, ib), k + 1, 0);
    } else {
      var j :| 0 <= j < k && b[j] == Parent(ns, b[k]) && Nearest(Depths(ns, b), k, j);
      NearestBehind([d], Depths(ns, b), k, j);
      assert ib[j + 1] == b[j];
    }
  }

  /** A node in front of its children's blocks is one block a level higher. */
  lemma {:induction false} ShapedUnder(ns: seq<Node>, i: nat, b: seq<nat>)
    requires Forest(ns) && i < |ns| && Shaped(ns, b, i, ns[i].depth + 1)
    ensures Shaped(ns, [i] + b, Parent(ns, i), ns[i].depth)
  {
    var ib, d := [i] + b, ns[i].depth;
    assert Depths(ns, ib) == [d] + Depths(ns, b);
    forall m | 0 <= m < |b|
      ensures Depths(ns, b)[m] >= d + 1
    {
      assert Placed(ns, b, m, i, d + 1) && b[m] in b;
    }
    forall k | 0 <= k < |ib|
      ensures Placed(ns, ib, k, Parent(ns, i), d)
    {
      if k > 0 {
        PlacedUnder(ns, i, b, ib, k - 1);
      }
    }
  }

  lemma {:induction false} VisitShaped(ns: seq<Node>, i: nat)
    requires Forest(ns) && i < |ns|
    ensures Shaped(ns, Visit(ns, i), Parent(ns, i), ns[i].depth)
    decreases |ns| - i, 0
  {
    KidsComeLater(ns, i);
    var kids := Kids(ns, Some(ns[i].id));
    forall j | 0 <= j < |kids|
      ensures Parent(ns, kids[j]) == i
    {
      ParentIsNamed(ns, kids[j], i);
    }
    VisitAllShaped(ns, i + 1, kids, i, ns[i].depth + 1);
    ShapedUnder(ns, i, VisitAll(ns, i + 1, kids));
  }

  lemma {:induction false} VisitAllShaped(ns: seq<Node>, from: nat, ks: seq<nat>, p: int, d: nat)
    requires Forest(ns) && from <= |ns| && InRange(ks, from, |ns|)
    requires forall j | 0 <= j < |ks| :: Parent(ns, ks[j]) == p && ns[ks[j]].depth == d
    ensures Shaped(ns, VisitAll(ns, from, ks), p, d)
    decreases |ns| - from, |ks| + 1
  {
    if ks != [] {
      VisitShaped(ns, ks[0]);
      VisitAllShaped(ns, from, ks[1..], p, d);
      ShapedConcat(ns, Visit(ns, ks[0]), VisitAll(ns, from, ks[1..]), p, d);
    }
  }

  /** On the flattened list, the nearest shallower entry before a row is its true parent, and a root has none. */
  lemma {:induction false} NearestIsParent(ns: seq<Node>, k: nat, j: int)
    requires Forest(ns) && k < |Preorder(ns)|
    requires forall i | i in Preorder(ns) :: i < |ns|
    requires Nearest(Depths(ns, Preorder(ns)), k, j)
    ensures var b := Preorder(ns);
            b[k] < |ns| && Parent(ns, b[k]) == if j < 0 then -1 else b[j]
  {
    var b := Preorder(ns);
    assert b[k] in b;
    assert j >= 0 ==> Depths(ns, b)[j] < Depths(ns, b)[k];
    var roots := Kids(ns, None);
    assert forall j | 0 <= j < |roots| :: Parent(ns, roots[j]) == -1;
    VisitAllShaped(ns, 0, roots, -1, 0);
    assert Placed(ns, b, k, -1, 0);
    if ns[b[k]].depth > 0 {
      var i :| 0 <= i < k && b[i] == Parent(ns, b[k]) && Nearest(Depths(ns, b), k, i);
      NearestIsOne(Depths(ns, b), k, i, j);
    }
  }

  /** The rows below row `k` are exactly those directly after it that are deeper than it. */
  lemma {:induction false} SubtreesAreContiguous(ns: seq<Node>, k: nat, m: nat)
    requires Forest(ns) && k <= m < |Preorder(ns)|
    requires forall i | i in Preorder(ns) :: i < |ns|
    ensures var b := Preorder(ns);
            b[k] < |ns| && b[m] < |ns| &&
            (Under(ns, b[k], b[m]) <==> forall t | k < t <= m :: Depths(ns, b)[t] > Depths(ns, b)[k])
    decreases m
  {
    var b := Preorder(ns);
    var ds := Depths(ns, b);
    assert b[k] in b && b[m] in b;
    PreorderIsComplete(ns);
    if m > k {
      var j := FindNearest(ds, m);
      NearestIsParent(ns, m, j);
      if j >= k {
        SubtreesAreContiguous(ns, k, j);
        assert forall t | j < t <= m :: ds[t] >= ds[m];
        assert ds[j] < ds[m];
      } else {
        assert ds[k] >= ds[m];
        if j >= 0 && Under(ns, b[k], b[m]) {
          NotUnderEarlier(ns, k, j);
        }
      }
    }
  }

  /** Nothing that comes before a row lies below it. */
  lemma {:induction false} NotUnderEarlier(ns: seq<Node>, k: nat, j: nat)
    requires Forest(ns) && j < k < |Preorder(ns)|
    requires forall i | i in Preorder(ns) :: i < |ns|
    ensures var b := Preorder(ns); b[j] < |ns| && b[k] < |ns| && !Under(ns, b[k], b[j])
    decreases j
  {
    var b := Preorder(ns);
    assert b[j] in b && b[k] in b;
    PreorderIsComplete(ns);
    var i := FindNearest(Depths(ns, b), j);
    NearestIsParent(ns, j, i);
    if i >= 0 {
      NotUnderEarlier(ns, k, i);
    }
  }

  lemma {:induction false} FindNearest(depths: seq<nat>, k: nat) returns (j: int)
    requires k < |depths|
    ensures Nearest(depths, k, j)
  {
    j := k - 1;
    while j >= 0 && depths[j] >= depths[k]
      invariant -1 <= j < k
      invariant forall m | j < m < k :: depths[m] >= depths[k]
    {
      j := j - 1;
    }
  }

  /** `parentIndexes`: one pass with a stack of the open ancestors. */
  method ParentIndexes(depths: seq<nat>) returns (parents: seq<int>)
    ensures |parents| == |depths|
    ensures forall k | 0 <= k < |depths| :: Nearest(depths, k, parents[k])
  {
    parents := [];
    var stack: seq<nat> := [];
    var i := 0;
    while i < |depths|
      invariant 0 <= i <= |depths| && |parents| == i
      invariant forall k | 0 <= k < i :: Nearest(depths, k, parents[k])
      invariant forall s | 0 <= s < |stack| :: stack[s] < i
      invariant forall s, t | 0 <= s < t < |stack| :: stack[s] < stack[t]
      invariant forall m | 0 <= m < i :: Shadowed(depths, stack, m, i)
    {
      ghost var full := stack;
      while stack != [] && depths[stack[|stack| - 1]] >= depths[i]
        invariant stack <= full
        invariant forall s | |stack| <= s < |full| :: depths[full[s]] >= depths[i]
      {
        stack := stack[..|stack| - 1];
      }
      var parent := if stack == [] then -1 else stack[|stack| - 1];
      PoppedBehind(depths, full, |stack|, i, stack + [i], i + 1);
      parents := parents + [parent];
      stack := stack + [i];
      i := i + 1;
    }
  }

  /** After the pops: what lies behind the new top is no shallower than row `i`, and the rest stays shadowed. */
  lemma {:induction false} PoppedBehind(depths: seq<nat>, full: seq<nat>, kept: nat, i: nat, next: seq<nat>, n: nat)
    requires i < |depths| && kept <= |full| && next == full[..kept] + [i] && n == i + 1
    requires forall s | 0 <= s < |full| :: full[s] < i
    requires forall s, t | 0 <= s < t < |full| :: full[s] < full[t]
    requires forall m | 0 <= m < i :: Shadowed(depths, full, m, i)
    requires forall s | kept <= s < |full| :: depths[full[s]] >= depths[i]
    requires kept > 0 ==> depths[full[kept - 1]] < depths[i]
    ensures Nearest(depths, i, if kept == 0 then -1 else full[kept - 1])
    ensures forall s | 0 <= s < |next| :: next[s] < n
    ensures forall m | 0 <= m < n :: Shadowed(depths, next, m, n)
  {
    assert next[kept] == i;
    forall m | 0 <= m < i
      ensures Shadowed(depths, next, m, n)
    {
      BehindTop(depths, full, kept, i, next, m);
    }
    NearestAfterPops(depths, full, kept, i, next);
  }

  lemma {:induction false} NearestAfterPops(depths: seq<nat>, full: seq<nat>, kept: nat, i: nat, next: seq<nat>)
    requires i < |depths| && kept <= |full| && next == full[..kept] + [i]
    requires forall s | 0 <= s < |full| :: full[s] < i
    requires forall s, t | 0 <= s < t < |full| :: full[s] < full[t]
    requires forall m | 0 <= m < i :: Shadowed(depths, full, m, i)
    requires forall s | kept <= s < |full| :: depths[full[s]] >= depths[i]
    requires kept > 0 ==> depths[full[kept - 1]] < depths[i]
    ensures Nearest(depths, i, if kept == 0 then -1 else full[kept - 1])
  {
    var j := if kept == 0 then -1 else full[kept - 1];
    forall m | j < m < i
      ensures depths[m] >= depths[i]
    {
      BehindTop(depths, full, kept, i, next, m);
    }
  }

  lemma {:induction false} BehindTop(depths: seq<nat>, full: seq<nat>, kept: nat, i: nat, next: seq<nat>, m: nat)
    requires m < i < |depths| && kept <= |full| && next == full[..kept] + [i]
    requires forall s | 0 <= s < |full| :: full[s] < i
    requires forall s, t | 0 <= s < t < |full| :: full[s] < full[t]
    requires forall s | kept <= s < |full| :: depths[full[s]] >= depths[i]
    requires Shadowed(depths, full, m, i)
    ensures Shadowed(depths, next, m, i + 1)
    ensures kept == 0 || full[kept - 1] < m ==> depths[m] >= depths[i]
  {
    var s :| 0 <= s < |full| && m <= full[s] && depths[full[s]] <= depths[m];
    if s < kept {
      assert next[s] == full[s];
    } else {
      assert next[kept] == i;
    }
  }

  /** Every earlier row is on the stack or hidden behind a later row on it that is no deeper. */
  predicate Shadowed(depths: seq<nat>, stack: seq<nat>, m: nat, i: nat)
    requires m < i <= |depths| && forall s | 0 <= s < |stack| :: stack[s] < i
  {
    exists s :: 0 <= s < |stack| && m <= stack[s] && depths[stack[s]] <= depths[m]
  }

  // ----- the builder

  lemma {:induction false} HasMore(ns: seq<Node>, n: Node)
    ensures forall id :: Has(ns + [n], id) <==> Has(ns, id) || n.id == id
  {
    var more := ns + [n];
    forall id
      ensures Has(more, id) <==> Has(ns, id) || n.id == id
    {
      if Has(ns, id) {
        var k :| 0 <= k < |ns| && ns[k].id == id;
        assert more[k].id == id;
      }
      assert more[|ns|] == n;
    }
  }

  lemma {:induction false} ForestMore(ns: seq<Node>, n: Node)
    requires Forest(ns) && !Has(ns, n.id)
    requires if n.parentId.None? then n.depth == 0
             else Has(ns, n.parentId.value) && n.depth == DepthOf(ns, n.parentId.value) + 1
    ensures Forest(ns + [n])
  {
    var more := ns + [n];
    forall k | 0 <= k < |more|
      ensures Rooted(more, k)
    {
      if k < |ns| {
        assert Rooted(ns, k);
        if ns[k].parentId.Some? {
          var p :| 0 <= p < k && Hangs(ns, k, p);
          assert Hangs(more, k, p);
        }
      } else if n.parentId.Some? {
        var p :| 0 <= p < |ns| && ns[p].id == n.parentId.value;
        DepthOfIs(ns, p);
        assert Hangs(more, k, p);
      }
    }
  }

  /** The nodes that name this parent, in order. */
  function KidNodes(ns: seq<Node>, parentId: Option<Id>): seq<Node> {
    if ns == [] then []
    else
      var last := ns[|ns| - 1];
      KidNodes(ns[..|ns| - 1], parentId) + if last.parentId == parentId then [last] else []
  }

  lemma {:induction false} KidNodesAt(ns: seq<Node>, parentId: Option<Id>)
    ensures KidNodes(ns, parentId) == At(ns, Kids(ns, parentId))
  {
    if ns != [] {
      var init := ns[..|ns| - 1];
      KidNodesAt(init, parentId);
      assert At(ns, Kids(init, parentId)) == At(init, Kids(init, parentId));
      AtConcat(ns, Kids(init, parentId), [|init|], []);
    }
  }

  function ChildrenOf(children: map<Id, seq<Node>>, id: Id): seq<Node> {
    if id in children then children[id] else []
  }

  /** The id map says what the accepted list says. */
  ghost predicate NodesIndexed(ns: seq<Node>, nodes: map<Id, Node>) {
    forall id :: (id in nodes <==> Has(ns, id)) && (id in nodes ==> nodes[id].depth == DepthOf(ns, id))
  }

  /** So do the child lists. */
  ghost predicate KidsIndexed(ns: seq<Node>, children: map<Id, seq<Node>>, roots: seq<Node>) {
    && roots == KidNodes(ns, None)
    && forall id :: ChildrenOf(children, id) == KidNodes(ns, Some(id))
  }

  lemma {:induction false} NodesMore(ns: seq<Node>, nodes: map<Id, Node>, node: Node)
    requires NodesIndexed(ns, nodes)
    ensures NodesIndexed(ns + [node], nodes[node.id := node])
  {
    HasMore(ns, node);
    assert (ns + [node])[..|ns|] == ns;
  }

  lemma {:induction false} KidsMore(ns: seq<Node>, node: Node, parentId: Option<Id>)
    ensures KidNodes(ns + [node], parentId) == KidNodes(ns, parentId) + if node.parentId == parentId then [node] else []
  {
    assert (ns + [node])[..|ns|] == ns;
  }

  lemma {:induction false} RootMore(ns: seq<Node>, children: map<Id, seq<Node>>, roots: seq<Node>, node: Node)
    requires KidsIndexed(ns, children, roots) && node.parentId.None?
    ensures KidsIndexed(ns + [node], children, roots + [node])
  {
    KidsMore(ns, node, None);
    forall id
      ensures KidNodes(ns + [node], Some(id)) == KidNodes(ns, Some(id))
    {
      KidsMore(ns, node, Some(id));
    }
  }

  lemma {:induction false} ChildMore(ns: seq<Node>, children: map<Id, seq<Node>>, roots: seq<Node>, node: Node)
    requires KidsIndexed(ns, children, roots) && node.parentId.Some?
    ensures KidsIndexed(ns + [node],
                        children[node.parentId.value := ChildrenOf(children, node.parentId.value) + [node]], roots)
  {
    KidsMore(ns, node, None);
    forall id
      ensures KidNodes(ns + [node], Some(id))
              == KidNodes(ns, Some(id)) + if node.parentId == Some(id) then [node] else []
    {
      KidsMore(ns, node, Some(id));
    }
  }

  /** Row `id` is filed exactly under a held parent of its branch, when its id is neither local nor held. */
  predicate RowFiled(ns: seq<Node>, branch: set<Id>, locals: set<Id>, parent: Id, id: Id, more: seq<Node>,
        grown: set<Id>)
  {
    if Has(ns, parent) && parent in branch && id !in locals && !Has(ns, id)
    then
      && grown == branch + {id} && |more| == |ns| + 1 && more[..|ns|] == ns
      && more[|ns|].id == id && more[|ns|].parentId == Some(parent)
      && exists k :: 0 <= k < |ns| && ns[k].id == parent && more[|ns|].depth == ns[k].depth + 1
    else more == ns && grown == branch
  }

  lemma {:induction false} DepthIsHeld(ns: seq<Node>, id: Id)
    requires Has(ns, id)
    ensures exists k :: 0 <= k < |ns| && ns[k].id == id && ns[k].depth == DepthOf(ns, id)
  {
    var init := ns[..|ns| - 1];
    if ns[|ns| - 1].id != id {
      var i :| 0 <= i < |ns| && ns[i].id == id;
      assert init[i].id == id;
      DepthIsHeld(init, id);
      var k :| 0 <= k < |init| && init[k].id == id && init[k].depth == DepthOf(init, id);
      assert ns[k] == init[k];
    }
  }

  lemma {:induction false} AdoptFiles(ns: seq<Node>, branch: set<Id>, locals: set<Id>, record: Id, d: Descendant)
    ensures var (more, grown) := Adopt(ns, branch, locals, record, d);
            RowFiled(ns, branch, locals, if d.parentId.Some? then d.parentId.value else record, d.id, more, grown)
  {
    var parentId := if d.parentId.Some? then d.parentId.value else record;
    if Has(ns, parentId) {
      DepthIsHeld(ns, parentId);
    }
  }

  /** The builder's three collections; `ns` is the accepted list they index. */
  class Builder {
    var nodes: map<Id, Node>
    var children: map<Id, seq<Node>>
    var roots: seq<Node>
    ghost var ns: seq<Node>

    ghost predicate Valid()
      reads this
    {
      Forest(ns) && NodesIndexed(ns, nodes) && KidsIndexed(ns, children, roots)
    }

    constructor ()
      ensures Valid() && ns == []
    {
      nodes, children, roots, ns := map[], map[], [], [];
    }

    /** `add`: refused when the id is taken, else filed under its parent or among the roots. */
    method Add(node: Node) returns (added: bool)
      requires Valid()
      requires if node.parentId.None? then node.depth == 0
               else Has(ns, node.parentId.value) && node.depth == DepthOf(ns, node.parentId.value) + 1
      modifies this
      ensures Valid() && added == !Has(old(ns), node.id)
      ensures ns == if added then old(ns) + [node] else old(ns)
    {
      if node.id in nodes {
        return false;
      }
      ForestMore(ns, node);
      NodesMore(ns, nodes, node);
      nodes := nodes[node.id := node];
      if node.parentId.None? {
        RootMore(ns, children, roots, node);
        roots := roots + [node];
      } else {
        ChildMore(ns, children, roots, node);
        children := children[node.parentId.value := ChildrenOf(children, node.parentId.value) + [node]];
      }
      ns := ns + [node];
      return true;
    }

    /** One propagated row: filed under its parent, and then its id joins the branch, or nothing changes. */
    method AddDescendant(record: Id, d: Descendant, locals: set<Id>, branch: set<Id>) returns (grown: set<Id>)
      requires Valid()
      modifies this
      ensures Valid() && (ns, grown) == Adopt(old(ns), branch, locals, record, d)
      ensures RowFiled(old(ns), branch, locals, if d.parentId.Some? then d.parentId.value else record, d.id, ns, grown)
    {
      grown := branch;
      var parentId := if d.parentId.Some? then d.parentId.value else record;
      assert (parentId in nodes <==> Has(ns, parentId))
          && (parentId in nodes ==> nodes[parentId].depth == DepthOf(ns, parentId));
      AdoptFiles(ns, branch, locals, record, d);
      if parentId in nodes && parentId in branch && d.id !in locals {
        var added := Add(Node(d.id, Some(parentId), nodes[parentId].depth + 1));
        if added {
          grown := branch + {d.id};
        }
      }
    }

    /** The rows one record propagates, in order. */
    method AddDescendants(record: Id, ds: seq<Descendant>, locals: set<Id>)
      requires Valid()
      modifies this
      ensures Valid() && ns == AdoptAll(old(ns), {record}, locals, record, ds).0
    {
      var branch := {record};
      var k := 0;
      while k < |ds|
        invariant 0 <= k <= |ds|
        invariant Valid() && (ns, branch) == AdoptAll(old(ns), {record}, locals, record, ds[..k])
      {
        assert ds[..k + 1][..k] == ds[..k];
        branch := AddDescendant(record, ds[k], locals, branch);
        k := k + 1;
      }
      assert ds[..|ds|] == ds;
    }
  }

  /** The child lists a walk of the forest needs. */
  ghost predicate Walkable(ns: seq<Node>, children: map<Id, seq<Node>>) {
    forall i | 0 <= i < |ns| :: ChildrenOf(children, ns[i].id) == At(ns, Kids(ns, Some(ns[i].id)))
  }

  lemma {:induction false} KidsIndexedWalkable(ns: seq<Node>, children: map<Id, seq<Node>>, roots: seq<Node>)
    requires KidsIndexed(ns, children, roots)
    ensures Walkable(ns, children) && roots == At(ns, Kids(ns, None))
  {
    KidNodesAt(ns, None);
    forall i | 0 <= i < |ns|
      ensures ChildrenOf(children, ns[i].id) == At(ns, Kids(ns, Some(ns[i].id)))
    {
      KidNodesAt(ns, Some(ns[i].id));
    }
  }

  /** `visit`: the node, then its children in turn. */
  method Visited(node: Node, children: map<Id, seq<Node>>, ordered: seq<Node>, ghost ns: seq<Node>, ghost i: nat)
      returns (out: seq<Node>)
    requires Forest(ns) && Walkable(ns, children) && i < |ns| && node == ns[i]
    ensures out == ordered + At(ns, Visit(ns, i))
    decreases |ns| - i, 0
  {
    ghost var kids := Kids(ns, Some(node.id));
    KidsComeLater(ns, i);
    AtConcat(ns, [i], VisitAll(ns, i + 1, kids), ordered);
    assert At(ns, [i]) == [node];
    out := VisitedAll(ChildrenOf(children, node.id), children, ordered + [node], ns, i + 1, kids);
  }

  /** The subtree of each node of a list in turn: a child loop, and the final loop over the roots. */
  method VisitedAll(nodes: seq<Node>, children: map<Id, seq<Node>>, ordered: seq<Node>, ghost ns: seq<Node>,
        ghost from: nat, ghost ks: seq<nat>)
      returns (out: seq<Node>)
    requires Forest(ns) && Walkable(ns, children)
    requires from <= |ns| && InRange(ks, from, |ns|) && nodes == At(ns, ks)
    ensures out == ordered + At(ns, VisitAll(ns, from, ks))
    decreases |ns| - from, |ks| + 1
  {
    if nodes == [] {
      assert ks == [];
      return ordered;
    }
    AtRest(ns, ks);
    out := Visited(nodes[0], children, ordered, ns, ks[0]);
    out := VisitedAll(nodes[1..], children, out, ns, from, ks[1..]);
    FirstThenRest(ns, from, ks, ordered);
  }

  lemma {:induction false} FirstThenRest(ns: seq<Node>, from: nat, ks: seq<nat>, ordered: seq<Node>)
    requires Forest(ns) && from <= |ns| && InRange(ks, from, |ns|) && ks != []
    ensures (ordered + At(ns, Visit(ns, ks[0]))) + At(ns, VisitAll(ns, from, ks[1..]))
            == ordered + At(ns, VisitAll(ns, from, ks))
  {
    AtConcat(ns, Visit(ns, ks[0]), VisitAll(ns, from, ks[1..]), ordered);
  }

  lemma {:induction false} AtRest(ns: seq<Node>, ks: seq<nat>)
    requires ks != [] && InRange(ks, 0, |ns|)
    ensures At(ns, ks)[0] == ns[ks[0]] && At(ns, ks)[1..] == At(ns, ks[1..])
  {
  }

  /** A propagated row never takes a local id. */
  lemma {:induction false} AdoptedAreNotLocal(ns: seq<Node>, branch: set<Id>, locals: set<Id>, record: Id,
        ds: seq<Descendant>, seen: set<Id>)
    requires LocalsAreRoots(ns, locals, seen)
    ensures LocalsAreRoots(AdoptAll(ns, branch, locals, record, ds).0, locals, seen)
  {
    if ds != [] {
      AdoptedAreNotLocal(ns, branch, locals, record, ds[..|ds| - 1], seen);
    }
  }

  lemma {:induction false} AdoptionAddsNoRoot(ns: seq<Node>, branch: set<Id>, locals: set<Id>, record: Id,
          ds: seq<Descendant>)
    ensures KidNodes(AdoptAll(ns, branch, locals, record, ds).0, None) == KidNodes(ns, None)
  {
    if ds != [] {
      var init, d := ds[..|ds| - 1], ds[|ds| - 1];
      AdoptionAddsNoRoot(ns, branch, locals, record, init);
      var (before, grown) := AdoptAll(ns, branch, locals, record, init);
      var parentId := if d.parentId.Some? then d.parentId.value else record;
      KidsMore(before, Node(d.id, Some(parentId), DepthOf(before, parentId) + 1), None);
    }
  }

  function RootNodes(records: seq<Record>): (r: seq<Node>)
    ensures |r| == |records|
  {
    seq(|records|, i requires 0 <= i < |records| => Node(records[i].agentId, None, 0))
  }

  /** The direct children are exactly the roots, in order, whatever rows they propagate. */
  lemma {:induction false} RecordsAreTheRoots(records: seq<Record>, locals: set<Id>)
    ensures KidNodes(Accepted(records, locals), None) == RootNodes(records)
  {
    if records != [] {
      var init, r := records[..|records| - 1], records[|records| - 1];
      var before := Accepted(init, locals);
      RecordsAreTheRoots(init, locals);
      KidsMore(before, Node(r.agentId, None, 0), None);
      AdoptionAddsNoRoot(before + [Node(r.agentId, None, 0)], {r.agentId}, locals, r.agentId, r.descendants);
      assert RootNodes(records) == RootNodes(init) + [Node(r.agentId, None, 0)];
    }
  }

  /** The preorder holds the accepted nodes, all of them and no others. */
  lemma {:induction false} SameNodes(ns: seq<Node>)
    requires Forest(ns)
    ensures forall n :: n in At(ns, Preorder(ns)) <==> n in ns
  {
    var b := Preorder(ns);
    PreorderIsComplete(ns);
    assert forall i | 0 <= i < |b| :: b[i] in b;
    forall n | n in ns
      ensures n in At(ns, b)
    {
      var k :| 0 <= k < |ns| && ns[k] == n;
      assert k in b;
      var i :| 0 <= i < |b| && b[i] == k;
      assert At(ns, b)[i] == n;
    }
  }

  function Ids(records: seq<Record>): set<Id> {
    set r | r in records :: r.agentId
  }

  /** Local ids enter the list only as the roots of records already processed. */
  ghost predicate LocalsAreRoots(ns: seq<Node>, locals: set<Id>, seen: set<Id>) {
    forall k | 0 <= k < |ns| && ns[k].id in locals :: ns[k].id in seen
  }

  /** A registry holds one record per agent id. */
  predicate OneRecordPerAgent(records: seq<Record>) {
    forall i, j | 0 <= i < j < |records| :: records[i].agentId != records[j].agentId
  }

  // ----- which propagated rows make it into the tree

  /** Row `k` of record `r` names an existing place, in the order records and rows come. */
  predicate RowAt(records: seq<Record>, r: nat, k: nat) {
    r < |records| && k < |records[r].descendants|
  }

  function RowId(records: seq<Record>, r: nat, k: nat): Id
    requires RowAt(records, r, k)
  {
    records[r].descendants[k].id
  }

  /** The parent a row names, its record when it names none. */
  function RowParent(records: seq<Record>, r: nat, k: nat): Id
    requires RowAt(records, r, k)
  {
    if records[r].descendants[k].parentId.Some? then records[r].descendants[k].parentId.value else records[r].agentId
  }

  predicate Sooner(r: nat, k: nat, r': nat, k': nat) {
    r < r' || (r == r' && k < k')
  }

  /**
   * A row is taken if its id is no record's and no sooner row's that was taken, and its parent is its own
   * record, or a sooner row of that record that was taken.
   */
  ghost predicate Takes(records: seq<Record>, r: nat, k: nat)
    decreases r, k
  {
    && RowAt(records, r, k)
    && (forall i | 0 <= i < |records| :: records[i].agentId != RowId(records, r, k))
    && (forall r': nat, k': nat | Sooner(r', k', r, k) && Takes(records, r', k') ::
          RowId(records, r', k') != RowId(records, r, k))
    && (RowParent(records, r, k) == records[r].agentId
        || exists j: nat :: j < k && Takes(records, r, j) && RowId(records, r, j) == RowParent(records, r, k))
  }

  /** The row stands among the nodes, under the parent it names. */
  ghost predicate Stands(ns: seq<Node>, records: seq<Record>, r: nat, k: nat)
    requires RowAt(records, r, k)
  {
    exists i :: 0 <= i < |ns| && ns[i].id == RowId(records, r, k) && ns[i].parentId == Some(RowParent(records, r, k))
  }

  ghost predicate TookId(records: seq<Record>, r: nat, k: nat, id: Id) {
    exists r': nat, k': nat :: Sooner(r', k', r, k) && Takes(records, r', k') && RowId(records, r', k') == id
  }

  predicate RecordId(records: seq<Record>, n: nat, id: Id) {
    exists i :: 0 <= i < |records| && i < n && records[i].agentId == id
  }

  /** The nodes after the first `r` records, the next one's root and its first `k` rows. */
  ghost predicate Holds(ns: seq<Node>, records: seq<Record>, r: nat, k: nat) {
    && r < |records|
    && (forall id :: Has(ns, id) <==> RecordId(records, r + 1, id) || TookId(records, r, k, id))
    && (forall r': nat, k': nat | Sooner(r', k', r, k) && Takes(records, r', k') :: Stands(ns, records, r', k'))
    && (forall i | 0 <= i < |ns| && ns[i].parentId.Some? :: Comes(ns[i], records, r, k))
  }

  /** The node is a row taken sooner than row `k` of record `r`. */
  ghost predicate Comes(n: Node, records: seq<Record>, r: nat, k: nat) {
    exists r': nat, k': nat ::
      && Sooner(r', k', r, k) && Takes(records, r', k')
      && n.id == RowId(records, r', k') && n.parentId == Some(RowParent(records, r', k'))
  }

  ghost predicate BranchHolds(branch: set<Id>, records: seq<Record>, r: nat, k: nat) {
    && r < |records|
    && forall id :: id in branch <==> id == records[r].agentId || InBranch(records, r, k, id)
  }

  lemma {:induction false} TakesIs(records: seq<Record>, r: nat, k: nat)
    requires RowAt(records, r, k)
    ensures Takes(records, r, k) <==>
            && !RecordId(records, |records|, RowId(records, r, k)) && !TookId(records, r, k, RowId(records, r, k))
            && (RowParent(records, r, k) == records[r].agentId || InBranch(records, r, k, RowParent(records, r, k)))
  {
  }

  ghost predicate InBranch(records: seq<Record>, r: nat, k: nat, id: Id) {
    exists j: nat :: j < k && Takes(records, r, j) && RowId(records, r, j) == id
  }

  lemma {:induction false} BranchIsThere(ns: seq<Node>, records: seq<Record>, r: nat, k: nat, id: Id)
    requires r < |records| && Holds(ns, records, r, k)
    requires id == records[r].agentId || InBranch(records, r, k, id)
    ensures Has(ns, id)
  {
    if id == records[r].agentId {
      assert RecordId(records, r + 1, id);
    } else {
      var j: nat :| j < k && Takes(records, r, j) && RowId(records, r, j) == id;
      assert Sooner(r, j, r, k);
      assert TookId(records, r, k, id);
    }
  }

  lemma {:induction false} FreshIds(ns: seq<Node>, records: seq<Record>, r: nat, k: nat, id: Id)
    requires Holds(ns, records, r, k)
    ensures id in Ids(records) || Has(ns, id) <==> RecordId(records, |records|, id) || TookId(records, r, k, id)
  {
    assert RecordId(records, r + 1, id) ==> RecordId(records, |records|, id);
  }

  /** Adopting row `k` takes it exactly when it is to be taken. */
  lemma {:induction false} AdoptTakes(ns: seq<Node>, branch: set<Id>, records: seq<Record>, r: nat, k: nat)
    requires RowAt(records, r, k) && Holds(ns, records, r, k) && BranchHolds(branch, records, r, k)
    ensures var id, parentId := RowId(records, r, k), RowParent(records, r, k);
            Takes(records, r, k) <==>
              Has(ns, parentId) && parentId in branch && id !in Ids(records) && !Has(ns, id)
  {
    TakesIs(records, r, k);
    FreshIds(ns, records, r, k, RowId(records, r, k));
    if RowParent(records, r, k) in branch {
      BranchIsThere(ns, records, r, k, RowParent(records, r, k));
    }
  }

  lemma {:induction false} SoonerNext(r: nat, k: nat, r': nat, k': nat)
    ensures Sooner(r', k', r, k + 1) <==> Sooner(r', k', r, k) || (r' == r && k' == k)
  {
  }

  lemma {:induction false} TookNext(records: seq<Record>, r: nat, k: nat, id: Id)
    requires RowAt(records, r, k)
    ensures TookId(records, r, k + 1, id) <==>
            TookId(records, r, k, id) || (Takes(records, r, k) && RowId(records, r, k) == id)
  {
    if TookId(records, r, k, id) {
      var r': nat, k': nat :| Sooner(r', k', r, k) && Takes(records, r', k') && RowId(records, r', k') == id;
      assert Sooner(r', k', r, k + 1);
    }
    assert Sooner(r, k, r, k + 1);
  }

  /** A row that is not taken leaves everything as it was. */
  lemma {:induction false} PassesRow(ns: seq<Node>, records: seq<Record>, r: nat, k: nat)
    requires RowAt(records, r, k) && Holds(ns, records, r, k) && !Takes(records, r, k)
    ensures Holds(ns, records, r, k + 1)
  {
    forall id
      ensures Has(ns, id) <==> RecordId(records, r + 1, id) || TookId(records, r, k + 1, id)
    {
      TookNext(records, r, k, id);
    }
    forall i | 0 <= i < |ns| && ns[i].parentId.Some?
      ensures Comes(ns[i], records, r, k + 1)
    {
      ComesNext(ns[i], records, r, k);
    }
  }

  lemma {:induction false} ComesNext(n: Node, records: seq<Record>, r: nat, k: nat)
    requires Comes(n, records, r, k)
    ensures Comes(n, records, r, k + 1)
  {
    var r': nat, k': nat :|
      && Sooner(r', k', r, k) && Takes(records, r', k')
      && n.id == RowId(records, r', k') && n.parentId == Some(RowParent(records, r', k'));
    assert Sooner(r', k', r, k + 1);
  }

  lemma {:induction false} StandsMore(ns: seq<Node>, n: Node, records: seq<Record>, r: nat, k: nat)
    requires RowAt(records, r, k)
    ensures Stands(ns, records, r, k) ==> Stands(ns + [n], records, r, k)
    ensures n.id == RowId(records, r, k) && n.parentId == Some(RowParent(records, r, k)) ==>
              Stands(ns + [n], records, r, k)
  {
    var more := ns + [n];
    assert more[|ns|] == n;
    if i :| 0 <= i < |ns| && ns[i].id == RowId(records, r, k) && ns[i].parentId == Some(RowParent(records, r, k)) {
      assert more[i] == ns[i];
    }
  }

  lemma {:induction false} TakesRow(ns: seq<Node>, records: seq<Record>, r: nat, k: nat, depth: nat)
    requires RowAt(records, r, k) && Holds(ns, records, r, k) && Takes(records, r, k)
    ensures Holds(ns + [Node(RowId(records, r, k), Some(RowParent(records, r, k)), depth)], records, r, k + 1)
  {
    var n := Node(RowId(records, r, k), Some(RowParent(records, r, k)), depth);
    var more := ns + [n];
    HasMore(ns, n);
    forall id
      ensures Has(more, id) <==> RecordId(records, r + 1, id) || TookId(records, r, k + 1, id)
    {
      TookNext(records, r, k, id);
    }
    forall r': nat, k': nat | Sooner(r', k', r, k + 1) && Takes(records, r', k')
      ensures Stands(more, records, r', k')
    {
      SoonerNext(r, k, r', k');
      StandsMore(ns, n, records, r', k');
    }
    forall i | 0 <= i < |more| && more[i].parentId.Some?
      ensures Comes(more[i], records, r, k + 1)
    {
      if i < |ns| {
        ComesNext(ns[i], records, r, k);
      } else {
        assert Sooner(r, k, r, k + 1);
      }
    }
  }

  lemma {:induction false} BranchNext(branch: set<Id>, records: seq<Record>, r: nat, k: nat)
    requires RowAt(records, r, k) && BranchHolds(branch, records, r, k)
    ensures BranchHolds(if Takes(records, r, k) then branch + {RowId(records, r, k)} else branch, records, r, k + 1)
  {
    forall id
      ensures InBranch(records, r, k + 1, id) <==>
              InBranch(records, r, k, id) || (Takes(records, r, k) && RowId(records, r, k) == id)
    {
    }
  }

  lemma {:induction false} AdoptIs(ns: seq<Node>, branch: set<Id>, records: seq<Record>, r: nat, k: nat)
    requires RowAt(records, r, k) && Holds(ns, records, r, k) && BranchHolds(branch, records, r, k)
    ensures var id, parentId := RowId(records, r, k), RowParent(records, r, k);
            Adopt(ns, branch, Ids(records), records[r].agentId, records[r].descendants[k]) ==
            if Takes(records, r, k) then (ns + [Node(id, Some(parentId), DepthOf(ns, parentId) + 1)], branch + {id})
            else (ns, branch)
  {
    AdoptTakes(ns, branch, records, r, k);
  }

  lemma {:induction false} AdoptHolds(ns: seq<Node>, branch: set<Id>, records: seq<Record>, r: nat, k: nat)
    requires RowAt(records, r, k) && Holds(ns, records, r, k) && BranchHolds(branch, records, r, k)
    ensures var (more, grown) := Adopt(ns, branch, Ids(records), records[r].agentId, records[r].descendants[k]);
            Holds(more, records, r, k + 1) && BranchHolds(grown, records, r, k + 1)
  {
    AdoptIs(ns, branch, records, r, k);
    BranchNext(branch, records, r, k);
    if Takes(records, r, k) {
      TakesRow(ns, records, r, k, DepthOf(ns, RowParent(records, r, k)) + 1);
    } else {
      PassesRow(ns, records, r, k);
    }
  }

  lemma {:induction false} AdoptAllHolds(ns: seq<Node>, records: seq<Record>, r: nat, k: nat)
    requires r < |records| && k <= |records[r].descendants| && Holds(ns, records, r, 0)
    ensures var (more, grown) :=
              AdoptAll(ns, {records[r].agentId}, Ids(records), records[r].agentId, records[r].descendants[..k]);
            Holds(more, records, r, k) && BranchHolds(grown, records, r, k)
  {
    if k > 0 {
      var rows := records[r].descendants;
      assert rows[..k][..k - 1] == rows[..k - 1];
      AdoptAllHolds(ns, records, r, k - 1);
      var (before, grown) := AdoptAll(ns, {records[r].agentId}, Ids(records), records[r].agentId, rows[..k - 1]);
      AdoptHolds(before, grown, records, r, k - 1);
    }
  }

  /** Past the last row of a record, and before the first row of the next, the same rows are sooner. */
  lemma {:induction false} SoonerRecord(records: seq<Record>, r: nat, r': nat, k': nat)
    requires r < |records| && RowAt(records, r', k')
    ensures Sooner(r', k', r + 1, 0) <==> Sooner(r', k', r, |records[r].descendants|)
  {
  }

  lemma {:induction false} TookRecord(records: seq<Record>, r: nat, id: Id)
    requires r < |records|
    ensures TookId(records, r + 1, 0, id) <==> TookId(records, r, |records[r].descendants|, id)
  {
    var last := |records[r].descendants|;
    if r': nat, k': nat :| Sooner(r', k', r + 1, 0) && Takes(records, r', k') && RowId(records, r', k') == id {
      SoonerRecord(records, r, r', k');
    }
    if r': nat, k': nat :| Sooner(r', k', r, last) && Takes(records, r', k') && RowId(records, r', k') == id {
      SoonerRecord(records, r, r', k');
    }
  }

  lemma {:induction false} ComesRecord(n: Node, records: seq<Record>, r: nat)
    requires r < |records| && Comes(n, records, r, |records[r].descendants|)
    ensures Comes(n, records, r + 1, 0)
  {
    var r': nat, k': nat :|
      && Sooner(r', k', r, |records[r].descendants|) && Takes(records, r', k')
      && n.id == RowId(records, r', k') && n.parentId == Some(RowParent(records, r', k'));
    SoonerRecord(records, r, r', k');
  }

  /** The next record's root, behind all rows of the records before it. */
  lemma {:induction false} NextRootHolds(ns: seq<Node>, records: seq<Record>, r: nat)
    requires r + 1 < |records| && Holds(ns, records, r, |records[r].descendants|)
    ensures Holds(ns + [Node(records[r + 1].agentId, None, 0)], records, r + 1, 0)
  {
    var n := Node(records[r + 1].agentId, None, 0);
    var more := ns + [n];
    HasMore(ns, n);
    forall id
      ensures Has(more, id) <==> RecordId(records, r + 2, id) || TookId(records, r + 1, 0, id)
    {
      TookRecord(records, r, id);
      assert RecordId(records, r + 2, id) <==> RecordId(records, r + 1, id) || records[r + 1].agentId == id;
    }
    forall r': nat, k': nat | Sooner(r', k', r + 1, 0) && Takes(records, r', k')
      ensures Stands(more, records, r', k')
    {
      SoonerRecord(records, r, r', k');
      StandsMore(ns, n, records, r', k');
    }
    forall i | 0 <= i < |more| && more[i].parentId.Some?
      ensures Comes(more[i], records, r + 1, 0)
    {
      ComesRecord(ns[i], records, r);
    }
  }

  lemma {:induction false} FirstRootHolds(records: seq<Record>)
    requires records != []
    ensures Holds([Node(records[0].agentId, None, 0)], records, 0, 0)
  {
    var ns := [Node(records[0].agentId, None, 0)];
    assert ns[0].id == records[0].agentId;
  }

  lemma {:induction false} AcceptedHolds(records: seq<Record>, r: nat)
    requires r < |records|
    ensures Holds(Accepted(records[..r + 1], Ids(records)), records, r, |records[r].descendants|)
  {
    var before := Accepted(records[..r], Ids(records));
    var root := Node(records[r].agentId, None, 0);
    assert records[..r + 1][..r] == records[..r];
    if r == 0 {
      FirstRootHolds(records);
      assert before + [root] == [root];
    } else {
      AcceptedHolds(records, r - 1);
      NextRootHolds(before, records, r - 1);
    }
    assert records[r].descendants[..|records[r].descendants|] == records[r].descendants;
    AdoptAllHolds(before + [root], records, r, |records[r].descendants|);
  }

  /** The nodes are the records' roots, and under the parents they name exactly the rows that are to be taken. */
  ghost predicate HoldsExactly(nodes: seq<Node>, records: seq<Record>) {
    && (forall i | 0 <= i < |records| :: Node(records[i].agentId, None, 0) in nodes)
    && (forall r: nat, k: nat | Takes(records, r, k) :: Stands(nodes, records, r, k))
    && (forall n | n in nodes && n.parentId.None? :: RecordId(records, |records|, n.id) && n.depth == 0)
    && (forall n | n in nodes && n.parentId.Some? :: Comes(n, records, |records|, 0))
  }

  lemma {:induction false} AcceptedExactly(records: seq<Record>)
    ensures HoldsExactly(Accepted(records, Ids(records)), records)
  {
    var ns := Accepted(records, Ids(records));
    RecordsAreTheRoots(records, Ids(records));
    if records != [] {
      var last := |records| - 1;
      assert records[..last + 1] == records;
      AcceptedHolds(records, last);
      forall r: nat, k: nat | Takes(records, r, k)
        ensures Stands(ns, records, r, k)
      {
        assert Sooner(r, k, last, |records[last].descendants|);
      }
      forall n | n in ns && n.parentId.Some?
        ensures Comes(n, records, |records|, 0)
      {
        ComesRecord(n, records, last);
      }
    }
    forall i | 0 <= i < |records|
      ensures Node(records[i].agentId, None, 0) in ns
    {
      assert RootNodes(records)[i] in KidNodes(ns, None);
      KidNodesAreNodes(ns, None, RootNodes(records)[i]);
    }
    forall n | n in ns && n.parentId.None?
      ensures RecordId(records, |records|, n.id) && n.depth == 0
    {
      KidNodesAreNodes(ns, None, n);
      var i :| 0 <= i < |records| && RootNodes(records)[i] == n;
    }
  }

  lemma {:induction false} KidNodesAreNodes(ns: seq<Node>, parentId: Option<Id>, n: Node)
    ensures n in KidNodes(ns, parentId) <==> n in ns && n.parentId == parentId
  {
    if ns != [] {
      var init := ns[..|ns| - 1];
      KidNodesAreNodes(init, parentId, n);
      assert ns == init + [ns[|ns| - 1]];
    }
  }

  lemma {:induction false} SameHoldsExactly(a: seq<Node>, b: seq<Node>, records: seq<Record>)
    requires HoldsExactly(a, records) && forall n :: n in a <==> n in b
    ensures HoldsExactly(b, records)
  {
    forall r: nat, k: nat | Takes(records, r, k)
      ensures Stands(b, records, r, k)
    {
      assert Stands(a, records, r, k);
      var i :| 0 <= i < |a| && a[i].id == RowId(records, r, k) && a[i].parentId == Some(RowParent(records, r, k));
      assert a[i] in b;
      var j :| 0 <= j < |b| && b[j] == a[i];
    }
  }

  /** A record's rows as its snapshot is built: new ids, each under the record or a row before it. */
  ghost predicate WellFormedRows(records: seq<Record>, r: nat) {
    && r < |records|
    && (forall k: nat | RowAt(records, r, k) :: !RecordId(records, |records|, RowId(records, r, k)))
    && (forall j: nat, k: nat | j < k && RowAt(records, r, k) :: RowId(records, r, j) != RowId(records, r, k))
    && (forall q: nat, j: nat, k: nat | q < r && RowAt(records, q, j) && RowAt(records, r, k) ::
          RowId(records, q, j) != RowId(records, r, k))
    && (forall k: nat | RowAt(records, r, k) ::
          RowParent(records, r, k) == records[r].agentId || ParentBefore(records, r, k))
  }

  predicate ParentBefore(records: seq<Record>, r: nat, k: nat)
    requires RowAt(records, r, k)
  {
    exists j | 0 <= j < k :: RowId(records, r, j) == RowParent(records, r, k)
  }

  /** Such a snapshot is taken whole. */
  lemma {:induction false} WholeSnapshot(records: seq<Record>, r: nat, k: nat)
    requires WellFormedRows(records, r) && RowAt(records, r, k)
    ensures Takes(records, r, k)
    decreases k
  {
    forall j: nat | j < k
      ensures Takes(records, r, j)
    {
      WholeSnapshot(records, r, j);
    }
    if RowParent(records, r, k) != records[r].agentId {
      assert ParentBefore(records, r, k);
      var j: nat :| j < k && RowId(records, r, j) == RowParent(records, r, k);
      assert Takes(records, r, j);
    }
    assert RecordId(records, |records|, RowId(records, r, k)) <==>
           exists i :: 0 <= i < |records| && records[i].agentId == RowId(records, r, k);
  }

  /** Every record with what it propagates, in registry order. */
  method FileRecords(records: seq<Record>) returns (b: Builder)
    requires OneRecordPerAgent(records)
    ensures fresh(b) && b.Valid() && b.ns == Accepted(records, Ids(records))
  {
    var locals := Ids(records);
    b := new Builder();
    var i := 0;
    while i < |records|
      invariant 0 <= i <= |records|
      invariant fresh(b) && b.Valid() && b.ns == Accepted(records[..i], locals)
      invariant LocalsAreRoots(b.ns, locals, Ids(records[..i]))
    {
      var r := records[i];
      assert records[..i + 1][..i] == records[..i] && r in records && r in records[..i + 1];
      assert Ids(records[..i]) <= Ids(records[..i + 1]);
      assert r.agentId !in Ids(records[..i]);
      var added := b.Add(Node(r.agentId, None, 0));
      assert added;
      AdoptedAreNotLocal(b.ns, {r.agentId}, locals, r.agentId, r.descendants, Ids(records[..i + 1]));
      b.AddDescendants(r.agentId, r.descendants, locals);
      i := i + 1;
    }
    assert records[..|records|] == records;
  }

  /** `buildAgentTree`: the accepted nodes, then each root's subtree in turn. */
  method BuildAgentTree(records: seq<Record>) returns (rows: seq<Node>, ghost ns: seq<Node>)
    requires OneRecordPerAgent(records)
    ensures ns == Accepted(records, Ids(records)) && Forest(ns)
    ensures rows == At(ns, Preorder(ns))
    ensures forall n :: n in rows <==> n in ns
    ensures HoldsExactly(rows, records)
  {
    var b := FileRecords(records);
    ns := b.ns;
    AcceptedExactly(records);
    KidsIndexedWalkable(ns, b.children, b.roots);
    rows := VisitedAll(b.roots, b.children, [], ns, 0, Kids(ns, None));
    SameNodes(ns);
    SameHoldsExactly(ns, rows, records);
  }
}
