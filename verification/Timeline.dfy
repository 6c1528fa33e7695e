/**
 * The timeline of one CFS run queue: a search tree of entities by virtual runtime, with its leftmost entity
 * cached, and the choice of the next entity to run.
 *
 * Virtual runtimes are 64-bit and wrap around; they are compared by the sign of their difference. Recolouring
 * after an insertion or a removal is any function of the tree that keeps its in-order traversal.
 */
module Timeline {
  import CalcDelta
  import opened Common

  const TWO63: nat := 0x8000_0000_0000_0000
  const TWO64: nat := 0x1_0000_0000_0000_0000

  type u64 = x: int | 0 <= x < 0x1_0000_0000_0000_0000

  // ----- The 64-bit circle -----

  function Sub(a: u64, b: u64): u64 { if a >= b then a - b else a - b + TWO64 }

  function Add(a: u64, b: u64): u64 { if a + b < TWO64 then a + b else a + b - TWO64 }

  function S64(x: u64): int { if x < TWO63 then x else x - TWO64 }

  predicate Before(a: u64, b: u64) { S64(Sub(a, b)) < 0 }

  /** The values less than half a circle ahead of a base. */
  predicate InWindow(base: u64, v: u64) { Sub(v, base) < TWO63 }

  /** Inside a window the signed difference is the difference of the distances from its base. */
  lemma {:induction false} WindowOrder(base: u64, a: u64, b: u64)
    requires InWindow(base, a) && InWindow(base, b)
    ensures S64(Sub(a, b)) == Sub(a, base) - Sub(b, base)
    ensures Before(a, b) <==> Sub(a, base) < Sub(b, base)
    ensures Before(a, b) || Before(b, a) || a == b
  {
  }

  /** Nothing is before itself or both before and after another, everything is comparable, and before is transitive. */
  ghost predicate IsOrderOn(s: set<u64>) {
    && (forall a, b :: a in s && b in s && Before(a, b) ==> !Before(b, a))
    && (forall a, b :: a in s && b in s && a != b ==> Before(a, b) || Before(b, a))
    && (forall a, b, c :: a in s && b in s && c in s && Before(a, b) && Before(b, c) ==> Before(a, c))
  }

  ghost predicate WithinWindowOf(s: set<u64>, m: u64) {
    forall x :: x in s ==> InWindow(m, x)
  }

  lemma {:induction false} NotBeforeIsAhead(x: u64, m: u64)
    ensures Before(x, m) <==> !InWindow(m, x)
  {
  }

  /** An order on a finite set has a first element. */
  lemma {:induction false} HasFirst(s: set<u64>) returns (m: u64)
    requires s != {} && IsOrderOn(s)
    ensures m in s && forall x :: x in s ==> !Before(x, m)
    decreases |s|
  {
    m :| m in s;
    if s != {m} {
      var rest := s - {m};
      var n := HasFirst(rest);
      if !Before(m, n) { m := n; }
    }
  }

  /**
   * The comparison orders a set of values exactly when they all lie within half the circle ahead of one of
   * them.
   */
  lemma {:induction false} OrderIffWindow(s: set<u64>)
    requires s != {}
    ensures IsOrderOn(s) <==> exists m :: m in s && WithinWindowOf(s, m)
  {
    if IsOrderOn(s) {
      var m := HasFirst(s);
      forall x | x in s ensures InWindow(m, x) { NotBeforeIsAhead(x, m); }
      assert WithinWindowOf(s, m);
    }
    if m :| m in s && WithinWindowOf(s, m) {
      forall a, b | a in s && b in s
        ensures Before(a, b) <==> Sub(a, m) < Sub(b, m)
        ensures a != b ==> Before(a, b) || Before(b, a)
      {
        WindowOrder(m, a, b);
      }
    }
  }

  /** Outside a window the comparison goes round in a circle. */
  lemma {:induction false} BeforeCanCycle()
    ensures exists a: u64, b: u64, c: u64 :: Before(a, b) && Before(b, c) && Before(c, a)
  {
    var a: u64, b: u64, c: u64 := 0, 0x6000_0000_0000_0000, 0xc000_0000_0000_0000;
    assert Before(a, b) && Before(b, c) && Before(c, a);
  }

  // ----- The tree -----

  datatype Tree = Leaf | Node(left: Tree, se: nat, right: Tree)

  function List(t: Tree): seq<nat> {
    match t
    case Leaf => []
    case Node(l, x, r) => List(l) + [x] + List(r)
  }

  /** What is left to the side while descending. */
  datatype Context = Top | WentLeft(up: Context, se: nat, right: Tree) | WentRight(left: Tree, se: nat, up: Context)

  function Plug(c: Context, t: Tree): Tree
    decreases c
  {
    match c
    case Top => t
    case WentLeft(up, x, r) => Plug(up, Node(t, x, r))
    case WentRight(l, x, up) => Plug(up, Node(l, x, t))
  }

  function Ahead(c: Context): seq<nat> {
    match c
    case Top => []
    case WentLeft(up, x, r) => Ahead(up)
    case WentRight(l, x, up) => Ahead(up) + List(l) + [x]
  }

  function Behind(c: Context): seq<nat> {
    match c
    case Top => []
    case WentLeft(up, x, r) => [x] + List(r) + Behind(up)
    case WentRight(l, x, up) => Behind(up)
  }

  lemma {:induction false} Regroup(a: seq<nat>, b: seq<nat>, x: nat, c: seq<nat>, d: seq<nat>)
    ensures a + (b + [x] + c) + d == a + b + ([x] + c + d) == a + b + [x] + c + d
  {
  }

  lemma {:induction false} PlugList(c: Context, t: Tree)
    ensures List(Plug(c, t)) == Ahead(c) + List(t) + Behind(c)
    decreases c
  {
    match c
    case Top =>
    case WentLeft(up, x, r) =>
      PlugList(up, Node(t, x, r));
      Regroup(Ahead(up), List(t), x, List(r), Behind(up));
    case WentRight(l, x, up) =>
      PlugList(up, Node(l, x, t));
      Regroup(Ahead(up), List(l), x, List(t), Behind(up));
  }

  // ----- The order -----

  /** Virtual runtimes, and when each entity was last put into the tree. */
  datatype Keys = Keys(vr: map<nat, u64>, at: map<nat, nat>)

  /** x goes ahead of y: by virtual runtime, or if these are equal by arrival. */
  ghost predicate Precedes(k: Keys, x: nat, y: nat)
    requires x in k.vr && y in k.vr && x in k.at && y in k.at
  {
    Before(k.vr[x], k.vr[y]) || (k.vr[x] == k.vr[y] && k.at[x] < k.at[y])
  }

  ghost predicate Known(k: Keys, list: seq<nat>) {
    forall i :: 0 <= i < |list| ==> list[i] in k.vr && list[i] in k.at
  }

  ghost predicate Sorted(k: Keys, list: seq<nat>)
    requires Known(k, list)
  {
    forall i, j :: 0 <= i < j < |list| ==> Precedes(k, list[i], list[j])
  }

  ghost predicate Within(k: Keys, base: u64, list: seq<nat>)
    requires Known(k, list)
  {
    forall i :: 0 <= i < |list| ==> InWindow(base, k.vr[list[i]])
  }

  /** Within a window, everything up to an entity the new one does not precede goes ahead of the new one. */
  lemma {:induction false} NotBeforeOne(k: Keys, base: u64, list: seq<nat>, i: nat, se: nat)
    requires Known(k, list) && Sorted(k, list) && Within(k, base, list) && i < |list|
    requires se in k.vr && InWindow(base, k.vr[se]) && !Before(k.vr[se], k.vr[list[i]])
    ensures forall j :: 0 <= j <= i ==> !Before(k.vr[se], k.vr[list[j]])
  {
    forall j | 0 <= j <= i ensures !Before(k.vr[se], k.vr[list[j]]) {
      WindowOrder(base, k.vr[se], k.vr[list[i]]);
      WindowOrder(base, k.vr[se], k.vr[list[j]]);
      if j < i {
        assert Precedes(k, list[j], list[i]);
        WindowOrder(base, k.vr[list[j]], k.vr[list[i]]);
      }
    }
  }

  lemma {:induction false} BeforeOne(k: Keys, base: u64, list: seq<nat>, i: nat, se: nat)
    requires Known(k, list) && Sorted(k, list) && Within(k, base, list) && i < |list|
    requires se in k.vr && InWindow(base, k.vr[se]) && Before(k.vr[se], k.vr[list[i]])
    ensures forall j :: i <= j < |list| ==> Before(k.vr[se], k.vr[list[j]])
  {
    forall j | i <= j < |list| ensures Before(k.vr[se], k.vr[list[j]]) {
      WindowOrder(base, k.vr[se], k.vr[list[i]]);
      WindowOrder(base, k.vr[se], k.vr[list[j]]);
      if i < j {
        assert Precedes(k, list[i], list[j]);
        WindowOrder(base, k.vr[list[i]], k.vr[list[j]]);
      }
    }
  }

  /** The place for se: behind everything it is not before, ahead of everything it is before. */
  ghost predicate PlaceFor(k: Keys, ahead: seq<nat>, behind: seq<nat>, se: nat)
    requires Known(k, ahead) && Known(k, behind) && se in k.vr
  {
    && (forall i :: 0 <= i < |ahead| ==> !Before(k.vr[se], k.vr[ahead[i]]))
    && (forall i :: 0 <= i < |behind| ==> Before(k.vr[se], k.vr[behind[i]]))
  }

  /** The latest arrival, put in its place, keeps the order: equal keys stay in order of arrival. */
  lemma {:induction false} InsertedSorted(k: Keys, base: u64, ahead: seq<nat>, behind: seq<nat>, se: nat)
    requires Known(k, ahead + behind) && Known(k, ahead) && Known(k, behind) && Sorted(k, ahead + behind)
    requires Within(k, base, ahead + behind) && se in k.vr && se in k.at && InWindow(base, k.vr[se])
    requires PlaceFor(k, ahead, behind, se) && forall i :: 0 <= i < |ahead| ==> k.at[ahead[i]] < k.at[se]
    ensures Known(k, ahead + [se] + behind) && Sorted(k, ahead + [se] + behind)
  {
    var old_, list := ahead + behind, ahead + [se] + behind;
    assert forall i :: 0 <= i < |ahead| ==> list[i] == old_[i];
    assert forall i :: |ahead| < i < |list| ==> list[i] == old_[i - 1];
    forall i, j | 0 <= i < j < |list| ensures Precedes(k, list[i], list[j]) {
      if j == |ahead| {
        assert list[i] == ahead[i] == old_[i];
        WindowOrder(base, k.vr[se], k.vr[list[i]]);
      } else if i == |ahead| {
        assert list[j] == behind[j - |ahead| - 1];
      } else {
        assert Precedes(k, old_[if i < |ahead| then i else i - 1], old_[if j < |ahead| then j else j - 1]);
      }
    }
  }

  // ----- Removal -----

  function Without(list: seq<nat>, x: nat): seq<nat>
    requires x in list
  {
    list[..IndexOf(list, x)] + list[IndexOf(list, x) + 1..]
  }

  function Next(list: seq<nat>, x: nat): Option<nat>
    requires x in list
  {
    if IndexOf(list, x) + 1 < |list| then Some(list[IndexOf(list, x) + 1]) else None
  }

  function Join(l: Tree, r: Tree): Tree {
    if l == Leaf then r else Node(l.left, l.se, Join(l.right, r))
  }

  lemma {:induction false} JoinList(l: Tree, r: Tree)
    ensures List(Join(l, r)) == List(l) + List(r)
    decreases l
  {
    if l != Leaf {
      JoinList(l.right, r);
      assert List(l.left) + [l.se] + (List(l.right) + List(r)) == List(l) + List(r);
    }
  }

  function Erase(t: Tree, x: nat): Tree {
    match t
    case Leaf => Leaf
    case Node(l, y, r) =>
      if x in List(l) then Node(Erase(l, x), y, r) else if x == y then Join(l, r) else Node(l, y, Erase(r, x))
  }

  lemma {:induction false} WithoutLeft(a: seq<nat>, x: nat, b: seq<nat>)
    requires x in a
    ensures Without(a + b, x) == Without(a, x) + b
  {
    IndexLeft(a, x, b);
  }

  lemma {:induction false} IndexLeft(a: seq<nat>, x: nat, b: seq<nat>)
    requires x in a
    ensures IndexOf(a + b, x) == IndexOf(a, x)
    decreases |a|
  {
    if a[0] != x {
      assert (a + b)[1..] == a[1..] + b;
      IndexLeft(a[1..], x, b);
    }
  }

  lemma {:induction false} WithoutRight(a: seq<nat>, x: nat, b: seq<nat>)
    requires x !in a && x in b
    ensures Without(a + b, x) == a + Without(b, x)
  {
    IndexRight(a, x, b);
  }

  lemma {:induction false} IndexRight(a: seq<nat>, x: nat, b: seq<nat>)
    requires x !in a && x in b
    ensures IndexOf(a + b, x) == |a| + IndexOf(b, x)
    decreases |a|
  {
    if a == [] {
      assert a + b == b;
    } else {
      assert (a + b)[1..] == a[1..] + b;
      IndexRight(a[1..], x, b);
    }
  }

  lemma {:induction false} WithoutMiddle(a: seq<nat>, y: nat, b: seq<nat>, x: nat)
    requires x in a + [y] + b
    ensures Without(a + [y] + b, x) ==
            if x in a then Without(a, x) + [y] + b else if x == y then a + b else a + [y] + Without(b, x)
  {
    assert a + [y] + b == a + ([y] + b);
    if x in a {
      WithoutLeft(a, x, [y] + b);
      assert Without(a, x) + ([y] + b) == Without(a, x) + [y] + b;
    } else if x == y {
      WithoutRight(a, x, [y] + b);
      assert Without([y] + b, x) == b;
    } else {
      WithoutRight(a + [y], x, b);
    }
  }

  /** Removing an entity from the tree removes it from the traversal and nothing else. */
  lemma {:induction false} EraseList(t: Tree, x: nat)
    requires x in List(t)
    ensures List(Erase(t, x)) == Without(List(t), x)
    decreases t
  {
    WithoutMiddle(List(t.left), t.se, List(t.right), x);
    if x in List(t.left) {
      EraseList(t.left, x);
    } else if x == t.se {
      JoinList(t.left, t.right);
    } else {
      EraseList(t.right, x);
    }
  }

  // ----- Insertion -----

  /** Where a scan from the left would put se: ahead of the first entity it is before. */
  function Position(k: Keys, list: seq<nat>, se: nat): (i: nat)
    requires se in k.vr && forall i :: 0 <= i < |list| ==> list[i] in k.vr
    ensures i <= |list|
    decreases |list|
  {
    if list == [] || Before(k.vr[se], k.vr[list[0]]) then 0 else 1 + Position(k, list[1..], se)
  }

  function Inserted(k: Keys, list: seq<nat>, se: nat): seq<nat>
    requires se in k.vr && forall i :: 0 <= i < |list| ==> list[i] in k.vr
  {
    var i := Position(k, list, se);
    list[..i] + [se] + list[i..]
  }

  lemma {:induction false} PlaceIsPosition(k: Keys, ahead: seq<nat>, behind: seq<nat>, se: nat)
    requires Known(k, ahead) && Known(k, behind) && Known(k, ahead + behind) && se in k.vr
             && PlaceFor(k, ahead, behind, se)
    ensures Position(k, ahead + behind, se) == |ahead|
    ensures Inserted(k, ahead + behind, se) == ahead + [se] + behind
    decreases |ahead|
  {
    if ahead == [] {
      assert ahead + behind == behind;
    } else {
      assert (ahead + behind)[1..] == ahead[1..] + behind;
      assert (ahead + behind)[0] == ahead[0];
      PlaceIsPosition(k, ahead[1..], behind, se);
    }
  }

  lemma {:induction false} GoLeft(k: Keys, base: u64, ahead: seq<nat>, a: seq<nat>, x: nat, b: seq<nat>,
                                  behind: seq<nat>, se: nat)
    requires var list := ahead + (a + [x] + b) + behind;
             Known(k, list) && Sorted(k, list) && Within(k, base, list)
    requires Known(k, ahead) && Known(k, behind) && se in k.vr && InWindow(base, k.vr[se])
             && PlaceFor(k, ahead, behind, se)
    requires x in k.vr && Before(k.vr[se], k.vr[x])
    ensures Known(k, [x] + b + behind) && PlaceFor(k, ahead, [x] + b + behind, se)
  {
    var list := ahead + (a + [x] + b) + behind;
    var n := |ahead| + |a|;
    assert list[n] == x;
    assert list[n..] == [x] + b + behind;
    BeforeOne(k, base, list, n, se);
    forall i | 0 <= i < |[x] + b + behind|
      ensures ([x] + b + behind)[i] == list[n + i]
    {
      assert list[n..][i] == list[n + i];
    }
  }

  lemma {:induction false} GoRight(k: Keys, base: u64, ahead: seq<nat>, a: seq<nat>, x: nat, b: seq<nat>,
                                   behind: seq<nat>, se: nat)
    requires var list := ahead + (a + [x] + b) + behind;
             Known(k, list) && Sorted(k, list) && Within(k, base, list)
    requires Known(k, ahead) && Known(k, behind) && se in k.vr && InWindow(base, k.vr[se])
             && PlaceFor(k, ahead, behind, se)
    requires x in k.vr && !Before(k.vr[se], k.vr[x])
    ensures Known(k, ahead + a + [x]) && PlaceFor(k, ahead + a + [x], behind, se)
  {
    var list := ahead + (a + [x] + b) + behind;
    var n := |ahead| + |a|;
    assert list[n] == x;
    assert list[..n + 1] == ahead + a + [x];
    NotBeforeOne(k, base, list, n, se);
    forall i | 0 <= i < |ahead + a + [x]|
      ensures (ahead + a + [x])[i] == list[i]
    {
      assert list[..n + 1][i] == list[i];
    }
  }

  /** Halfway down: what was passed is on the right side of se, and nothing is ahead of it if always gone left. */
  ghost predicate Descending(k: Keys, t: Tree, c: Context, link: Tree, se: nat, leftmost: bool) {
    && List(t) == Ahead(c) + List(link) + Behind(c) && Known(k, Ahead(c)) && Known(k, Behind(c)) && se in k.vr
    && PlaceFor(k, Ahead(c), Behind(c), se) && (leftmost <==> Ahead(c) == [])
  }

  ghost predicate Insertable(k: Keys, base: u64, list: seq<nat>, se: nat) {
    && Known(k, list) && Sorted(k, list) && Within(k, base, list)
    && se in k.vr && InWindow(base, k.vr[se])
  }

  lemma {:induction false} DescendLeft(k: Keys, base: u64, t: Tree, c: Context, link: Tree, se: nat, leftmost: bool)
    requires Insertable(k, base, List(t), se) && Descending(k, t, c, link, se, leftmost)
    requires link.Node? && link.se in k.vr && Before(k.vr[se], k.vr[link.se])
    ensures Descending(k, t, WentLeft(c, link.se, link.right), link.left, se, leftmost)
  {
    GoLeft(k, base, Ahead(c), List(link.left), link.se, List(link.right), Behind(c), se);
    Regroup(Ahead(c), List(link.left), link.se, List(link.right), Behind(c));
  }

  lemma {:induction false} DescendRight(k: Keys, base: u64, t: Tree, c: Context, link: Tree, se: nat, leftmost: bool)
    requires Insertable(k, base, List(t), se) && Descending(k, t, c, link, se, leftmost)
    requires link.Node? && link.se in k.vr && !Before(k.vr[se], k.vr[link.se])
    ensures Descending(k, t, WentRight(link.left, link.se, c), link.right, se, false)
  {
    GoRight(k, base, Ahead(c), List(link.left), link.se, List(link.right), Behind(c), se);
    Regroup(Ahead(c), List(link.left), link.se, List(link.right), Behind(c));
  }

  lemma {:induction false} LinkKnown(k: Keys, t: Tree, c: Context, link: Tree, se: nat, leftmost: bool)
    requires Known(k, List(t)) && Descending(k, t, c, link, se, leftmost) && link.Node?
    ensures link.se in k.vr
  {
    var n := |Ahead(c)| + |List(link.left)|;
    assert List(link)[|List(link.left)|] == link.se;
    assert List(t)[n] == link.se;
  }

  lemma {:induction false} Landed(k: Keys, t: Tree, c: Context, se: nat, leftmost: bool)
    requires Known(k, List(t)) && Descending(k, t, c, Leaf, se, leftmost)
    ensures List(Plug(c, Node(Leaf, se, Leaf))) == Inserted(k, List(t), se)
    ensures leftmost <==> forall i :: 0 <= i < |List(t)| ==> Before(k.vr[se], k.vr[List(t)[i]])
  {
    PlugList(c, Node(Leaf, se, Leaf));
    assert List(Node(Leaf, se, Leaf)) == [se];
    assert List(t) == Ahead(c) + Behind(c);
    PlaceIsPosition(k, Ahead(c), Behind(c), se);
    if Ahead(c) != [] { assert List(t)[0] == Ahead(c)[0]; }
  }

  /**
   * The descent of __enqueue_entity: the new entity comes after everything it is not before, also after its
   * equals, and it is flagged leftmost exactly when it is before everything.
   */
  method Link(t: Tree, k: Keys, ghost base: u64, se: nat) returns (r: Tree, leftmost: bool)
    requires Insertable(k, base, List(t), se)
    ensures List(r) == Inserted(k, List(t), se)
    ensures leftmost <==> forall i :: 0 <= i < |List(t)| ==> Before(k.vr[se], k.vr[List(t)[i]])
  {
    var link, parent := t, Top;
    leftmost := true;
    while link.Node?
      invariant Descending(k, t, parent, link, se, leftmost)
      decreases link
    {
      var x := link.se;
      LinkKnown(k, t, parent, link, se, leftmost);
      if Before(k.vr[se], k.vr[x]) {
        DescendLeft(k, base, t, parent, link, se, leftmost);
        parent, link := WentLeft(parent, x, link.right), link.left;
      } else {
        DescendRight(k, base, t, parent, link, se, leftmost);
        parent, link, leftmost := WentRight(link.left, x, parent), link.right, false;
      }
    }
    Landed(k, t, parent, se, leftmost);
    r := Plug(parent, Node(Leaf, se, Leaf));
  }

  lemma {:induction false} PositionEdges(k: Keys, list: seq<nat>, se: nat)
    requires Known(k, list) && se in k.vr
    ensures var i := Position(k, list, se);
            && (i < |list| ==> Before(k.vr[se], k.vr[list[i]]))
            && (i > 0 ==> !Before(k.vr[se], k.vr[list[i - 1]]))
    decreases |list|
  {
    if list != [] && !Before(k.vr[se], k.vr[list[0]]) { PositionEdges(k, list[1..], se); }
  }

  lemma {:induction false} PositionIsPlace(k: Keys, base: u64, list: seq<nat>, se: nat)
    requires Insertable(k, base, list, se)
    ensures var i := Position(k, list, se);
            && Known(k, list[..i]) && Known(k, list[i..]) && PlaceFor(k, list[..i], list[i..], se)
  {
    var i := Position(k, list, se);
    PositionEdges(k, list, se);
    if i < |list| { BeforeOne(k, base, list, i, se); }
    if i > 0 { NotBeforeOne(k, base, list, i - 1, se); }
  }

  /** Inserting the latest arrival keeps the timeline sorted by virtual runtime and, among equals, by arrival. */
  lemma {:induction false} InsertKeepsOrder(k: Keys, base: u64, list: seq<nat>, se: nat)
    requires Insertable(k, base, list, se) && se in k.at && forall i :: 0 <= i < |list| ==> k.at[list[i]] < k.at[se]
    ensures Known(k, Inserted(k, list, se)) && Sorted(k, Inserted(k, list, se))
  {
    var i := Position(k, list, se);
    PositionIsPlace(k, base, list, se);
    assert list[..i] + list[i..] == list;
    InsertedSorted(k, base, list[..i], list[i..], se);
  }

  lemma {:induction false} WithoutKeepsOrder(k: Keys, list: seq<nat>, x: nat)
    requires Known(k, list) && Sorted(k, list) && x in list
    ensures Known(k, Without(list, x)) && Sorted(k, Without(list, x)) && x !in Without(list, x)
    ensures forall y :: y in Without(list, x) <==> y in list && y != x
  {
    var n, r := IndexOf(list, x), Without(list, x);
    assert forall i :: 0 <= i < |r| ==> r[i] == list[if i < n then i else i + 1];
    forall i, j | 0 <= i < j < |r| ensures Precedes(k, r[i], r[j]) {
      assert Precedes(k, list[if i < n then i else i + 1], list[if j < n then j else j + 1]);
    }
    forall i | 0 <= i < |list| && i != n ensures list[i] != x && list[i] in r {
      assert if i < n then Precedes(k, list[i], list[n]) else Precedes(k, list[n], list[i]);
      assert list[i] == r[if i < n then i else i - 1];
    }
  }

  // ----- The run queue -----

  datatype Line = Line(tree: Tree, leftmost: Option<nat>, keys: Keys, now: nat, curr: Option<nat>,
                       skip: Option<nat>, last: Option<nat>, next: Option<nat>, minVruntime: u64)
  {
    function Entities(): seq<nat> { List(tree) }

    predicate Queued(x: nat) { x in Entities() || curr == Some(x) }

    ghost predicate BuddyQueued(b: Option<nat>) { b.Some? ==> Queued(b.value) }

    /** The tree is in order, its first entity is cached, and the running entity is outside it. */
    ghost predicate InOrder() {
      && Known(keys, Entities()) && Sorted(keys, Entities())
      && leftmost == (if Entities() == [] then None else Some(Entities()[0]))
      && (forall i :: 0 <= i < |Entities()| ==> keys.at[Entities()[i]] < now)
      && (curr.Some? ==> curr.value !in Entities() && curr.value in keys.vr)
    }

    ghost predicate Valid() {
      InOrder() && BuddyQueued(skip) && BuddyQueued(last) && BuddyQueued(next)
    }

    ghost predicate Windowed(base: u64) {
      forall x :: Queued(x) ==> x in keys.vr && InWindow(base, keys.vr[x])
    }
  }

  /** The entity the fair order would run: the leftmost of the tree and the running one. */
  function LeftOf(q: Line): nat
    requires q.leftmost.Some? || q.curr.Some?
    requires (q.leftmost.Some? ==> q.leftmost.value in q.keys.vr) && (q.curr.Some? ==> q.curr.value in q.keys.vr)
  {
    if q.leftmost.None? || (q.curr.Some? && Before(q.keys.vr[q.curr.value], q.keys.vr[q.leftmost.value]))
    then q.curr.value else q.leftmost.value
  }

  /** wakeup_preempt_entity(x, left) < 1. */
  predicate Near(q: Line, gran: nat -> u64, x: nat, left: nat)
    requires x in q.keys.vr && left in q.keys.vr
  {
    var vdiff := S64(Sub(q.keys.vr[x], q.keys.vr[left]));
    vdiff <= 0 || vdiff <= S64(gran(left))
  }

  /** Near is to be at most the granularity behind, counted from the base of a window. */
  lemma {:induction false} NearIff(q: Line, gran: nat -> u64, base: u64, x: nat, left: nat)
    requires x in q.keys.vr && left in q.keys.vr && InWindow(base, q.keys.vr[x]) && InWindow(base, q.keys.vr[left])
    ensures Near(q, gran, x, left) <==>
              Sub(q.keys.vr[x], base) <= Sub(q.keys.vr[left], base) + Max(0, S64(gran(left)))
  {
    WindowOrder(base, q.keys.vr[x], q.keys.vr[left]);
  }

  lemma {:induction false} LeftIsFirst(q: Line, base: u64, x: nat)
    requires q.Valid() && q.Windowed(base) && (q.Entities() != [] || q.curr.Some?) && q.Queued(x)
    ensures q.Queued(LeftOf(q)) && x in q.keys.vr && LeftOf(q) in q.keys.vr
    ensures Sub(q.keys.vr[LeftOf(q)], base) <= Sub(q.keys.vr[x], base)
  {
    var left := LeftOf(q);
    if q.Entities() != [] {
      FirstIsLeast(q, base, 0, x);
      if q.curr.Some? { WindowOrder(base, q.keys.vr[q.curr.value], q.keys.vr[q.Entities()[0]]); }
    }
  }

  /** From any place in the traversal on, nothing is before the entity at that place. */
  lemma {:induction false} FirstIsLeast(q: Line, base: u64, i: nat, x: nat)
    requires q.Valid() && q.Windowed(base) && i < |q.Entities()|
    ensures q.Queued(q.Entities()[i])
    ensures x in q.Entities()[i..] ==> Sub(q.keys.vr[q.Entities()[i]], base) <= Sub(q.keys.vr[x], base)
  {
    var list := q.Entities();
    if x in list[i..] {
      var j :| i <= j < |list| && list[j] == x;
      assert q.Queued(list[i]) && q.Queued(x);
      WindowOrder(base, q.keys.vr[list[i]], q.keys.vr[x]);
      if i < j { assert Precedes(q.keys, list[i], list[j]); }
    }
  }

  ghost predicate KeepsTraversal(rb: Tree -> Tree) {
    forall t :: List(rb(t)) == List(t)
  }

  lemma {:induction false} InsertedElements(k: Keys, list: seq<nat>, se: nat, x: nat)
    requires se in k.vr && forall i :: 0 <= i < |list| ==> list[i] in k.vr
    ensures x in Inserted(k, list, se) <==> x in list || x == se
  {
    var i := Position(k, list, se);
    assert list == list[..i] + list[i..];
  }

  function Stamped(q: Line, se: nat): Line {
    q.(keys := q.keys.(at := q.keys.at[se := q.now]), now := q.now + 1)
  }

  /** The next entity of the fair order after the leftmost. */
  function SecondOf(q: Line): Option<nat>
    requires q.leftmost.Some? || q.curr.Some?
    requires (q.leftmost.Some? ==> q.leftmost.value in q.Entities() && q.leftmost.value in q.keys.vr)
    requires (q.curr.Some? ==> q.curr.value in q.keys.vr)
             && forall i :: 0 <= i < |q.Entities()| ==> q.Entities()[i] in q.keys.vr
  {
    var left := LeftOf(q);
    if q.curr == Some(left) then q.leftmost
    else
      var second := Next(q.Entities(), left);
      if second.None? || (q.curr.Some? && Before(q.keys.vr[q.curr.value], q.keys.vr[second.value]))
      then q.curr else second
  }

  lemma {:induction false} FirstIndex(list: seq<nat>)
    requires list != []
    ensures IndexOf(list, list[0]) == 0
  {
  }

  /** The second is queued, is not the first, and nothing but the first is before it. */
  lemma {:induction false} SecondIsNext(q: Line, base: u64, x: nat)
    requires q.Valid() && q.Windowed(base) && (q.Entities() != [] || q.curr.Some?)
    requires q.Queued(x) && x != LeftOf(q)
    ensures var s := SecondOf(q);
            && s.Some? && q.Queued(s.value) && s.value != LeftOf(q)
            && Sub(q.keys.vr[s.value], base) <= Sub(q.keys.vr[x], base)
  {
    var list, left, s := q.Entities(), LeftOf(q), SecondOf(q);
    if q.curr == Some(left) {
      FirstIsLeast(q, base, 0, x);
    } else {
      FirstIndex(list);
      assert list == [left] + list[1..];
      if |list| > 1 {
        FirstIsLeast(q, base, 1, x);
        assert Precedes(q.keys, list[0], list[1]);
        if q.curr.Some? { WindowOrder(base, q.keys.vr[q.curr.value], q.keys.vr[list[1]]); }
      }
    }
  }

  /** Which entity is picked. */
  ghost predicate FairPick(q: Line, gran: nat -> u64, se: nat)
    requires q.Valid() && (q.Entities() != [] || q.curr.Some?)
  {
    && q.Queued(se) && (se == LeftOf(q) || (se in q.keys.vr && Near(q, gran, se, LeftOf(q))))
    && (q.skip == Some(se) ==>
          || (se in q.keys.vr && (q.last == Some(se) || q.next == Some(se)) && Near(q, gran, se, LeftOf(q)))
          || NoOtherNear(q, gran))
  }

  ghost predicate NearBuddy(q: Line, gran: nat -> u64, b: Option<nat>)
    requires q.Valid() && (q.Entities() != [] || q.curr.Some?)
  {
    b.Some? && b.value in q.keys.vr && Near(q, gran, b.value, LeftOf(q))
  }

  /** The next buddy comes first, then the last one, and without either only a skipped leftmost gives way. */
  ghost predicate Preferred(q: Line, gran: nat -> u64, se: nat)
    requires q.Valid() && (q.Entities() != [] || q.curr.Some?)
  {
    if NearBuddy(q, gran, q.next) then q.next == Some(se)
    else if NearBuddy(q, gran, q.last) then q.last == Some(se)
    else se == LeftOf(q) || (q.skip == Some(LeftOf(q)) && SecondOf(q) == Some(se))
  }

  /** No other queued entity could run without being unfair to the leftmost. */
  ghost predicate NoOtherNear(q: Line, gran: nat -> u64)
    requires q.Valid() && (q.Entities() != [] || q.curr.Some?)
  {
    forall x :: q.Queued(x) && x in q.keys.vr && x != LeftOf(q) ==> !Near(q, gran, x, LeftOf(q))
  }

  lemma {:induction false} NearerIsNear(q: Line, gran: nat -> u64, base: u64, x: nat, y: nat, left: nat)
    requires q.Windowed(base) && q.Queued(x) && q.Queued(y) && q.Queued(left)
    requires Sub(q.keys.vr[x], base) <= Sub(q.keys.vr[y], base) && Near(q, gran, y, left)
    ensures Near(q, gran, x, left)
  {
    WindowOrder(base, q.keys.vr[x], q.keys.vr[left]);
    WindowOrder(base, q.keys.vr[y], q.keys.vr[left]);
  }

  /** If the second entity is too far behind the first, or there is none, then so is every other. */
  lemma {:induction false} SecondDecides(q: Line, gran: nat -> u64, base: u64)
    requires q.Valid() && q.Windowed(base) && (q.Entities() != [] || q.curr.Some?)
    requires SecondOf(q).Some? && q.Queued(SecondOf(q).value) ==> !Near(q, gran, SecondOf(q).value, LeftOf(q))
    ensures NoOtherNear(q, gran)
  {
    var left := LeftOf(q);
    forall x | q.Queued(x) && x in q.keys.vr && x != left ensures !Near(q, gran, x, left) {
      SecondIsNext(q, base, x);
      LeftIsFirst(q, base, x);
      if Near(q, gran, x, left) { NearerIsNear(q, gran, base, SecondOf(q).value, x, left); }
    }
  }

  /**
   * What is picked is at most the leftmost's wakeup granularity behind every queued entity, whatever the
   * buddies say.
   */
  lemma {:induction false} PickedWithinGranularity(q: Line, gran: nat -> u64, base: u64, se: nat, x: nat)
    requires q.Valid() && q.Windowed(base) && (q.Entities() != [] || q.curr.Some?)
    requires FairPick(q, gran, se) && q.Queued(x)
    ensures var g := S64(gran(LeftOf(q)));
            Sub(q.keys.vr[se], base) <= Sub(q.keys.vr[x], base) + if g > 0 then g else 0
  {
    LeftIsFirst(q, base, x);
    WindowOrder(base, q.keys.vr[se], q.keys.vr[LeftOf(q)]);
  }

  function Forget(b: Option<nat>, se: nat): Option<nat> { if b == Some(se) then None else b }

  function ClearBuddies(q: Line, se: nat): Line {
    q.(skip := Forget(q.skip, se), last := Forget(q.last, se), next := Forget(q.next, se))
  }

  /** The entity picked is no buddy any more; the others stay what they were. */
  lemma {:induction false} OnlyItsOwn(q: Line, se: nat)
    ensures var q' := ClearBuddies(q, se); q'.curr == q.curr && KeptUnless(q, q'.(curr := Forget(q.curr, se)), se)
  {
  }

  /** Everyone but se keeps the role it had. */
  ghost predicate KeptUnless(q: Line, q': Line, se: nat) {
    && q'.curr == (if q.curr == Some(se) then None else q.curr)
    && q'.skip == (if q.skip == Some(se) then None else q.skip)
    && q'.last == (if q.last == Some(se) then None else q.last)
    && q'.next == (if q.next == Some(se) then None else q.next)
  }

  lemma {:induction false} BuddyKnown(q: Line, b: Option<nat>)
    requires q.Valid() && q.BuddyQueued(b) && b.Some?
    ensures b.value in q.keys.vr
  {
  }

  lemma {:induction false} SecondKnown(q: Line)
    requires q.Valid() && (q.Entities() != [] || q.curr.Some?) && SecondOf(q).Some?
    ensures q.Queued(SecondOf(q).value) && SecondOf(q).value in q.keys.vr
    ensures SecondOf(q).value != LeftOf(q)
  {
    if q.curr != Some(LeftOf(q)) {
      FirstIndex(q.Entities());
      if |q.Entities()| > 1 { assert Precedes(q.keys, q.Entities()[0], q.Entities()[1]); }
    }
  }

  class CfsTimeline {
    var q: Line

    constructor ()
      ensures q.Valid() && q.Entities() == [] && q.curr == None
    {
      q := Line(Leaf, None, Keys(map[], map[]), 0, None, None, None, None, 0);
    }

    /** __enqueue_entity. */
    method LinkEntity(se: nat, rb: Tree -> Tree, ghost base: u64)
      requires q.InOrder() && !q.Queued(se) && KeepsTraversal(rb) && Insertable(q.keys, base, q.Entities(), se)
      modifies this
      ensures q == Stamped(old(q), se).(tree := q.tree, leftmost := q.leftmost) && q.InOrder()
      ensures q.Entities() == Inserted(q.keys, old(q).Entities(), se)
    {
      var tree, leftmost := Link(q.tree, q.keys, base, se);
      q := Stamped(q, se).(tree := rb(tree), leftmost := if leftmost then Some(se) else q.leftmost);
      LinkedInOrder(old(q), q, se, base, leftmost);
      SamePosition(old(q).keys, q.keys, old(q).Entities(), se);
    }

    /** __dequeue_entity, which moves the cached leftmost on when it is removed. */
    method EraseEntity(se: nat, rb: Tree -> Tree)
      requires q.InOrder() && se in q.Entities() && KeepsTraversal(rb)
      modifies this
      ensures q == old(q).(tree := q.tree, leftmost := q.leftmost) && q.InOrder()
      ensures q.Entities() == Without(old(q).Entities(), se)
    {
      EraseList(q.tree, se);
      q := q.(tree := rb(Erase(q.tree, se)),
              leftmost := if q.leftmost == Some(se) then Next(q.Entities(), se) else q.leftmost);
      ErasedInOrder(old(q), q, se);
    }

    /**
     * An entity joins the queue, after update_curr: it was normalised unless it slept here, and a wakeup is
     * placed no further back than a threshold behind min_vruntime.
     */
    method EnqueueEntity(se: nat, wakeup: bool, migrated: bool, thresh: u64, rb: Tree -> Tree, ghost base: u64)
      requires q.Valid() && !q.Queued(se) && se in q.keys.vr && KeepsTraversal(rb) && q.Windowed(base)
      requires InWindow(base, JoinsAt(q, se, wakeup, migrated, thresh))
      modifies this
      ensures q.Valid()
      ensures q == Stamped(Placed(old(q), se, JoinsAt(old(q), se, wakeup, migrated, thresh)), se)
                     .(tree := q.tree, leftmost := q.leftmost)
      ensures q.Entities() == Inserted(q.keys, old(q).Entities(), se)
    {
      var v := q.keys.vr[se];
      if !wakeup || migrated { v := Add(v, q.minVruntime); }
      if wakeup {
        var vruntime := Sub(q.minVruntime, thresh);
        if S64(Sub(vruntime, v)) > 0 { v := vruntime; }
      }
      q := Placed(q, se, v);
      PlacedInOrder(old(q), se, v, base);
      LinkEntity(se, rb, base);
      forall x ensures old(q).Queued(x) ==> q.Queued(x) { InsertedElements(q.keys, old(q).Entities(), se, x); }
    }

    /** The running entity goes back into the tree. */
    method PutPrevEntity(rb: Tree -> Tree, ghost base: u64)
      requires q.Valid() && q.curr.Some? && KeepsTraversal(rb) && q.Windowed(base)
      modifies this
      ensures q.Valid()
      ensures q == Stamped(old(q), old(q).curr.value).(tree := q.tree, leftmost := q.leftmost, curr := None)
      ensures q.Entities() == Inserted(q.keys, old(q).Entities(), old(q).curr.value)
    {
      var se := q.curr.value;
      q := q.(curr := None);
      LinkEntity(se, rb, base);
      forall x ensures old(q).Queued(x) ==> q.Queued(x) { InsertedElements(q.keys, old(q).Entities(), se, x); }
    }

    /** An entity leaves the tree to run. */
    method SetNextEntity(se: nat, rb: Tree -> Tree)
      requires q.Valid() && q.curr == None && se in q.Entities() && KeepsTraversal(rb)
      modifies this
      ensures q.Valid() && q == old(q).(tree := q.tree, leftmost := q.leftmost, curr := Some(se))
      ensures q.Entities() == Without(old(q).Entities(), se)
    {
      WithoutKeepsOrder(q.keys, q.Entities(), se);
      EraseEntity(se, rb);
      q := q.(curr := Some(se));
    }

    /** An entity leaves the queue, and is nobody's buddy any more. */
    method RemoveEntity(se: nat, rb: Tree -> Tree)
      requires q.Valid() && q.Queued(se) && KeepsTraversal(rb)
      modifies this
      ensures q.Valid() && forall x :: q.Queued(x) <==> old(q).Queued(x) && x != se
      ensures q == ClearBuddies(old(q), se).(tree := q.tree, leftmost := q.leftmost, curr := Forget(old(q).curr, se))
      ensures KeptUnless(old(q), q, se)
      ensures q.Entities() == if old(q).curr == Some(se) then old(q).Entities() else Without(old(q).Entities(), se)
    {
      q := ClearBuddies(q, se);
      if q.curr == Some(se) {
        q := q.(curr := None);
      } else {
        WithoutKeepsOrder(q.keys, q.Entities(), se);
        EraseEntity(se, rb);
      }
    }

    /**
     * dequeue_entity, after update_curr: exactly that entity leaves; unless it goes to sleep it keeps its distance
     * from min_vruntime only; then min_vruntime moves on without it, unless it is about to be put back.
     */
    method DequeueEntity(se: nat, sleep: bool, putBack: bool, rb: Tree -> Tree, ghost base: u64)
      requires q.Valid() && q.Queued(se) && KeepsTraversal(rb)
      requires q.Windowed(base) && InWindow(base, q.minVruntime)
      modifies this
      ensures q.Valid() && forall x :: q.Queued(x) <==> old(q).Queued(x) && x != se
      ensures se in old(q).keys.vr && q.Entities() == if old(q).curr == Some(se) then old(q).Entities()
                                                      else Without(old(q).Entities(), se)
      ensures q.keys == old(q).keys.(vr := old(q).keys.vr[se := LeavesWith(old(q), se, sleep)])
      ensures sleep ==> q.keys == old(q).keys
      ensures KeptUnless(old(q), q, se)
      ensures q.Windowed(base) && if putBack then q.minVruntime == old(q).minVruntime
                                  else MovedOn(q, base, old(q).minVruntime)
    {
      RemoveEntity(se, rb);
      if !sleep {
        ghost var was := q;
        q := Placed(q, se, Sub(q.keys.vr[se], q.minVruntime));
        PlacedValid(was, se, q.keys.vr[se], base);
      }
      if !putBack { UpdateMinVruntime(base); }
    }

    /** Any queued entity may be made a buddy. */
    method SetBuddies(skip: Option<nat>, last: Option<nat>, next: Option<nat>)
      requires q.Valid() && q.BuddyQueued(skip) && q.BuddyQueued(last) && q.BuddyQueued(next)
      modifies this
      ensures q.Valid() && q == old(q).(skip := skip, last := last, next := next)
    {
      q := q.(skip := skip, last := last, next := next);
    }

    /** The leftmost, or the second if the leftmost is to be skipped and the second is near enough. */
    method LeftUnlessSkipped(gran: nat -> u64, ghost base: u64) returns (se: nat)
      requires q.Valid() && q.Windowed(base) && (q.Entities() != [] || q.curr.Some?)
      ensures q.Queued(se) && se in q.keys.vr
      ensures if q.skip != Some(LeftOf(q)) then se == LeftOf(q)
              else if se == LeftOf(q) then NoOtherNear(q, gran)
              else SecondOf(q) == Some(se) && Near(q, gran, se, LeftOf(q))
    {
      LeftKnown(q);
      var left := LeftOf(q);
      se := left;
      if q.skip == Some(se) {
        var second := SecondOf(q);
        if second.Some? {
          SecondKnown(q);
          if Near(q, gran, second.value, left) { return second.value; }
        }
        SecondDecides(q, gran, base);
      }
    }

    /** update_curr: the running entity's virtual runtime advances by the fair share of the time it ran. */
    method UpdateCurr(delta: u64, lw: CalcDelta.LoadWeight, ghost base: u64)
      requires q.Valid() && q.Windowed(base) && InWindow(base, q.minVruntime)
      requires CalcDelta.UpdateInvWeight(lw).inv < CalcDelta.TWO32
      requires q.curr.Some? ==> InWindow(base, Add(q.keys.vr[q.curr.value], CalcDelta.FairDelta(delta, lw)))
      modifies this
      ensures q.Valid() && q.Windowed(base)
      ensures if old(q).curr.None? then q == old(q)
              else var curr := old(q).curr.value;
                   && q == Placed(old(q), curr, Add(old(q).keys.vr[curr], CalcDelta.FairDelta(delta, lw)))
                             .(minVruntime := q.minVruntime)
                   && MovedOn(q, base, old(q).minVruntime)
    {
      if q.curr.None? { return; }
      var fair, _ := CalcDelta.CalcDeltaFair(delta, lw);
      ghost var was := q;
      q := Placed(q, q.curr.value, Add(q.keys.vr[q.curr.value], fair));
      PlacedValid(was, q.curr.value, q.keys.vr[q.curr.value], base);
      UpdateMinVruntime(base);
    }

    /**
     * update_min_vruntime: it never goes back, and when it moves it moves to the least virtual runtime of the
     * queue, so that it never passes a queued entity it was not already past.
     */
    method UpdateMinVruntime(ghost base: u64)
      requires q.Valid() && q.Windowed(base) && InWindow(base, q.minVruntime)
      modifies this
      ensures q == old(q).(minVruntime := q.minVruntime) && MovedOn(q, base, old(q).minVruntime)
    {
      var v := q.minVruntime;
      if q.curr.Some? { v := q.keys.vr[q.curr.value]; }
      if q.leftmost.Some? {
        var w := q.keys.vr[q.leftmost.value];
        assert q.Queued(q.leftmost.value);
        WindowOrder(base, w, v);
        WindowOrder(base, v, w);
        if q.curr.None? || S64(Sub(w, v)) < 0 { v := w; }
      }
      WindowOrder(base, v, q.minVruntime);
      if S64(Sub(v, q.minVruntime)) > 0 { q := q.(minVruntime := v); }
    }

    /** pick_next_entity: the leftmost, unless a buddy or, for a skipped leftmost, the second is near enough. */
    method PickNextEntity(gran: nat -> u64, ghost base: u64) returns (se: nat)
      requires q.Valid() && q.Windowed(base) && (q.Entities() != [] || q.curr.Some?)
      modifies this
      ensures FairPick(old(q), gran, se) && Preferred(old(q), gran, se)
      ensures q == ClearBuddies(old(q), se) && q.Valid()
    {
      LeftKnown(q);
      var left := LeftOf(q);
      se := LeftUnlessSkipped(gran, base);
      if q.last.Some? {
        BuddyKnown(q, q.last);
        if Near(q, gran, q.last.value, left) { se := q.last.value; }
      }
      if q.next.Some? {
        BuddyKnown(q, q.next);
        if Near(q, gran, q.next.value, left) { se := q.next.value; }
      }
      q := ClearBuddies(q, se);
    }
  }

  lemma {:induction false} LeftKnown(q: Line)
    requires q.Valid() && (q.Entities() != [] || q.curr.Some?)
    ensures q.Queued(LeftOf(q)) && LeftOf(q) in q.keys.vr
  {
  }

  function Max(a: int, b: int): int { if a >= b then a else b }

  /** min_vruntime is the later of what it was and the least virtual runtime of the queue. */
  ghost predicate MovedOn(q: Line, base: u64, was: u64) {
    && q.Valid() && InWindow(base, q.minVruntime)
    && if q.Entities() == [] && q.curr == None then q.minVruntime == was
       else Sub(q.minVruntime, base) == Max(Sub(was, base), Sub(q.keys.vr[LeftOf(q)], base))
  }

  /** The virtual runtime an entity joins with. */
  function JoinsAt(q: Line, se: nat, wakeup: bool, migrated: bool, thresh: u64): u64
    requires se in q.keys.vr
  {
    var v := if !wakeup || migrated then Add(q.keys.vr[se], q.minVruntime) else q.keys.vr[se];
    if wakeup && S64(Sub(Sub(q.minVruntime, thresh), v)) > 0 then Sub(q.minVruntime, thresh) else v
  }

  /** The virtual runtime an entity leaves with. */
  function LeavesWith(q: Line, se: nat, sleep: bool): u64
    requires se in q.keys.vr
  {
    if sleep then q.keys.vr[se] else Sub(q.keys.vr[se], q.minVruntime)
  }

  /**
   * Moving between queues keeps the distance from min_vruntime: what leaves q awake, ahead or behind, joins r as far
   * ahead or behind; and what is put back where min_vruntime has not moved is back where it was.
   */
  lemma {:induction false} MoveKeepsDistance(q: Line, r: Line, se: nat, thresh: u64)
    requires se in q.keys.vr && se in r.keys.vr && r.keys.vr[se] == LeavesWith(q, se, false)
    ensures S64(Sub(JoinsAt(r, se, false, false, thresh), r.minVruntime)) == S64(Sub(q.keys.vr[se], q.minVruntime))
    ensures r.minVruntime == q.minVruntime ==> JoinsAt(r, se, false, false, thresh) == q.keys.vr[se]
  {
  }

  /**
   * A sleeper is placed no further back than the threshold, and one that slept less is not moved at all; one that was
   * moved to another CPU meanwhile has only kept its distance from min_vruntime.
   */
  lemma {:induction false} SleepersGainLittle(q: Line, base: u64, se: nat, migrated: bool, thresh: u64)
    requires se in q.keys.vr && InWindow(base, Sub(q.minVruntime, thresh))
    requires InWindow(base, Add(q.keys.vr[se], if migrated then q.minVruntime else 0))
    ensures var slept := Add(q.keys.vr[se], if migrated then q.minVruntime else 0);
            var v := JoinsAt(q, se, true, migrated, thresh);
            Sub(v, base) == Max(Sub(slept, base), Sub(Sub(q.minVruntime, thresh), base))
  {
    WindowOrder(base, Sub(q.minVruntime, thresh), Add(q.keys.vr[se], if migrated then q.minVruntime else 0));
  }

  /** A new key of the running entity, or of one that is not queued, disturbs nothing. */
  lemma {:induction false} PlacedValid(q: Line, se: nat, v: u64, base: u64)
    requires q.Valid() && q.Windowed(base) && se !in q.Entities() && (q.curr == Some(se) ==> InWindow(base, v))
    ensures Placed(q, se, v).Valid() && Placed(q, se, v).Windowed(base)
  {
    var list, k := q.Entities(), Placed(q, se, v).keys;
    forall i, j | 0 <= i < j < |list|
      ensures Precedes(k, list[i], list[j]) { assert Precedes(q.keys, list[i], list[j]); }
    assert forall x :: Placed(q, se, v).Queued(x) <==> q.Queued(x);
  }

  function Placed(q: Line, se: nat, v: u64): Line { q.(keys := q.keys.(vr := q.keys.vr[se := v])) }

  lemma {:induction false} PlacedInOrder(q: Line, se: nat, v: u64, base: u64)
    requires q.InOrder() && !q.Queued(se) && q.Windowed(base) && InWindow(base, v)
    ensures Placed(q, se, v).InOrder() && Insertable(Placed(q, se, v).keys, base, q.Entities(), se)
  {
    var list, k := q.Entities(), Placed(q, se, v).keys;
    forall i | 0 <= i < |list| ensures list[i] != se && InWindow(base, k.vr[list[i]]) { assert q.Queued(list[i]); }
    forall i, j | 0 <= i < j < |list|
      ensures Precedes(k, list[i], list[j]) { assert Precedes(q.keys, list[i], list[j]); }
  }

  lemma {:induction false} LinkedInOrder(q: Line, r: Line, se: nat, base: u64, leftmost: bool)
    requires q.InOrder() && !q.Queued(se) && Insertable(q.keys, base, q.Entities(), se)
    requires leftmost <==> forall i :: 0 <= i < |q.Entities()| ==> Before(q.keys.vr[se], q.keys.vr[q.Entities()[i]])
    requires r == Stamped(q, se).(tree := r.tree, leftmost := if leftmost then Some(se) else q.leftmost)
    requires r.Entities() == Inserted(q.keys, q.Entities(), se)
    ensures r.InOrder()
  {
    var list, k := q.Entities(), r.keys;
    forall i, j | 0 <= i < j < |list|
      ensures Precedes(k, list[i], list[j]) { assert Precedes(q.keys, list[i], list[j]); }
    assert Position(k, list, se) == Position(q.keys, list, se) by { SamePosition(q.keys, k, list, se); }
    InsertKeepsOrder(k, base, list, se);
    PositionIsPlace(q.keys, base, list, se);
    var n := Position(q.keys, list, se);
    if n > 0 { assert list[..n][0] == list[0]; }
    if n == 0 { assert list[0..] == list; }
    forall i | 0 <= i < |r.Entities()| ensures k.at[r.Entities()[i]] < r.now {
      InsertedElements(q.keys, list, se, r.Entities()[i]);
    }
    if q.curr.Some? { InsertedElements(q.keys, list, se, q.curr.value); }
  }

  lemma {:induction false} SamePosition(k: Keys, k': Keys, list: seq<nat>, se: nat)
    requires se in k.vr && (forall i :: 0 <= i < |list| ==> list[i] in k.vr) && k'.vr == k.vr
    ensures Position(k', list, se) == Position(k, list, se)
    decreases |list|
  {
    if list != [] && !Before(k.vr[se], k.vr[list[0]]) { SamePosition(k, k', list[1..], se); }
  }

  lemma {:induction false} ErasedInOrder(q: Line, r: Line, se: nat)
    requires q.InOrder() && se in q.Entities()
    requires r == q.(tree := r.tree, leftmost := if q.leftmost == Some(se) then Next(q.Entities(), se) else q.leftmost)
    requires r.Entities() == Without(q.Entities(), se)
    ensures r.InOrder()
  {
    var list := q.Entities();
    WithoutKeepsOrder(q.keys, list, se);
    if list[0] == se { FirstIndex(list); }
    forall i | 0 <= i < |r.Entities()| ensures q.keys.at[r.Entities()[i]] < q.now {
      assert r.Entities()[i] in list;
    }
  }
}
