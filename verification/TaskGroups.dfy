/**
 The task-group tree and the goto-based walk over it.

 Groups are numbered in creation order, so a parent's number is below its children's; group 0 is
 the root group. `children[g]` is the sibling list of g's children, newest first.
 */
module TaskGroups {
  import opened Common

  datatype Tree = Tree(parent: seq<nat>, children: seq<seq<nat>>) {

    ghost predicate Valid() {
      |parent| == |children| >= 1 && EachListed() && EachLinked() && NoneTwice()
    }

    ghost predicate EachListed()
      requires |parent| == |children|
    {
      forall g :: 0 < g < |parent| ==> parent[g] < g && g in children[parent[g]]
    }

    ghost predicate EachLinked()
      requires |parent| == |children|
    {
      forall g, i :: 0 <= g < |children| && 0 <= i < |children[g]| ==>
        g < children[g][i] < |parent| && parent[children[g][i]] == g
    }

    ghost predicate NoneTwice() {
      forall g, i, j :: 0 <= g < |children| && 0 <= i < j < |children[g]| ==> children[g][i] != children[g][j]
    }

    /** A new, childless group, put at the head of p's list of children. */
    function Create(p: nat): (t: Tree)
      requires Valid() && p < |parent|
      ensures t.Valid() && t.parent == parent + [p]
      ensures t.children == children[p := [|parent|] + children[p]] + [[]]
    {
      CreateListed(p);
      CreateLinked(p);
      WithHead(p)
    }

    function WithHead(p: nat): Tree
      requires |parent| == |children| && p < |parent|
    {
      Tree(parent + [p], children[p := [|parent|] + children[p]] + [[]])
    }

    lemma CreateListed(p: nat)
      requires |parent| == |children| && p < |parent| && EachListed()
      ensures WithHead(p).EachListed()
    {
      var t := WithHead(p);
      forall g | 0 < g < |t.parent| ensures t.parent[g] < g && g in t.children[t.parent[g]] {
        if g == |parent| {
          assert t.children[p][0] == g;
        } else if parent[g] == p {
          assert t.children[p] == [|parent|] + children[p];
        } else {
          assert t.children[parent[g]] == children[parent[g]];
        }
      }
    }

    lemma CreateLinked(p: nat)
      requires |parent| == |children| && p < |parent| && EachLinked() && NoneTwice()
      ensures WithHead(p).EachLinked() && WithHead(p).NoneTwice()
    {
      var t := WithHead(p);
      assert t.children[|parent|] == [] && t.children[p] == [|parent|] + children[p];
      assert forall g :: 0 <= g < |parent| && g != p ==> t.children[g] == children[g];
    }
  }

  /** a is g itself or one of g's ancestors. */
  predicate IsAncestor(t: Tree, a: nat, g: nat)
    requires t.Valid() && g < |t.parent|
    decreases g
  {
    a == g || (a < g && IsAncestor(t, a, t.parent[g]))
  }

  // ----- The recursive depth-first traversal, cut at the first non-zero result -----

  type Visitor<!D> = (nat, D) -> (int, D)

  datatype Call = Down(tg: nat) | Up(tg: nat)

  /** How far a walk got: the last visitor's result, the visitors' data and the calls made. */
  datatype Walk<D> = Walk(ret: int, data: D, calls: seq<Call>)

  function VisitDown<D>(g: nat, down: Visitor<D>, w: Walk<D>): Walk<D> {
    if w.ret != 0 then w
    else var (r, d) := down(g, w.data); Walk(r, d, w.calls + [Down(g)])
  }

  function VisitUp<D>(g: nat, up: Visitor<D>, w: Walk<D>): Walk<D> {
    if w.ret != 0 then w
    else var (r, d) := up(g, w.data); Walk(r, d, w.calls + [Up(g)])
  }

  function Dfs<D>(t: Tree, g: nat, down: Visitor<D>, up: Visitor<D>, w: Walk<D>): Walk<D>
    requires t.Valid() && g < |t.parent|
    decreases |t.parent| - g, |t.children[g]| + 1
  {
    VisitUp(g, up, DfsFrom(t, g, 0, down, up, VisitDown(g, down, w)))
  }

  /** The subtrees of g's children from the i-th on. */
  function DfsFrom<D>(t: Tree, g: nat, i: nat, down: Visitor<D>, up: Visitor<D>, w: Walk<D>): Walk<D>
    requires t.Valid() && g < |t.parent| && i <= |t.children[g]|
    decreases |t.parent| - g, |t.children[g]| - i
  {
    if i == |t.children[g]| then w
    else DfsFrom(t, g, i + 1, down, up, Dfs(t, t.children[g][i], down, up, w))
  }

  lemma {:induction false} DfsKeepsCalls<D>(t: Tree, g: nat, down: Visitor<D>, up: Visitor<D>, w: Walk<D>)
    requires t.Valid() && g < |t.parent|
    ensures w.ret != 0 ==> Dfs(t, g, down, up, w) == w
    ensures |w.calls| <= |Dfs(t, g, down, up, w).calls|
    decreases |t.parent| - g, |t.children[g]| + 1
  {
    DfsFromKeepsCalls(t, g, 0, down, up, VisitDown(g, down, w));
  }

  lemma {:induction false} DfsFromKeepsCalls<D>(t: Tree, g: nat, i: nat, down: Visitor<D>, up: Visitor<D>, w: Walk<D>)
    requires t.Valid() && g < |t.parent| && i <= |t.children[g]|
    ensures w.ret != 0 ==> DfsFrom(t, g, i, down, up, w) == w
    ensures |w.calls| <= |DfsFrom(t, g, i, down, up, w).calls|
    decreases |t.parent| - g, |t.children[g]| - i
  {
    if i < |t.children[g]| {
      DfsKeepsCalls(t, t.children[g][i], down, up, w);
      DfsFromKeepsCalls(t, g, i + 1, down, up, Dfs(t, t.children[g][i], down, up, w));
    }
  }

  // ----- The iterative walk -----

  /** What is left of the walk from `from` once the subtree of g is done. */
  ghost function Rest<D>(t: Tree, from: nat, g: nat, down: Visitor<D>, up: Visitor<D>, w: Walk<D>): Walk<D>
    requires t.Valid() && g < |t.parent| && IsAncestor(t, from, g)
    decreases g
  {
    if g == from then w
    else
      var p := t.parent[g];
      Rest(t, from, p, down, up,
           VisitUp(p, up, DfsFrom(t, p, IndexOf(t.children[p], g) + 1, down, up, w)))
  }

  lemma {:induction false} RestKeepsCalls<D>(t: Tree, from: nat, g: nat, down: Visitor<D>, up: Visitor<D>, w: Walk<D>)
    requires t.Valid() && g < |t.parent| && IsAncestor(t, from, g)
    ensures w.ret != 0 ==> Rest(t, from, g, down, up, w) == w
    ensures |w.calls| <= |Rest(t, from, g, down, up, w).calls|
    decreases g
  {
    if g != from {
      var p := t.parent[g];
      var i := IndexOf(t.children[p], g) + 1;
      DfsFromKeepsCalls(t, p, i, down, up, w);
      RestKeepsCalls(t, from, p, down, up, VisitUp(p, up, DfsFrom(t, p, i, down, up, w)));
    }
  }

  /** Where the C code stands: at the label `down`, or in the sibling loop with `cursor` next. */
  datatype Label = AtDown | InLoop(cursor: nat)

  /** What the walk still to come will make of w. */
  ghost function Pending<D>(t: Tree, from: nat, at: Label, g: nat, down: Visitor<D>, up: Visitor<D>,
                            w: Walk<D>): Walk<D>
    requires t.Valid() && g < |t.parent| && IsAncestor(t, from, g)
    requires at.InLoop? ==> at.cursor <= |t.children[g]|
  {
    Rest(t, from, g, down, up,
         match at
         case AtDown => Dfs(t, g, down, up, w)
         case InLoop(i) => VisitUp(g, up, DfsFrom(t, g, i, down, up, w)))
  }

  lemma {:induction false} PendingKeepsCalls<D>(t: Tree, from: nat, at: Label, g: nat, down: Visitor<D>,
                                                up: Visitor<D>, w: Walk<D>)
    requires t.Valid() && g < |t.parent| && IsAncestor(t, from, g)
    requires at.InLoop? ==> at.cursor <= |t.children[g]|
    ensures w.ret != 0 ==> Pending(t, from, at, g, down, up, w) == w
    ensures |w.calls| <= |Pending(t, from, at, g, down, up, w).calls|
  {
    match at
    case AtDown =>
      DfsKeepsCalls(t, g, down, up, w);
      RestKeepsCalls(t, from, g, down, up, Dfs(t, g, down, up, w));
    case InLoop(i) =>
      DfsFromKeepsCalls(t, g, i, down, up, w);
      RestKeepsCalls(t, from, g, down, up, VisitUp(g, up, DfsFrom(t, g, i, down, up, w)));
  }

  /** The goto loop: `parent` and the sibling cursor are all the memory it has. */
  method WalkTgTreeFrom<D>(t: Tree, from: nat, down: Visitor<D>, up: Visitor<D>, data: D)
    returns (w: Walk<D>)
    requires t.Valid() && from < |t.parent|
    ensures w == Dfs(t, from, down, up, Walk(0, data, []))
    ensures Follows(Walk(0, data, []), Tour(t, from), w)
  {
    w := Walk(0, data, []);
    DfsFollowsTour(t, from, down, up, w);
    var parent: nat, at := from, AtDown;
    ghost var goal := Dfs(t, from, down, up, w);
    PendingKeepsCalls(t, from, at, parent, down, up, w);
    while true
      invariant parent < |t.parent| && IsAncestor(t, from, parent)
      invariant at.InLoop? ==> at.cursor <= |t.children[parent]|
      invariant w.ret == 0 && |w.calls| <= |goal.calls|
      invariant Pending(t, from, at, parent, down, up, w) == goal
      decreases |goal.calls| - |w.calls|, at.InLoop?
    {
      match at
      case AtDown =>
        w := VisitDown(parent, down, w);
        at := InLoop(0);
        PendingKeepsCalls(t, from, at, parent, down, up, w);
        if w.ret != 0 { return; }
      case InLoop(i) =>
        if i < |t.children[parent]| {
          var child := t.children[parent][i];
          ChildPending(t, from, parent, i, down, up, w);
          parent, at := child, AtDown;
        } else {
          w := VisitUp(parent, up, w);
          RestKeepsCalls(t, from, parent, down, up, w);
          if w.ret != 0 || parent == from { return; }
          var child := parent;
          parent := t.parent[child];
          at := InLoop(IndexOf(t.children[parent], child) + 1);
        }
    }
  }

  /** Entering the next child changes nothing of what is still to come. */
  lemma {:induction false} ChildPending<D>(t: Tree, from: nat, g: nat, i: nat, down: Visitor<D>, up: Visitor<D>,
                                           w: Walk<D>)
    requires t.Valid() && g < |t.parent| && IsAncestor(t, from, g) && i < |t.children[g]|
    ensures IsAncestor(t, from, t.children[g][i])
    ensures Pending(t, from, AtDown, t.children[g][i], down, up, w) == Pending(t, from, InLoop(i), g, down, up, w)
  {
    AncestorBelow(t, from, g);
    assert IndexOf(t.children[g], t.children[g][i]) == i;
  }

  lemma {:induction false} AncestorBelow(t: Tree, a: nat, g: nat)
    requires t.Valid() && g < |t.parent| && IsAncestor(t, a, g)
    ensures a <= g
  {
  }

  // ----- What a whole walk visits -----

  /** x lies below one of g's children from the i-th on. */
  ghost predicate BelowFrom(t: Tree, g: nat, i: nat, x: nat)
    requires t.Valid() && g < |t.parent| && x < |t.parent|
  {
    exists j :: i <= j < |t.children[g]| && IsAncestor(t, t.children[g][j], x)
  }

  lemma {:induction false} AncestorTransitive(t: Tree, a: nat, b: nat, g: nat)
    requires t.Valid() && g < |t.parent| && b < |t.parent| && IsAncestor(t, a, b) && IsAncestor(t, b, g)
    ensures IsAncestor(t, a, g)
    decreases g
  {
    if b != g { AncestorTransitive(t, a, b, t.parent[g]); }
  }

  /** Everything strictly below g is below exactly one child of g. */
  lemma {:induction false} BelowIsBelowChild(t: Tree, g: nat, x: nat)
    requires t.Valid() && g < |t.parent| && x < |t.parent|
    ensures IsAncestor(t, g, x) <==> x == g || BelowFrom(t, g, 0, x)
    decreases x
  {
    if IsAncestor(t, g, x) && x != g {
      var p := t.parent[x];
      if p == g {
        var j := IndexOf(t.children[g], x);
        assert IsAncestor(t, t.children[g][j], x);
      } else {
        BelowIsBelowChild(t, g, p);
        var j :| 0 <= j < |t.children[g]| && IsAncestor(t, t.children[g][j], p);
        AncestorBelow(t, t.children[g][j], p);
        assert IsAncestor(t, t.children[g][j], x);
      }
    }
    if BelowFrom(t, g, 0, x) {
      var j :| 0 <= j < |t.children[g]| && IsAncestor(t, t.children[g][j], x);
      assert IsAncestor(t, g, t.children[g][j]);
      AncestorTransitive(t, g, t.children[g][j], x);
    }
  }

  /** Two ancestors of one group lie on one line. */
  lemma {:induction false} AncestorsOnOneLine(t: Tree, a: nat, b: nat, x: nat)
    requires t.Valid() && a <= b < |t.parent| && x < |t.parent|
    requires IsAncestor(t, a, x) && IsAncestor(t, b, x)
    ensures IsAncestor(t, a, b)
    decreases x
  {
    if b != x { AncestorsOnOneLine(t, a, b, t.parent[x]); }
  }

  lemma {:induction false} SiblingSubtreesDisjoint(t: Tree, g: nat, i: nat, j: nat, x: nat)
    requires t.Valid() && g < |t.parent| && x < |t.parent|
    requires i < |t.children[g]| && j < |t.children[g]|
    requires IsAncestor(t, t.children[g][i], x) && IsAncestor(t, t.children[g][j], x)
    ensures i == j
  {
    var a, b := t.children[g][i], t.children[g][j];
    if a < b {
      AncestorsOnOneLine(t, a, b, x);
      AncestorBelow(t, a, g);
    } else if b < a {
      AncestorsOnOneLine(t, b, a, x);
      AncestorBelow(t, b, g);
    }
  }

  lemma {:induction false} BelowOneMore(t: Tree, g: nat, i: nat, x: nat)
    requires t.Valid() && g < |t.parent| && x < |t.parent| && i < |t.children[g]|
    ensures BelowFrom(t, g, i, x) <==> IsAncestor(t, t.children[g][i], x) || BelowFrom(t, g, i + 1, x)
    ensures !(IsAncestor(t, t.children[g][i], x) && BelowFrom(t, g, i + 1, x))
  {
    if IsAncestor(t, t.children[g][i], x) && BelowFrom(t, g, i + 1, x) {
      var j :| i + 1 <= j < |t.children[g]| && IsAncestor(t, t.children[g][j], x);
      SiblingSubtreesDisjoint(t, g, i, j, x);
    }
  }

  // ----- In which order -----

  /** All calls of a walk that nothing stops. */
  function Tour(t: Tree, g: nat): (calls: seq<Call>)
    requires t.Valid() && g < |t.parent|
    ensures |calls| >= 2
    decreases |t.parent| - g, |t.children[g]| + 1
  {
    [Down(g)] + ToursFrom(t, g, 0) + [Up(g)]
  }

  function ToursFrom(t: Tree, g: nat, i: nat): seq<Call>
    requires t.Valid() && g < |t.parent| && i <= |t.children[g]|
    decreases |t.parent| - g, |t.children[g]| - i
  {
    if i == |t.children[g]| then [] else Tour(t, t.children[g][i]) + ToursFrom(t, g, i + 1)
  }

  /** The walk from w to r made the calls of the tour, or stopped in the middle of it with a non-zero result. */
  ghost predicate Follows<D>(w: Walk<D>, tour: seq<Call>, r: Walk<D>) {
    if w.ret != 0 then r == w
    else w.calls <= r.calls <= w.calls + tour && (r.ret == 0 ==> r.calls == w.calls + tour)
  }

  lemma {:induction false} FollowsBoth<D>(w: Walk<D>, a: seq<Call>, m: Walk<D>, b: seq<Call>, r: Walk<D>)
    requires Follows(w, a, m) && Follows(m, b, r)
    ensures Follows(w, a + b, r)
  {
    if w.ret == 0 {
      assert w.calls + (a + b) == (w.calls + a) + b;
    }
  }

  /** The walk makes the calls of the tour, up to the first non-zero result. */
  lemma {:induction false} DfsFollowsTour<D>(t: Tree, g: nat, down: Visitor<D>, up: Visitor<D>, w: Walk<D>)
    requires t.Valid() && g < |t.parent|
    ensures Follows(w, Tour(t, g), Dfs(t, g, down, up, w))
    decreases |t.parent| - g, |t.children[g]| + 1
  {
    var w1 := VisitDown(g, down, w);
    var w2 := DfsFrom(t, g, 0, down, up, w1);
    DfsFromFollowsTour(t, g, 0, down, up, w1);
    FollowsBoth(w, [Down(g)], w1, ToursFrom(t, g, 0), w2);
    FollowsBoth(w, [Down(g)] + ToursFrom(t, g, 0), w2, [Up(g)], VisitUp(g, up, w2));
  }

  lemma {:induction false} DfsFromFollowsTour<D>(t: Tree, g: nat, i: nat, down: Visitor<D>, up: Visitor<D>, w: Walk<D>)
    requires t.Valid() && g < |t.parent| && i <= |t.children[g]|
    ensures Follows(w, ToursFrom(t, g, i), DfsFrom(t, g, i, down, up, w))
    decreases |t.parent| - g, |t.children[g]| - i
  {
    if i < |t.children[g]| {
      var c := t.children[g][i];
      var m := Dfs(t, c, down, up, w);
      DfsFollowsTour(t, c, down, up, w);
      DfsFromFollowsTour(t, g, i + 1, down, up, m);
      FollowsBoth(w, Tour(t, c), m, ToursFrom(t, g, i + 1), DfsFrom(t, g, i, down, up, w));
    }
  }

  ghost predicate CallsBelow(t: Tree, g: nat, calls: seq<Call>)
    requires t.Valid()
  {
    forall k :: 0 <= k < |calls| ==> calls[k].tg < |t.parent| && IsAncestor(t, g, calls[k].tg)
  }

  lemma {:induction false} TourBelow(t: Tree, g: nat)
    requires t.Valid() && g < |t.parent|
    ensures CallsBelow(t, g, Tour(t, g))
    decreases |t.parent| - g, |t.children[g]| + 1
  {
    ToursBelow(t, g, 0);
    forall k | 0 <= k < |ToursFrom(t, g, 0)| ensures IsAncestor(t, g, ToursFrom(t, g, 0)[k].tg) {
      BelowIsBelowChild(t, g, ToursFrom(t, g, 0)[k].tg);
    }
  }

  lemma {:induction false} ToursBelow(t: Tree, g: nat, i: nat)
    requires t.Valid() && g < |t.parent| && i <= |t.children[g]|
    ensures forall k :: 0 <= k < |ToursFrom(t, g, i)| ==>
              ToursFrom(t, g, i)[k].tg < |t.parent| && BelowFrom(t, g, i, ToursFrom(t, g, i)[k].tg)
    decreases |t.parent| - g, |t.children[g]| - i
  {
    if i < |t.children[g]| {
      TourBelow(t, t.children[g][i]);
      ToursBelow(t, g, i + 1);
    }
  }

  /** No call about x or anything below it. */
  ghost predicate NoneBelow(t: Tree, x: nat, calls: seq<Call>)
    requires t.Valid()
  {
    forall k :: 0 <= k < |calls| ==> calls[k].tg < |t.parent| && !IsAncestor(t, x, calls[k].tg)
  }

  /** The calls about x and what is below it are one stretch: the tour of x. */
  ghost predicate Nested(t: Tree, x: nat, calls: seq<Call>, before: seq<Call>, after: seq<Call>)
    requires t.Valid() && x < |t.parent|
  {
    calls == before + Tour(t, x) + after && NoneBelow(t, x, before) && NoneBelow(t, x, after)
  }

  /** So Down of a group comes before all calls about the groups below it, and Up after them, each once. */
  lemma {:induction false} TourIsNested(t: Tree, g: nat, x: nat) returns (before: seq<Call>, after: seq<Call>)
    requires t.Valid() && g < |t.parent| && x < |t.parent| && IsAncestor(t, g, x)
    ensures Nested(t, x, Tour(t, g), before, after)
    decreases |t.parent| - g, |t.children[g]| + 1
  {
    if x == g {
      before, after := [], [];
      assert Tour(t, g) == [] + Tour(t, g) + [];
    } else {
      BelowIsBelowChild(t, g, x);
      AncestorBelow(t, g, x);
      before, after := ToursAreNested(t, g, 0, x);
      var inner := ToursFrom(t, g, 0);
      assert !IsAncestor(t, x, g);
      assert Tour(t, g) == ([Down(g)] + before) + Tour(t, x) + (after + [Up(g)]);
      before, after := [Down(g)] + before, after + [Up(g)];
    }
  }

  lemma {:induction false} ToursAreNested(t: Tree, g: nat, i: nat, x: nat) returns (before: seq<Call>, after: seq<Call>)
    requires t.Valid() && g < |t.parent| && i <= |t.children[g]| && x < |t.parent| && BelowFrom(t, g, i, x)
    ensures Nested(t, x, ToursFrom(t, g, i), before, after)
    decreases |t.parent| - g, |t.children[g]| - i
  {
    var c := t.children[g][i];
    BelowOneMore(t, g, i, x);
    if IsAncestor(t, c, x) {
      before, after := TourIsNested(t, c, x);
      RestNotBelow(t, g, i, x);
      assert ToursFrom(t, g, i) == before + Tour(t, x) + (after + ToursFrom(t, g, i + 1));
      after := after + ToursFrom(t, g, i + 1);
    } else {
      before, after := ToursAreNested(t, g, i + 1, x);
      FirstNotBelow(t, g, i, x);
      assert ToursFrom(t, g, i) == (Tour(t, c) + before) + Tour(t, x) + after;
      before := Tour(t, c) + before;
    }
  }

  lemma {:induction false} RestNotBelow(t: Tree, g: nat, i: nat, x: nat)
    requires t.Valid() && g < |t.parent| && i < |t.children[g]| && x < |t.parent| && IsAncestor(t, t.children[g][i], x)
    ensures NoneBelow(t, x, ToursFrom(t, g, i + 1))
  {
    var calls := ToursFrom(t, g, i + 1);
    ToursBelow(t, g, i + 1);
    forall k | 0 <= k < |calls| ensures !IsAncestor(t, x, calls[k].tg) {
      BelowOneMore(t, g, i, calls[k].tg);
      if IsAncestor(t, x, calls[k].tg) { AncestorTransitive(t, t.children[g][i], x, calls[k].tg); }
    }
  }

  lemma {:induction false} FirstNotBelow(t: Tree, g: nat, i: nat, x: nat)
    requires t.Valid() && g < |t.parent| && i < |t.children[g]| && x < |t.parent| && BelowFrom(t, g, i + 1, x)
    ensures NoneBelow(t, x, Tour(t, t.children[g][i]))
  {
    var calls := Tour(t, t.children[g][i]);
    TourBelow(t, t.children[g][i]);
    var j :| i + 1 <= j < |t.children[g]| && IsAncestor(t, t.children[g][j], x);
    forall k | 0 <= k < |calls| ensures !IsAncestor(t, x, calls[k].tg) {
      if IsAncestor(t, x, calls[k].tg) {
        AncestorTransitive(t, t.children[g][j], x, calls[k].tg);
        SiblingSubtreesDisjoint(t, g, i, j, calls[k].tg);
      }
    }
  }

  /** Applies f once to one group's entry. */
  function Touch<C>(f: C -> C): Visitor<seq<C>> {
    (g: nat, d: seq<C>) => (0, if g < |d| then d[g := f(d[g])] else d)
  }

  function Nop<D>(): Visitor<D> {
    (g: nat, d: D) => (0, d)
  }

  /** Only looks at the group. */
  function Test<D>(test: nat -> int): Visitor<D> {
    (g: nat, d: D) => (test(g), d)
  }

  /** A walk whose `down` (or `up`) touches one entry changes the whole subtree, each group once. */
  lemma {:induction false} WalkTouchesSubtreeOnce<C>(t: Tree, g: nat, onDown: bool, f: C -> C, w: Walk<seq<C>>)
    requires t.Valid() && g < |t.parent| && w.ret == 0 && |w.data| == |t.parent|
    ensures var down, up := if onDown then Touch(f) else Nop(), if onDown then Nop() else Touch(f);
            var r := Dfs(t, g, down, up, w);
            && r.ret == 0 && |r.data| == |w.data|
            && forall x :: 0 <= x < |w.data| ==>
                 r.data[x] == if IsAncestor(t, g, x) then f(w.data[x]) else w.data[x]
    decreases |t.parent| - g, |t.children[g]| + 1
  {
    var down, up := if onDown then Touch(f) else Nop(), if onDown then Nop() else Touch(f);
    var w1 := VisitDown(g, down, w);
    WalkTouchesFromOnce(t, g, 0, onDown, f, w1);
    forall x | 0 <= x < |w.data|
      ensures IsAncestor(t, g, x) <==> x == g || BelowFrom(t, g, 0, x)
      ensures !BelowFrom(t, g, 0, g)
    {
      BelowIsBelowChild(t, g, x);
    }
  }

  lemma {:induction false} WalkTouchesFromOnce<C>(t: Tree, g: nat, i: nat, onDown: bool, f: C -> C, w: Walk<seq<C>>)
    requires t.Valid() && g < |t.parent| && i <= |t.children[g]| && w.ret == 0 && |w.data| == |t.parent|
    ensures var down, up := if onDown then Touch(f) else Nop(), if onDown then Nop() else Touch(f);
            var r := DfsFrom(t, g, i, down, up, w);
            && r.ret == 0 && |r.data| == |w.data|
            && forall x :: 0 <= x < |w.data| ==>
                 r.data[x] == if BelowFrom(t, g, i, x) then f(w.data[x]) else w.data[x]
    decreases |t.parent| - g, |t.children[g]| - i
  {
    if i < |t.children[g]| {
      var down, up := if onDown then Touch(f) else Nop(), if onDown then Nop() else Touch(f);
      var c := t.children[g][i];
      WalkTouchesSubtreeOnce(t, c, onDown, f, w);
      WalkTouchesFromOnce(t, g, i + 1, onDown, f, Dfs(t, c, down, up, w));
      forall x | 0 <= x < |w.data|
        ensures BelowFrom(t, g, i, x) <==> IsAncestor(t, c, x) || BelowFrom(t, g, i + 1, x)
        ensures !(IsAncestor(t, c, x) && BelowFrom(t, g, i + 1, x))
      {
        BelowOneMore(t, g, i, x);
      }
    }
  }

  /** A walk whose `down` only tests returns 0 exactly when every group of the subtree passes. */
  lemma {:induction false} WalkTestsSubtree<D>(t: Tree, g: nat, test: nat -> int, w: Walk<D>)
    requires t.Valid() && g < |t.parent| && w.ret == 0
    ensures var r := Dfs(t, g, Test(test), Nop(), w);
            && r.data == w.data
            && (r.ret == 0 <==> forall x :: 0 <= x < |t.parent| && IsAncestor(t, g, x) ==> test(x) == 0)
    decreases |t.parent| - g, |t.children[g]| + 1
  {
    var down := Test<D>(test);
    var w1 := VisitDown(g, down, w);
    forall x | 0 <= x < |t.parent|
      ensures IsAncestor(t, g, x) <==> x == g || BelowFrom(t, g, 0, x)
    {
      BelowIsBelowChild(t, g, x);
    }
    if w1.ret != 0 {
      DfsFromKeepsCalls(t, g, 0, down, Nop(), w1);
      assert IsAncestor(t, g, g);
    } else {
      WalkTestsFrom(t, g, 0, test, w1);
    }
  }

  lemma {:induction false} WalkTestsFrom<D>(t: Tree, g: nat, i: nat, test: nat -> int, w: Walk<D>)
    requires t.Valid() && g < |t.parent| && i <= |t.children[g]| && w.ret == 0
    ensures var r := DfsFrom(t, g, i, Test(test), Nop(), w);
            && r.data == w.data
            && (r.ret == 0 <==> forall x :: 0 <= x < |t.parent| && BelowFrom(t, g, i, x) ==> test(x) == 0)
    decreases |t.parent| - g, |t.children[g]| - i
  {
    if i < |t.children[g]| {
      var down := Test<D>(test);
      var c := t.children[g][i];
      WalkTestsSubtree(t, c, test, w);
      var w1 := Dfs(t, c, down, Nop(), w);
      forall x | 0 <= x < |t.parent|
        ensures BelowFrom(t, g, i, x) <==> IsAncestor(t, c, x) || BelowFrom(t, g, i + 1, x)
      {
        BelowOneMore(t, g, i, x);
      }
      if w1.ret != 0 {
        DfsFromKeepsCalls(t, g, i + 1, down, Nop(), w1);
      } else {
        WalkTestsFrom(t, g, i + 1, test, w1);
      }
    }
  }
}
