/**
 * The ptree system call: a breadth-first walk of the process tree that uses the result array as its queue.
 *
 * Processes are numbered by pid, 0 being init_task. The walk holds the task list lock, so the tree is fixed.
 * The queue index and the level are unsigned short, as in the source.
 */
module Ptree {
  import opened Common

  const USHORT: nat := 0x1_0000
  const EINVAL: int := 22
  const EFAULT: int := 14
  const ESRCH: int := 3

  datatype Info = Info(comm: string, state: int, uid: nat)

  datatype Proc = Proc(parent: nat, children: seq<nat>, leader: bool, info: Info)

  type Procs = map<nat, Proc>

  datatype Prinfo = Prinfo(pid: nat, parentPid: nat, info: Info, level: nat)

  /** Children name their parent, no child is listed twice, and depth grows from parent to child. */
  ghost predicate Tree(ps: Procs, depth: map<nat, nat>) {
    0 in ps && ParentsKnown(ps, depth) && ChildrenLinked(ps, depth) && ChildrenOnce(ps)
  }

  ghost predicate ParentsKnown(ps: Procs, depth: map<nat, nat>) {
    forall p :: p in ps ==> ps[p].parent in ps && p in depth
  }

  ghost predicate ChildrenLinked(ps: Procs, depth: map<nat, nat>) {
    forall p, i :: p in ps && 0 <= i < |ps[p].children| ==> ChildOf(ps, depth, ps[p].children[i], p)
  }

  ghost predicate ChildrenOnce(ps: Procs) {
    forall p, i, j :: p in ps && 0 <= i < j < |ps[p].children| ==> ps[p].children[i] != ps[p].children[j]
  }

  ghost predicate ChildOf(ps: Procs, depth: map<nat, nat>, c: nat, p: nat) {
    c in ps && ps[c].parent == p && c in depth && p in depth && depth[c] == depth[p] + 1
  }

  // ----- Level order -----

  function Leaders(ps: Procs, s: seq<nat>): seq<nat> {
    if s == [] then []
    else Leaders(ps, s[..|s| - 1]) + if s[|s| - 1] in ps && ps[s[|s| - 1]].leader then [s[|s| - 1]] else []
  }

  /** The processes, not threads, among the children of x, in order. */
  function Kids(ps: Procs, x: nat): seq<nat> { if x in ps then Leaders(ps, ps[x].children) else [] }

  function Flat(ps: Procs, s: seq<nat>): seq<nat> {
    if s == [] then [] else Flat(ps, s[..|s| - 1]) + Kids(ps, s[|s| - 1])
  }

  /** The processes d steps below the root, from left to right. */
  function Level(ps: Procs, root: nat, d: nat): seq<nat> {
    if d == 0 then [root] else Flat(ps, Level(ps, root, d - 1))
  }

  /** The first n levels. */
  function Levels(ps: Procs, root: nat, n: nat): seq<nat> {
    if n == 0 then [] else Levels(ps, root, n - 1) + Level(ps, root, n - 1)
  }

  lemma {:induction false} FlatAppend(ps: Procs, a: seq<nat>, b: seq<nat>)
    ensures Flat(ps, a + b) == Flat(ps, a) + Flat(ps, b)
    decreases |b|
  {
    if b == [] {
      assert a + b == a;
    } else {
      var b' := b[..|b| - 1];
      assert (a + b)[..|a + b| - 1] == a + b';
      FlatAppend(ps, a, b');
    }
  }

  /** The levels below the root are the children of the levels. */
  lemma {:induction false} LevelsUnfold(ps: Procs, root: nat, n: nat)
    ensures Levels(ps, root, n + 1) == [root] + Flat(ps, Levels(ps, root, n))
    decreases n
  {
    var all := Levels(ps, root, n);
    assert Levels(ps, root, n + 1) == all + Level(ps, root, n);
    if n > 0 {
      var a, b := Levels(ps, root, n - 1), Level(ps, root, n - 1);
      assert all == [root] + Flat(ps, a) by { LevelsUnfold(ps, root, n - 1); }
      FlatAppend(ps, a, b);
      Assoc([root], Flat(ps, a), Flat(ps, b));
    }
  }

  lemma {:induction false} Assoc(a: seq<nat>, b: seq<nat>, c: seq<nat>)
    ensures a + b + c == a + (b + c)
  {
  }

  lemma {:induction false} FlatPrefix(ps: Procs, a: seq<nat>, b: seq<nat>)
    requires a <= b
    ensures Flat(ps, a) <= Flat(ps, b)
  {
    assert b == a + b[|a|..];
    FlatAppend(ps, a, b[|a|..]);
  }

  lemma {:induction false} LevelsPrefix(ps: Procs, root: nat, m: nat, n: nat)
    requires m <= n
    ensures Levels(ps, root, m) <= Levels(ps, root, n)
    decreases n
  {
    if m < n { LevelsPrefix(ps, root, m, n - 1); }
  }

  /** The first m processes in level order, or all of them if they are fewer. */
  function Order(ps: Procs, root: nat, m: nat): seq<nat> {
    var all := Levels(ps, root, m);
    if m < |all| then all[..m] else all
  }

  lemma {:induction false} EmptyStaysEmpty(ps: Procs, root: nat, d: nat, e: nat)
    requires Level(ps, root, d) == [] && d <= e
    ensures Level(ps, root, e) == []
    decreases e
  {
    if d < e { EmptyStaysEmpty(ps, root, d, e - 1); }
  }

  /** m levels hold m processes or all there are. */
  lemma {:induction false} EnoughLevels(ps: Procs, root: nat, m: nat, n: nat)
    requires m <= n
    ensures || |Levels(ps, root, m)| >= m
            || (m > 0 && Level(ps, root, m - 1) == [] && Levels(ps, root, n) == Levels(ps, root, m))
    decreases m, n
  {
    if m > 0 {
      EnoughLevels(ps, root, m - 1, m - 1);
      if |Levels(ps, root, m - 1)| < m - 1 { EmptyStaysEmpty(ps, root, m - 2, m - 1); }
      if Level(ps, root, m - 1) == [] { NothingFurther(ps, root, m, n); }
    }
  }

  lemma {:induction false} NothingFurther(ps: Procs, root: nat, m: nat, n: nat)
    requires 0 < m <= n && Level(ps, root, m - 1) == []
    ensures Levels(ps, root, n) == Levels(ps, root, m)
    decreases n
  {
    if m < n {
      NothingFurther(ps, root, m, n - 1);
      assert Level(ps, root, n - 1) == [] by { EmptyStaysEmpty(ps, root, m - 1, n - 1); }
      assert Levels(ps, root, n) == Levels(ps, root, n - 1) + [];
    }
  }

  /** The queue t holds the root and the children of its first k entries, and is a start of the levels. */
  ghost predicate Filled(ps: Procs, root: nat, t: seq<nat>, k: nat) {
    k <= |t| && t == [root] + Flat(ps, t[..k]) && t <= Levels(ps, root, k + 1)
  }

  lemma {:induction false} StartFilled(ps: Procs, root: nat)
    ensures Filled(ps, root, [root], 0)
  {
    LevelsUnfold(ps, root, 0);
    assert [root][..0] == [];
  }

  /** Taking the next process from the queue and appending its children keeps the queue in level order. */
  lemma {:induction false} NextFilled(ps: Procs, root: nat, t: seq<nat>, k: nat)
    requires Filled(ps, root, t, k) && k < |t|
    ensures Filled(ps, root, t + Kids(ps, t[k]), k + 1)
  {
    var t' := t + Kids(ps, t[k]);
    assert t[..k + 1] == t[..k] + [t[k]];
    assert t[..k + 1][..k] == t[..k];
    assert t'[..k + 1] == t[..k + 1];
    Assoc([root], Flat(ps, t[..k]), Kids(ps, t[k]));
    FlatPrefix(ps, t[..k + 1], Levels(ps, root, k + 1));
    LevelsUnfold(ps, root, k + 1);
  }

  /** Every start of m processes of the levels is the first m in level order. */
  lemma {:induction false} PrefixIsOrder(ps: Procs, root: nat, t: seq<nat>, n: nat)
    requires t <= Levels(ps, root, n)
    ensures t == Order(ps, root, |t|)
  {
    var m := |t|;
    if m <= n {
      EnoughLevels(ps, root, m, n);
      LevelsPrefix(ps, root, m, n);
    } else {
      LevelsPrefix(ps, root, n, m);
    }
  }

  lemma {:induction false} PrefixUnder(root: nat, a: seq<nat>, b: seq<nat>)
    requires a <= b
    ensures [root] + a <= [root] + b
  {
  }

  /** A queue that has been used up holds all levels. */
  lemma {:induction false} UsedUp(ps: Procs, root: nat, t: seq<nat>, n: nat)
    requires t == [root] + Flat(ps, t)
    ensures Levels(ps, root, n) <= t
    decreases n
  {
    if n > 0 {
      UsedUp(ps, root, t, n - 1);
      var a := Levels(ps, root, n - 1);
      FlatPrefix(ps, a, t);
      PrefixUnder(root, Flat(ps, a), Flat(ps, t));
      assert Levels(ps, root, n) == [root] + Flat(ps, a) by { LevelsUnfold(ps, root, n - 1); }
    }
  }

  lemma {:induction false} UsedUpIsOrder(ps: Procs, root: nat, t: seq<nat>, m: nat)
    requires Filled(ps, root, t, |t|) && |t| <= m
    ensures t == Order(ps, root, m)
  {
    if |t| == m {
      PrefixIsOrder(ps, root, t, m + 1);
    } else {
      assert t[..|t|] == t;
      UsedUp(ps, root, t, m);
      LevelsPrefix(ps, root, |t| + 1, m);
    }
  }

  // ----- Depth and distinctness -----

  lemma {:induction false} LeadersFacts(ps: Procs, s: seq<nat>, x: nat)
    ensures x in Leaders(ps, s) <==> x in s && x in ps && ps[x].leader
    ensures Distinct(s) ==> Distinct(Leaders(ps, s))
    decreases |s|
  {
    if s != [] {
      var s', y := s[..|s| - 1], s[|s| - 1];
      assert s == s' + [y];
      LeadersFacts(ps, s', x);
      LeadersFacts(ps, s', y);
    }
  }

  lemma {:induction false} KidsAre(ps: Procs, depth: map<nat, nat>, p: nat, x: nat)
    requires Tree(ps, depth) && x in Kids(ps, p)
    ensures ChildOf(ps, depth, x, p) && ps[x].leader
  {
    LeadersFacts(ps, ps[p].children, x);
  }

  lemma {:induction false} KidsOnce(ps: Procs, depth: map<nat, nat>, p: nat)
    requires Tree(ps, depth)
    ensures Distinct(Kids(ps, p))
  {
    if p in ps { LeadersFacts(ps, ps[p].children, p); }
  }

  lemma {:induction false} FlatElements(ps: Procs, depth: map<nat, nat>, s: seq<nat>, x: nat)
    requires Tree(ps, depth)
    ensures x in Flat(ps, s) <==> exists i :: 0 <= i < |s| && x in Kids(ps, s[i])
    ensures x in Flat(ps, s) ==> x in ps && ps[x].parent in s && ChildOf(ps, depth, x, ps[x].parent)
    decreases |s|
  {
    if s != [] {
      var s', y := s[..|s| - 1], s[|s| - 1];
      FlatElements(ps, depth, s', x);
      if x in Kids(ps, y) { KidsAre(ps, depth, y, x); }
      assert forall i :: 0 <= i < |s'| ==> s'[i] == s[i];
    }
  }

  lemma {:induction false} JoinOnce(a: seq<nat>, b: seq<nat>)
    requires Distinct(a) && Distinct(b) && forall i :: 0 <= i < |a| ==> a[i] !in b
    ensures Distinct(a + b)
  {
  }

  lemma {:induction false} OtherFamily(ps: Procs, depth: map<nat, nat>, s: seq<nat>, y: nat, x: nat)
    requires Tree(ps, depth) && y !in s && x in Flat(ps, s)
    ensures x !in Kids(ps, y)
  {
    FlatElements(ps, depth, s, x);
    if x in Kids(ps, y) { KidsAre(ps, depth, y, x); }
  }

  lemma {:induction false} FlatOnce(ps: Procs, depth: map<nat, nat>, s: seq<nat>)
    requires Tree(ps, depth) && Distinct(s)
    ensures Distinct(Flat(ps, s))
    decreases |s|
  {
    if s != [] {
      var s', y := s[..|s| - 1], s[|s| - 1];
      var a, b := Flat(ps, s'), Kids(ps, y);
      FlatOnce(ps, depth, s');
      KidsOnce(ps, depth, y);
      forall i | 0 <= i < |a| ensures a[i] !in b { OtherFamily(ps, depth, s', y, a[i]); }
      JoinOnce(a, b);
    }
  }

  /** Level d is d steps below the root, and what is there has its parent one level up. */
  lemma {:induction false} LevelDepth(ps: Procs, depth: map<nat, nat>, root: nat, d: nat, x: nat)
    requires Tree(ps, depth) && root in ps && x in Level(ps, root, d)
    ensures x in ps && depth[x] == depth[root] + d
    ensures d > 0 ==> ps[x].parent in Level(ps, root, d - 1)
    decreases d
  {
    if d > 0 {
      FlatElements(ps, depth, Level(ps, root, d - 1), x);
      LevelDepth(ps, depth, root, d - 1, ps[x].parent);
    }
  }

  /** x is as far below the root as its level says. */
  ghost predicate Below(ps: Procs, depth: map<nat, nat>, root: nat, x: nat) {
    && x in ps && x in depth && root in depth && depth[root] <= depth[x]
    && x in Level(ps, root, depth[x] - depth[root])
  }

  lemma {:induction false} LevelBelow(ps: Procs, depth: map<nat, nat>, root: nat, d: nat, x: nat)
    requires Tree(ps, depth) && root in ps && x in Level(ps, root, d)
    ensures Below(ps, depth, root, x) && depth[x] == depth[root] + d
  {
    LevelDepth(ps, depth, root, d, x);
  }

  lemma {:induction false} LevelsSplit(ps: Procs, root: nat, n: nat, x: nat)
    requires x in Levels(ps, root, n)
    ensures n > 0 && (x in Levels(ps, root, n - 1) || x in Level(ps, root, n - 1))
  {
  }

  lemma {:induction false} LevelsBelow(ps: Procs, depth: map<nat, nat>, root: nat, n: nat, x: nat)
    requires Tree(ps, depth) && root in ps && x in Levels(ps, root, n)
    ensures Below(ps, depth, root, x) && depth[x] < depth[root] + n
    decreases n
  {
    LevelsSplit(ps, root, n, x);
    if x in Level(ps, root, n - 1) {
      LevelBelow(ps, depth, root, n - 1, x);
    } else {
      LevelsBelow(ps, depth, root, n - 1, x);
    }
  }

  lemma {:induction false} LevelOnce(ps: Procs, depth: map<nat, nat>, root: nat, d: nat)
    requires Tree(ps, depth)
    ensures Distinct(Level(ps, root, d))
    decreases d
  {
    if d > 0 {
      LevelOnce(ps, depth, root, d - 1);
      FlatOnce(ps, depth, Level(ps, root, d - 1));
    }
  }

  lemma {:induction false} OtherLevel(ps: Procs, depth: map<nat, nat>, root: nat, n: nat, x: nat)
    requires Tree(ps, depth) && root in ps && x in Levels(ps, root, n)
    ensures x !in Level(ps, root, n)
  {
    LevelsBelow(ps, depth, root, n, x);
    if x in Level(ps, root, n) { LevelBelow(ps, depth, root, n, x); }
  }

  lemma {:induction false} OneMoreLevel(ps: Procs, depth: map<nat, nat>, root: nat, n: nat, a: seq<nat>, b: seq<nat>)
    requires Tree(ps, depth) && root in ps && Distinct(a) && a == Levels(ps, root, n) && b == Level(ps, root, n)
    ensures Distinct(a + b)
  {
    LevelOnce(ps, depth, root, n);
    forall i | 0 <= i < |a| ensures a[i] !in b { OtherLevel(ps, depth, root, n, a[i]); }
    JoinOnce(a, b);
  }

  /** No process is in level order twice. */
  lemma {:induction false} LevelsOnce(ps: Procs, depth: map<nat, nat>, root: nat, n: nat)
    requires Tree(ps, depth) && root in ps
    ensures Distinct(Levels(ps, root, n))
    decreases n
  {
    if n > 0 {
      LevelsOnce(ps, depth, root, n - 1);
      OneMoreLevel(ps, depth, root, n - 1, Levels(ps, root, n - 1), Level(ps, root, n - 1));
    }
  }

  /** What the levels hold once they hold all: the root, and every process whose parent they hold. */
  lemma {:induction false} AllIsClosed(ps: Procs, depth: map<nat, nat>, root: nat, m: nat, x: nat, y: nat)
    requires Tree(ps, depth) && root in ps && |Order(ps, root, m)| < m
    ensures root in Order(ps, root, m)
    ensures y in Order(ps, root, m) && x in Kids(ps, y) ==> x in Order(ps, root, m)
  {
    var all := Levels(ps, root, m);
    EnoughLevels(ps, root, m, m + 1);
    LevelsUnfold(ps, root, m);
    if y in all && x in Kids(ps, y) {
      FlatElements(ps, depth, all, x);
      assert x in ([root] + Flat(ps, all));
    }
    assert root in ([root] + Flat(ps, all));
  }

  // ----- getLevel -----

  lemma {:induction false} RootAbove(ps: Procs, depth: map<nat, nat>, root: nat, x: nat)
    requires Tree(ps, depth) && root in ps && Below(ps, depth, root, x)
    ensures x == root <==> depth[x] == depth[root]
    ensures x != root ==> Below(ps, depth, root, ps[x].parent) && depth[ps[x].parent] == depth[x] - 1
  {
    var d: nat := depth[x] - depth[root];
    if d == 0 {
      OnlyRoot(ps, root, d, x);
    } else {
      ParentBelow(ps, depth, root, d, x);
    }
  }

  lemma {:induction false} OnlyRoot(ps: Procs, root: nat, d: nat, x: nat)
    requires d == 0 && x in Level(ps, root, d)
    ensures x == root
  {
  }

  lemma {:induction false} ParentBelow(ps: Procs, depth: map<nat, nat>, root: nat, d: nat, x: nat)
    requires Tree(ps, depth) && root in ps && d > 0 && x in Level(ps, root, d)
    ensures x in ps && x != root && Below(ps, depth, root, ps[x].parent) && depth[x] == depth[ps[x].parent] + 1
  {
    LevelDepth(ps, depth, root, d, x);
    LevelBelow(ps, depth, root, d - 1, ps[x].parent);
  }

  lemma {:induction false} KidOnLevel(ps: Procs, depth: map<nat, nat>, s: seq<nat>, p: nat, x: nat)
    requires Tree(ps, depth) && p in s && p in ps && x in ps[p].children && ps[x].leader
    ensures x in Flat(ps, s)
  {
    LeadersFacts(ps, ps[p].children, x);
    FlatElements(ps, depth, s, x);
  }

  lemma {:induction false} KidBelow(ps: Procs, depth: map<nat, nat>, root: nat, p: nat, x: nat)
    requires Tree(ps, depth) && root in ps && Below(ps, depth, root, p) && x in ps[p].children && ps[x].leader
    ensures Below(ps, depth, root, x) && depth[x] == depth[p] + 1
  {
    var d := depth[p] - depth[root];
    assert x in Level(ps, root, d + 1) by { KidOnLevel(ps, depth, Level(ps, root, d), p, x); }
    LevelBelow(ps, depth, root, d + 1, x);
  }

  /** The processes below the root: closed upwards to the root and downwards to the leading children. */
  ghost predicate Family(ps: Procs, depth: map<nat, nat>, root: nat, below: set<nat>) {
    && root in below && (forall x :: x in below ==> MemberRight(ps, depth, root, below, x))
  }

  ghost predicate MemberRight(ps: Procs, depth: map<nat, nat>, root: nat, below: set<nat>, x: nat) {
    && x in ps && x in depth && root in depth && depth[x] >= depth[root]
    && (x == root <==> depth[x] == depth[root])
    && (x != root ==> ps[x].parent in below && ps[x].parent in depth && depth[ps[x].parent] == depth[x] - 1)
    && (forall i :: 0 <= i < |ps[x].children| ==> ChildRight(ps, depth, below, x, ps[x].children[i]))
  }

  ghost predicate ChildRight(ps: Procs, depth: map<nat, nat>, below: set<nat>, x: nat, c: nat) {
    c in ps && (ps[c].leader ==> c in below && x in depth && c in depth && depth[c] == depth[x] + 1)
  }

  ghost function AllBelow(ps: Procs, depth: map<nat, nat>, root: nat): set<nat> {
    set x | x in ps && Below(ps, depth, root, x)
  }

  lemma {:induction false} AllBelowIsFamily(ps: Procs, depth: map<nat, nat>, root: nat)
    requires Tree(ps, depth) && root in ps
    ensures Family(ps, depth, root, AllBelow(ps, depth, root))
  {
    var below := AllBelow(ps, depth, root);
    LevelBelow(ps, depth, root, 0, root);
    forall x | x in below ensures MemberRight(ps, depth, root, below, x) {
      RootAbove(ps, depth, root, x);
      forall i | 0 <= i < |ps[x].children| ensures ChildRight(ps, depth, below, x, ps[x].children[i]) {
        var c := ps[x].children[i];
        assert ChildOf(ps, depth, c, x);
        if ps[c].leader { KidBelow(ps, depth, root, x, c); }
      }
    }
  }

  lemma {:induction false} ModStep(n: nat)
    ensures (n % USHORT + 1) % USHORT == (n + 1) % USHORT
  {
  }

  /** Walking up to the root counts the level the children are on, in an unsigned short. */
  method GetLevel(ps: Procs, root: nat, from: nat, ghost depth: map<nat, nat>, ghost below: set<nat>)
    returns (level: nat)
    requires Family(ps, depth, root, below) && from in below
    ensures level == (depth[from] - depth[root] + 1) % USHORT
  {
    var child, res := from, 0;
    ghost var steps: nat := 0;
    assert MemberRight(ps, depth, root, below, child);
    while root != child
      invariant child in below && MemberRight(ps, depth, root, below, child)
      invariant depth[child] + steps == depth[from] && res == steps % USHORT
      decreases depth[child]
    {
      ModStep(steps);
      child, res, steps := ps[child].parent, (res + 1) % USHORT, steps + 1;
    }
    ModStep(steps);
    level := (res + 1) % USHORT;
  }

  // ----- The walk -----

  function Copy(ps: Procs, x: nat, level: nat): Prinfo
    requires x in ps
  {
    Prinfo(x, ps[x].parent, ps[x].info, level)
  }

  function Pids(s: seq<Prinfo>): seq<nat> {
    seq(|s|, i requires 0 <= i < |s| => s[i].pid)
  }

  /** An entry describes a process below the root, with its distance from the root in an unsigned short. */
  ghost predicate EntryRight(ps: Procs, depth: map<nat, nat>, root: nat, below: set<nat>, e: Prinfo) {
    && e.pid in below && e.pid in ps && e.pid in depth && root in depth
    && e == Copy(ps, e.pid, (depth[e.pid] - depth[root]) % USHORT)
  }

  ghost predicate EntriesRight(ps: Procs, depth: map<nat, nat>, root: nat, below: set<nat>, s: seq<Prinfo>) {
    forall i :: 0 <= i < |s| ==> EntryRight(ps, depth, root, below, s[i])
  }

  lemma {:induction false} LeadersPrefix(ps: Procs, s: seq<nat>, c: nat)
    requires c <= |s|
    ensures Leaders(ps, s[..c]) <= Leaders(ps, s)
    decreases |s|
  {
    if c < |s| {
      assert s[..|s| - 1][..c] == s[..c];
      LeadersPrefix(ps, s[..|s| - 1], c);
    } else {
      assert s[..c] == s;
    }
  }

  lemma {:induction false} LeadersStep(ps: Procs, s: seq<nat>, c: nat)
    requires c < |s|
    ensures Leaders(ps, s[..c + 1]) == Leaders(ps, s[..c]) + if s[c] in ps && ps[s[c]].leader then [s[c]] else []
  {
    assert s[..c + 1][..c] == s[..c];
  }

  lemma {:induction false} CopiedOne(ps: Procs, depth: map<nat, nat>, root: nat, below: set<nat>, s: seq<Prinfo>,
                                     x: nat, p: nat)
    requires Family(ps, depth, root, below) && EntriesRight(ps, depth, root, below, s) && p in below
             && x in ps[p].children && ps[x].leader
    ensures x in ps && root in depth && p in depth
    ensures var t := s + [Copy(ps, x, (depth[p] - depth[root] + 1) % USHORT)];
            EntriesRight(ps, depth, root, below, t) && Pids(t) == Pids(s) + [x]
  {
    assert MemberRight(ps, depth, root, below, p);
    var i :| 0 <= i < |ps[p].children| && ps[p].children[i] == x;
    assert ChildRight(ps, depth, below, p, ps[p].children[i]);
  }

  lemma {:induction false} RowEnds(ps: Procs, row: seq<nat>, c: nat, before: seq<nat>, pids: seq<nat>)
    requires c <= |row| && pids == before + Leaders(ps, row[..c])
    ensures pids <= before + Leaders(ps, row) && (c == |row| ==> pids == before + Leaders(ps, row))
  {
    LeadersPrefix(ps, row, c);
    if c == |row| { assert row[..c] == row; }
  }

  method PsCopy(ps: Procs, ghost depth: map<nat, nat>, root: nat, ghost below: set<nat>, ghost p: nat,
                task: nat, level: nat, tree: array<Prinfo>, n: nat)
    returns (i: nat)
    requires Family(ps, depth, root, below) && p in below && MemberRight(ps, depth, root, below, p)
    requires task in ps && task in ps[p].children && ps[task].leader && n < tree.Length
    requires level == (depth[p] - depth[root] + 1) % USHORT && EntriesRight(ps, depth, root, below, tree[..n])
    modifies tree
    ensures i == n + 1 && EntriesRight(ps, depth, root, below, tree[..i])
    ensures Pids(tree[..i]) == old(Pids(tree[..n])) + [task]
  {
    CopiedOne(ps, depth, root, below, tree[..n], task, p);
    ghost var now := tree[..n] + [Copy(ps, task, level)];
    tree[n] := Copy(ps, task, level);
    i := n + 1;
    assert tree[..i] == now;
  }

  /** The for loop over the children of p: they are appended in order as long as there is room. */
  method CopyChildren(ps: Procs, ghost depth: map<nat, nat>, root: nat, ghost below: set<nat>, p: nat, level: nat,
                      tree: array<Prinfo>, n: nat)
    returns (i: nat)
    requires Family(ps, depth, root, below) && p in below && MemberRight(ps, depth, root, below, p) && n < tree.Length
    requires level == (depth[p] - depth[root] + 1) % USHORT && EntriesRight(ps, depth, root, below, tree[..n])
    modifies tree
    ensures n <= i <= tree.Length && EntriesRight(ps, depth, root, below, tree[..i])
    ensures Pids(tree[..i]) <= old(Pids(tree[..n])) + Kids(ps, p)
    ensures i == tree.Length || Pids(tree[..i]) == old(Pids(tree[..n])) + Kids(ps, p)
  {
    i := n;
    ghost var before := Pids(tree[..n]);
    var c, row := 0, ps[p].children;
    while c < |row| && i < tree.Length
      invariant 0 <= c <= |row| && n <= i <= tree.Length && EntriesRight(ps, depth, root, below, tree[..i])
      invariant Pids(tree[..i]) == before + Leaders(ps, row[..c])
    {
      var task := row[c];
      assert ChildRight(ps, depth, below, p, ps[p].children[c]);
      LeadersStep(ps, row, c);
      if ps[task].leader { i := PsCopy(ps, depth, root, below, p, task, level, tree, i); }
      c := c + 1;
    }
    RowEnds(ps, row, c, before, Pids(tree[..i]));
  }

  // ----- The queue index -----

  /** How many processes are known once the first `width` ones have been expanded. */
  ghost function Reach(ps: Procs, root: nat, width: nat): nat { 1 + |Flat(ps, Order(ps, root, width))| }

  /** More entries are asked for than a queue index of that many values can serve. */
  ghost predicate Overrun(ps: Procs, root: nat, knr: nat, width: nat) {
    |Order(ps, root, width)| == width && knr > Reach(ps, root, width)
  }

  /** The queue before the index has wrapped: still to be expanded from next on, or full. */
  ghost predicate Walking(ps: Procs, root: nat, knr: nat, width: nat, t: seq<nat>, next: nat) {
    && next < width && 0 < |t| <= knr
    && (Filled(ps, root, t, next) || Full(ps, root, knr, width, t))
  }

  ghost predicate Full(ps: Procs, root: nat, knr: nat, width: nat, t: seq<nat>) {
    |t| == knr && t == Order(ps, root, knr) && !Overrun(ps, root, knr, width)
  }

  /** The queue after the index has wrapped: the root's children are listed a second time. */
  ghost predicate Wrapped(ps: Procs, root: nat, knr: nat, width: nat, t: seq<nat>, next: nat) {
    var n := Reach(ps, root, width);
    && 1 < width <= n <= |t| <= knr && next < width && Overrun(ps, root, knr, width) && Kids(ps, root) != []
    && t[0] == root && t[1] == Kids(ps, root)[0]
    && ((next == 0 && |t| == n) || (|t| > n && t[n] == t[1]))
  }

  lemma {:induction false} OrderPrefix(ps: Procs, root: nat, t: seq<nat>, k: nat, m: nat)
    requires k <= |t| && k <= m && t <= Levels(ps, root, k + 1) && |Order(ps, root, m)| == m
    ensures t[..k] <= Order(ps, root, m)
  {
    var n := if m <= k + 1 then k + 1 else m;
    LevelsPrefix(ps, root, k + 1, n);
    EnoughLevels(ps, root, m, n);
    LevelsPrefix(ps, root, m, n);
  }

  /** A full queue whose last source lies within the index range was not overrun. */
  lemma {:induction false} FullInTime(ps: Procs, root: nat, t: seq<nat>, k: nat, knr: nat, width: nat)
    requires Filled(ps, root, t, k) && k <= width && knr <= |t|
    ensures !Overrun(ps, root, knr, width)
  {
    if |Order(ps, root, width)| == width {
      OrderPrefix(ps, root, t, k, width);
      FlatPrefix(ps, t[..k], Order(ps, root, width));
    }
  }

  lemma {:induction false} FlatOne(ps: Procs, x: nat)
    ensures Flat(ps, [x]) == Kids(ps, x)
  {
    assert [x][..0] == [];
    assert Flat(ps, [x][..0]) == [];
  }

  lemma {:induction false} NoChildren(ps: Procs, root: nat, n: nat)
    requires Kids(ps, root) == []
    ensures |Levels(ps, root, n)| <= 1
  {
    FlatOne(ps, root);
    UsedUp(ps, root, [root], n);
  }

  lemma {:induction false} SecondEntry(ps: Procs, root: nat, all: seq<nat>)
    requires 1 < |all| && all[0] == root && all <= [root] + Flat(ps, all) && Kids(ps, root) != []
    ensures all[1] == Kids(ps, root)[0]
  {
    FlatOne(ps, root);
    FlatAppend(ps, [root], all[1..]);
    assert all == [root] + all[1..];
    assert ([root] + Flat(ps, all))[1] == Flat(ps, all)[0];
  }

  lemma {:induction false} FirstChild(ps: Procs, root: nat, t: seq<nat>, n: nat)
    requires 1 < |t| && t <= Levels(ps, root, n + 1)
    ensures Kids(ps, root) != [] && t[0] == root && t[1] == Kids(ps, root)[0]
  {
    var all := Levels(ps, root, n + 1);
    if Kids(ps, root) == [] {
      NoChildren(ps, root, n + 1);
    } else {
      assert all[0] == root by { LevelsUnfold(ps, root, n); }
      assert all <= [root] + Flat(ps, all) by {
        LevelsUnfold(ps, root, n + 1);
        LevelsPrefix(ps, root, n + 1, n + 2);
      }
      SecondEntry(ps, root, all);
    }
  }

  /** When as many processes have been expanded as the index has values, it starts again from the root. */
  lemma {:induction false} IndexWraps(ps: Procs, root: nat, t: seq<nat>, knr: nat, width: nat)
    requires Filled(ps, root, t, width) && |t| < knr && width > 1
    ensures Wrapped(ps, root, knr, width, t, 0)
  {
    FirstChild(ps, root, t, width);
    PrefixIsOrder(ps, root, t[..width], width + 1);
  }

  /**
   * What one turn of the outer loop makes of the queue: the children of the next entry, as many as there is room
   * for.
   */
  ghost predicate Expanded(ps: Procs, knr: nat, t: seq<nat>, next: nat, t': seq<nat>)
    requires next < |t|
  {
    && |t| <= |t'| <= knr && t' <= t + Kids(ps, t[next])
    && (|t'| == knr || t' == t + Kids(ps, t[next]))
  }

  lemma {:induction false} TurnFull(ps: Procs, root: nat, knr: nat, width: nat, t: seq<nat>, next: nat, t': seq<nat>)
    requires Filled(ps, root, t, next) && next < width && next < |t| && Expanded(ps, knr, t, next, t') && |t'| == knr
    ensures Full(ps, root, knr, width, t')
  {
    NextFilled(ps, root, t, next);
    PrefixIsOrder(ps, root, t', next + 2);
    FullInTime(ps, root, t + Kids(ps, t[next]), next + 1, knr, width);
  }

  lemma {:induction false} TurnWalking(ps: Procs, root: nat, knr: nat, width: nat, t: seq<nat>, next: nat, t': seq<nat>)
    requires Filled(ps, root, t, next) && 1 < width && next < width && next < |t| < knr
             && Expanded(ps, knr, t, next, t')
    ensures if next + 1 < width || |t'| == knr
            then Walking(ps, root, knr, width, t', if next + 1 < width then next + 1 else 0)
            else Wrapped(ps, root, knr, width, t', 0)
  {
    if |t'| == knr {
      TurnFull(ps, root, knr, width, t, next, t');
    } else {
      NextFilled(ps, root, t, next);
      if next + 1 == width { IndexWraps(ps, root, t', knr, width); }
    }
  }

  lemma {:induction false} FirstTurn(ps: Procs, root: nat, knr: nat, t: seq<nat>, t': seq<nat>)
    requires Filled(ps, root, t, 0) && |t| < knr && Expanded(ps, knr, t, 0, t')
    ensures |t'| > |t| || |t'| == 1
  {
    assert t[..0] == [];
    assert Flat(ps, t[..0]) == [];
  }

  lemma {:induction false} TurnWrapped(ps: Procs, root: nat, knr: nat, width: nat, t: seq<nat>, next: nat, t': seq<nat>)
    requires Wrapped(ps, root, knr, width, t, next) && |t| < knr && Expanded(ps, knr, t, next, t')
    ensures Wrapped(ps, root, knr, width, t', if next + 1 < width then next + 1 else 0)
    ensures next == 0 && |t| == Reach(ps, root, width) ==> |t'| > |t|
  {
    assert t == t'[..|t|];
    assert forall i :: 0 <= i < |t| ==> t'[i] == t[i];
  }

  lemma {:induction false} WrappedAgain(ps: Procs, root: nat, knr: nat, width: nat, t: seq<nat>, t': seq<nat>)
    requires Wrapped(ps, root, knr, width, t, 0) && |t| < knr && Expanded(ps, knr, t, 0, t')
    ensures |t'| > |t|
  {
  }

  /** Before the index wraps, the end of the loop finds the level order. */
  lemma {:induction false} WalkingEnds(ps: Procs, root: nat, knr: nat, width: nat, t: seq<nat>, next: nat)
    requires Walking(ps, root, knr, width, t, next) && (next >= |t| || |t| >= knr)
    ensures t == Order(ps, root, knr) && !Overrun(ps, root, knr, width)
  {
    if Filled(ps, root, t, next) {
      if |t| == knr {
        PrefixIsOrder(ps, root, t, next + 1);
        FullInTime(ps, root, t, next, knr, width);
      } else {
        UsedUpIsOrder(ps, root, t, knr);
        UsedUpIsOrder(ps, root, t, width);
      }
    }
  }

  /** After it, an entry is listed twice. */
  lemma {:induction false} WrappedEnds(ps: Procs, depth: map<nat, nat>, root: nat, knr: nat, width: nat,
                                       t: seq<nat>, next: nat)
    requires Tree(ps, depth) && root in ps && Wrapped(ps, root, knr, width, t, next) && (next >= |t| || |t| >= knr)
    ensures t != Order(ps, root, knr) && Overrun(ps, root, knr, width)
  {
    LevelsOnce(ps, depth, root, knr);
    var n := Reach(ps, root, width);
    assert t[1] == t[n];
    OnceOrder(Levels(ps, root, knr), t, n);
  }

  lemma {:induction false} OnceOrder(all: seq<nat>, t: seq<nat>, n: nat)
    requires Distinct(all) && 1 < n < |t| && t[1] == t[n]
    ensures !(t <= all)
  {
  }

  /** If there are as many processes as the index has values, an array can be expanded that far. */
  lemma {:induction false} FilledUpTo(ps: Procs, root: nat, k: nat, width: nat) returns (t: seq<nat>)
    requires k <= width && |Order(ps, root, width)| == width
    ensures Filled(ps, root, t, k)
    decreases k
  {
    if k == 0 {
      t := [root];
      StartFilled(ps, root);
    } else {
      t := FilledUpTo(ps, root, k - 1, width);
      if |t| == k - 1 {
        assert t[..|t|] == t;
        UsedUp(ps, root, t, width);
      }
      NextFilled(ps, root, t, k - 1);
      t := t + Kids(ps, t[k - 1]);
    }
  }

  /** The index is not overrun if no more entries are asked for than it has values. */
  lemma {:induction false} NotOverrun(ps: Procs, root: nat, knr: nat, width: nat)
    requires knr <= width
    ensures !Overrun(ps, root, knr, width)
  {
    if |Order(ps, root, width)| == width {
      var t := FilledUpTo(ps, root, width, width);
      FullInTime(ps, root, t, width, knr, width);
    }
  }

  /** The first knr in level order, none twice, and if there are fewer then all: nothing reachable is missing. */
  ghost predicate FullListing(ps: Procs, root: nat, knr: nat, pids: seq<nat>) {
    && pids == Order(ps, root, knr) && |pids| <= knr && Distinct(pids)
    && (|pids| < knr ==> ClosedListing(ps, root, pids))
  }

  ghost predicate ClosedListing(ps: Procs, root: nat, pids: seq<nat>) {
    root in pids && forall x, y :: y in pids && x in Kids(ps, y) ==> x in pids
  }

  lemma {:induction false} OrderIsFull(ps: Procs, depth: map<nat, nat>, root: nat, knr: nat)
    requires Tree(ps, depth) && root in ps
    ensures FullListing(ps, root, knr, Order(ps, root, knr))
  {
    LevelsOnce(ps, depth, root, knr);
    if |Order(ps, root, knr)| < knr {
      AllIsClosed(ps, depth, root, knr, root, root);
      forall x, y | y in Order(ps, root, knr) && x in Kids(ps, y) ensures x in Order(ps, root, knr) {
        AllIsClosed(ps, depth, root, knr, x, y);
      }
    }
  }

  function NoProc(): Prinfo { Prinfo(0, 0, Info("", 0, 0), 0) }

  /** One turn of the outer loop. */
  method Expand(ps: Procs, ghost depth: map<nat, nat>, root: nat, ghost below: set<nat>, tree: array<Prinfo>,
                n: nat, next: nat)
    returns (i: nat)
    requires Family(ps, depth, root, below) && next < n < tree.Length && EntriesRight(ps, depth, root, below, tree[..n])
    modifies tree
    ensures n <= i <= tree.Length && EntriesRight(ps, depth, root, below, tree[..i])
    ensures Expanded(ps, tree.Length, old(Pids(tree[..n])), next, Pids(tree[..i]))
  {
    assert EntryRight(ps, depth, root, below, tree[..n][next]);
    var parent := tree[next].pid;
    assert parent == Pids(tree[..n])[next];
    assert MemberRight(ps, depth, root, below, parent);
    var level := GetLevel(ps, root, parent, depth, below);
    i := CopyChildren(ps, depth, root, below, parent, level, tree, n);
  }

  /** Where the queue stands, before or after the index has wrapped. */
  ghost predicate Going(ps: Procs, root: nat, knr: nat, width: nat, t: seq<nat>, next: nat) {
    Walking(ps, root, knr, width, t, next) || Wrapped(ps, root, knr, width, t, next)
  }

  lemma {:induction false} Turn(ps: Procs, root: nat, knr: nat, width: nat, t: seq<nat>, next: nat, t': seq<nat>)
    requires Going(ps, root, knr, width, t, next) && 1 < width && next < |t| < knr && Expanded(ps, knr, t, next, t')
    ensures Going(ps, root, knr, width, t', if next + 1 < width then next + 1 else 0)
    ensures next == 0 ==> |t'| > |t| || |t'| == 1
  {
    if Walking(ps, root, knr, width, t, next) {
      TurnWalking(ps, root, knr, width, t, next, t');
      if next == 0 { FirstTurn(ps, root, knr, t, t'); }
    } else {
      TurnWrapped(ps, root, knr, width, t, next, t');
      if next == 0 { WrappedAgain(ps, root, knr, width, t, t'); }
    }
  }

  lemma {:induction false} WalkEnds(ps: Procs, depth: map<nat, nat>, root: nat, knr: nat, width: nat, t: seq<nat>,
                                    next: nat)
    requires Tree(ps, depth) && root in ps && Going(ps, root, knr, width, t, next) && (next >= |t| || |t| >= knr)
    ensures t == Order(ps, root, knr) <==> !Overrun(ps, root, knr, width)
  {
    if Walking(ps, root, knr, width, t, next) {
      WalkingEnds(ps, root, knr, width, t, next);
    } else {
      WrappedEnds(ps, depth, root, knr, width, t, next);
    }
  }

  lemma {:induction false} NotOverrunIfFew(ps: Procs, root: nat, knr: nat, width: nat)
    ensures knr <= width ==> !Overrun(ps, root, knr, width)
  {
    if knr <= width { NotOverrun(ps, root, knr, width); }
  }

  /**
   * The listing a caller asked for: in level order exactly if the queue index was not overrun; nothing for a
   * thread.
   */
  ghost predicate Listing(ps: Procs, depth: map<nat, nat>, root: nat, knr: nat, width: nat, out: seq<Prinfo>) {
    && root in ps && EntriesRight(ps, depth, root, AllBelow(ps, depth, root), out)
    && (if ps[root].leader then Pids(out) == Order(ps, root, knr) <==> !Overrun(ps, root, knr, width) else out == [])
    && (ps[root].leader && (knr <= width || !Overrun(ps, root, knr, width)) ==> FullListing(ps, root, knr, Pids(out)))
  }

  /**
   * The walk under the task list lock, with a queue index of `width` values. It ends and every entry is right. It
   * lists the first knr processes in level order, none twice, and all of them if they are fewer, exactly unless the
   * index was overrun; that cannot be if knr is at most the width.
   */
  method Walk(ps: Procs, ghost depth: map<nat, nat>, root: nat, knr: nat, width: nat) returns (out: seq<Prinfo>)
    requires Tree(ps, depth) && root in ps && knr >= 1 && width > 1
    ensures Listing(ps, depth, root, knr, width, out)
  {
    ghost var below := AllBelow(ps, depth, root);
    AllBelowIsFamily(ps, depth, root);
    if !ps[root].leader { return []; }
    var tree := new Prinfo[knr](_ => NoProc());
    tree[0] := Copy(ps, root, 0);
    assert MemberRight(ps, depth, root, below, root);
    var i := FillTree(ps, depth, root, below, tree, width);
    NotOverrunIfFew(ps, root, knr, width);
    OrderIsFull(ps, depth, root, knr);
    return tree[..i];
  }

  /** The breadth-first loop, from an array that holds the root. */
  method FillTree(ps: Procs, ghost depth: map<nat, nat>, root: nat, ghost below: set<nat>, tree: array<Prinfo>,
                  width: nat)
    returns (i: nat)
    requires Tree(ps, depth) && root in ps && Family(ps, depth, root, below) && width > 1 && tree.Length >= 1
    requires tree[0].pid == root && EntryRight(ps, depth, root, below, tree[0])
    modifies tree
    ensures i <= tree.Length && EntriesRight(ps, depth, root, below, tree[..i])
    ensures Pids(tree[..i]) == Order(ps, root, tree.Length) <==> !Overrun(ps, root, tree.Length, width)
  {
    var knr, next: nat := tree.Length, 0;
    i := 1;
    assert Pids(tree[..1]) == [root];
    StartFilled(ps, root);
    while next < i && i < knr
      invariant i <= knr && EntriesRight(ps, depth, root, below, tree[..i])
      invariant Going(ps, root, knr, width, Pids(tree[..i]), next)
      decreases if next < i && i < knr then 1 else 0, knr - i, if next == 0 then 0 else width - next
    {
      ghost var t := Pids(tree[..i]);
      i := Expand(ps, depth, root, below, tree, i, next);
      Turn(ps, root, knr, width, t, next, Pids(tree[..i]));
      next := if next + 1 < width then next + 1 else 0;
    }
    WalkEnds(ps, depth, root, knr, width, Pids(tree[..i]), next);
  }

  // ----- An overrun -----

  function Upto(n: nat): (s: seq<nat>)
    ensures |s| == n
  {
    if n == 0 then [] else Upto(n - 1) + [n]
  }

  lemma {:induction false} UptoIs(n: nat)
    ensures forall i :: 0 <= i < n ==> Upto(n)[i] == i + 1
    decreases n
  {
    if n > 0 { UptoIs(n - 1); }
  }

  function StarProc(n: nat, p: nat): Proc { Proc(0, if p == 0 then Upto(n) else [], true, Info("", 0, 0)) }

  function StarDistance(p: nat): nat { if p == 0 then 0 else 1 }

  /** A root with n children and no grandchildren. */
  function Star(n: nat): Procs { map p: nat | 0 <= p <= n :: StarProc(n, p) }

  function StarDepth(n: nat): map<nat, nat> { map p: nat | 0 <= p <= n :: StarDistance(p) }

  lemma {:induction false} AllLeaders(ps: Procs, s: seq<nat>)
    requires forall i :: 0 <= i < |s| ==> s[i] in ps && ps[s[i]].leader
    ensures Leaders(ps, s) == s
    decreases |s|
  {
    if s != [] {
      AllLeaders(ps, s[..|s| - 1]);
      assert s == s[..|s| - 1] + [s[|s| - 1]];
    }
  }

  lemma {:induction false} NoGrandchildren(ps: Procs, s: seq<nat>)
    requires forall i :: 0 <= i < |s| ==> Kids(ps, s[i]) == []
    ensures Flat(ps, s) == []
    decreases |s|
  {
    if s != [] { NoGrandchildren(ps, s[..|s| - 1]); }
  }

  lemma {:induction false} StarKids(n: nat)
    ensures Kids(Star(n), 0) == Upto(n)
  {
    UptoIs(n);
    AllLeaders(Star(n), Upto(n));
  }

  lemma {:induction false} StarFlat(n: nat, s: seq<nat>)
    requires forall i :: 0 <= i < |s| ==> 0 < s[i] <= n
    ensures Flat(Star(n), [0] + s) == Upto(n)
  {
    var ps := Star(n);
    StarKids(n);
    FlatAppend(ps, [0], s);
    FlatOne(ps, 0);
    forall i | 0 <= i < |s| ensures Kids(ps, s[i]) == [] {
      assert ps[s[i]].children == [];
    }
    NoGrandchildren(ps, s);
  }

  lemma {:induction false} StarTree(n: nat)
    ensures Tree(Star(n), StarDepth(n)) && Star(n)[0].leader
  {
    var ps, depth := Star(n), StarDepth(n);
    UptoIs(n);
    forall p, i | p in ps && 0 <= i < |ps[p].children| ensures ChildOf(ps, depth, ps[p].children[i], p) {
      assert p == 0;
    }
    assert ChildrenOnce(ps);
  }

  lemma {:induction false} TwoLevels(ps: Procs, root: nat, n: nat)
    ensures [root] + Kids(ps, root) <= Levels(ps, root, n + 2)
  {
    LevelsUnfold(ps, root, n);
    var all := Levels(ps, root, n + 1);
    FlatOne(ps, root);
    FlatPrefix(ps, [root], all);
    PrefixUnder(root, Kids(ps, root), Flat(ps, all));
    LevelsUnfold(ps, root, n + 1);
  }

  lemma {:induction false} FirstOfTwoLevels(ps: Procs, root: nat, kids: seq<nat>, width: nat)
    requires 1 < width <= |kids| && Kids(ps, root) == kids && Flat(ps, [root] + kids) == kids
    ensures Order(ps, root, width) == [root] + kids[..width - 1]
  {
    OnlyTwoLevels(ps, root, kids, width - 2);
    assert ([root] + kids)[..width] == [root] + kids[..width - 1];
  }

  lemma {:induction false} OnlyTwoLevels(ps: Procs, root: nat, kids: seq<nat>, n: nat)
    requires Kids(ps, root) == kids && Flat(ps, [root] + kids) == kids
    ensures Levels(ps, root, n + 2) == [root] + kids
  {
    TwoLevels(ps, root, n);
    UsedUp(ps, root, [root] + kids, n + 2);
    SameLength([root] + kids, Levels(ps, root, n + 2));
  }

  lemma {:induction false} SameLength(a: seq<nat>, b: seq<nat>)
    requires a <= b && b <= a
    ensures a == b
  {
  }

  /** The index is overrun by as small a tree as a root with one child per value of the index. */
  lemma {:induction false} StarOverruns(width: nat)
    requires width > 1
    ensures Tree(Star(width), StarDepth(width)) && Star(width)[0].leader
    ensures Overrun(Star(width), 0, width + 2, width)
  {
    StarTree(width);
    UptoIs(width);
    StarKids(width);
    StarFlat(width, Upto(width));
    FirstOfTwoLevels(Star(width), 0, Upto(width), width);
    StarFlat(width, Upto(width)[..width - 1]);
  }

  // ----- The system call -----

  /** The return value, and what was written to the caller's count and buffer. */
  datatype Outcome = Outcome(ret: int, nr: Option<int>, buf: Option<seq<Prinfo>>)

  /** What the caller's memory and the allocator do: None for an address that faults. */
  datatype Caller = Caller(pointers: bool, nr: Option<int>, nrWritable: bool, bufWritable: bool, memory: bool)

  /** get_root: process 0 is always there. */
  method GetRoot(ps: Procs, pid: int) returns (root: Option<nat>)
    ensures root.Some? <==> pid == 0 || (pid > 0 && pid in ps)
    ensures root.Some? ==> root.value == pid
  {
    if pid == 0 { return Some(0); }
    if pid > 0 && pid in ps { return Some(pid); }
    return None;
  }

  /** What is written to the caller: the count only if it differs, before the buffer; copying nothing cannot fail. */
  ghost predicate Told(c: Caller, knr: int, out: seq<Prinfo>, r: Outcome) {
    && (|out| != knr && !c.nrWritable ==> r == Outcome(-EFAULT, None, None))
    && (|out| == knr || c.nrWritable ==>
          && r.nr == (if |out| != knr then Some(|out|) else None)
          && (c.bufWritable || out == [] ==> r.ret == 0 && r.buf == Some(out))
          && (!c.bufWritable && out != [] ==> r.ret == -EFAULT && r.buf == None))
  }

  /** The errors in their order; otherwise the listing below the root asked for. */
  method DoPtree(ps: Procs, ghost depth: map<nat, nat>, c: Caller, rootPid: int, width: nat)
    returns (r: Outcome, ghost out: seq<Prinfo>)
    requires Tree(ps, depth) && width > 1
    ensures var here := rootPid == 0 || (rootPid > 0 && rootPid in ps);
            if !c.pointers then r == Outcome(-EINVAL, None, None)
            else if c.nr.None? then r == Outcome(-EFAULT, None, None)
            else if c.nr.value < 1 then r == Outcome(-EINVAL, None, None)
            else if !c.memory then r == Outcome(-1, None, None)
            else if !here then r == Outcome(-ESRCH, None, None)
            else Listing(ps, depth, rootPid, c.nr.value, width, out) && Told(c, c.nr.value, out, r)
  {
    out := [];
    if !c.pointers { return Outcome(-EINVAL, None, None), out; }
    if c.nr.None? { return Outcome(-EFAULT, None, None), out; }
    var knr := c.nr.value;
    if knr < 1 { return Outcome(-EINVAL, None, None), out; }
    if !c.memory { return Outcome(-1, None, None), out; }
    var root := GetRoot(ps, rootPid);
    if root.None? { return Outcome(-ESRCH, None, None), out; }
    var tree := Walk(ps, depth, root.value, knr, width);
    out := tree;
    var nr: Option<int> := None;
    if |tree| != knr {
      if !c.nrWritable { return Outcome(-EFAULT, None, None), out; }
      nr := Some(|tree|);
    }
    if !c.bufWritable && tree != [] { return Outcome(-EFAULT, nr, None), out; }
    return Outcome(0, nr, Some(tree)), out;
  }
}
