/**
 Admission of real-time bandwidth in the task-group tree (CONFIG_RT_GROUP_SCHED).
 Periods and runtimes are 64-bit unsigned: the shift in the ratio and the sum over the children wrap.
 */
module RtAdmission {
  import opened TaskGroups

  const U64: nat := 0x1_0000_0000_0000_0000
  const RUNTIME_INF: nat := 0xFFFF_FFFF_FFFF_FFFF
  const BW_UNIT: nat := 0x10_0000
  const NSEC_PER_USEC: nat := 1000
  const EINVAL := 22
  const EBUSY := 16
  /** More groups than this do not fit a 64-bit address space; allocating one more fails. */
  const MAX_GROUPS: nat := 0x1000_0000_0000

  datatype Bw = Bw(period: nat, runtime: nat) {
    predicate Fits() { period < U64 && runtime < U64 }

    function Ratio(): nat {
      if runtime == RUNTIME_INF then BW_UNIT
      else if period == 0 then 0
      else ((runtime * BW_UNIT) % U64) / period
    }

    /** The part of the period that is asked for, in the same units. */
    function Share(): nat {
      if runtime == RUNTIME_INF then BW_UNIT
      else if period == 0 then 0
      else (runtime * BW_UNIT) / period
    }

    predicate AtMostPeriod() { runtime <= period || runtime == RUNTIME_INF }

    /** Runtimes for which the shift of the ratio does not wrap. */
    predicate Small() { runtime < 0x1000_0000_0000 || runtime == RUNTIME_INF }
  }

  /** sysctl_sched_rt_period (unsigned int) and sysctl_sched_rt_runtime (int). */
  datatype Sysctl = Sysctl(period: nat, runtime: int) {
    predicate Fits() { period < 0x1_0000_0000 && -0x8000_0000 <= runtime < 0x8000_0000 }

    function Global(): Bw {
      Bw(period * NSEC_PER_USEC, if runtime < 0 then RUNTIME_INF else runtime * NSEC_PER_USEC)
    }

    /** sched_rt_global_validate: comparing the signed runtime with the unsigned period is unsigned. */
    predicate Accepted() {
      period != 0 && (runtime == -1 || (if runtime < 0 then runtime + 0x1_0000_0000 else runtime) <= period)
    }
  }

  lemma {:induction false} GlobalAtMostOne(c: Sysctl)
    requires c.Fits() && c.Accepted()
    ensures c.Global().Ratio() <= BW_UNIT
  {
    if c.runtime >= 0 {
      var r, p := c.runtime * NSEC_PER_USEC, c.period * NSEC_PER_USEC;
      assert r * BW_UNIT < U64;
      assert r * BW_UNIT <= BW_UNIT * p;
      DivAtMost(r * BW_UNIT, p, BW_UNIT);
    }
  }

  lemma {:induction false} DivAtMost(x: nat, d: nat, q: nat)
    requires d > 0 && x <= q * d
    ensures x / d <= q
  {
  }

  /** The ratio is the share of the period asked for exactly for runtimes below 2^44 ns, and for no limit. */
  lemma {:induction false} RatioIsShare(b: Bw)
    requires b.Fits() && b.period > 0
    ensures b.Ratio() == b.Share() <==> b.Small()
  {
    var x := b.runtime * BW_UNIT;
    if !b.Small() {
      assert x % U64 + b.period <= x;
      DivStep(x % U64, x, b.period);
    }
  }

  lemma {:induction false} DivStep(y: nat, x: nat, d: nat)
    requires d > 0 && y + d <= x
    ensures y / d < x / d
  {
    var q := y / d;
    assert (q + 1) * d <= x;
  }

  /** A group asking for the whole of a period of 2^44 ns counts as asking for nothing. */
  lemma {:induction false} RatioWraps()
    ensures Bw(0x1000_0000_0000, 0x1000_0000_0000).Ratio() == 0
  {
    assert 0x1000_0000_0000 * BW_UNIT == U64;
  }

  /** The override a caller asks about; no group for NULL. */
  datatype Data = Nobody | Data(tg: nat, bw: Bw)

  function Effective(bw: seq<Bw>, d: Data, g: nat): Bw
    requires g < |bw|
  {
    if d.Data? && g == d.tg then d.bw else bw[g]
  }

  function With(bw: seq<Bw>, d: Data): (bw': seq<Bw>)
    ensures |bw'| == |bw|
  {
    if d.Data? && d.tg < |bw| then bw[d.tg := d.bw] else bw
  }

  /** The ratios of g's children from the i-th on. */
  function SumFrom(t: Tree, bw: seq<Bw>, g: nat, i: nat): nat
    requires t.Valid() && |bw| == |t.parent| && g < |t.parent| && i <= |t.children[g]|
    decreases |t.children[g]| - i
  {
    if i == |t.children[g]| then 0 else bw[t.children[g][i]].Ratio() + SumFrom(t, bw, g, i + 1)
  }

  /** What tg_rt_schedulable returns for group g. */
  function Schedulable(t: Tree, bw: seq<Bw>, c: Sysctl, hasRt: set<nat>, g: nat): int
    requires t.Valid() && |bw| == |t.parent|
  {
    if g >= |bw| then 0
    else if bw[g].runtime > bw[g].period && bw[g].runtime != RUNTIME_INF then -EINVAL
    else if c.runtime >= 0 && bw[g].runtime == 0 && g in hasRt then -EBUSY
    else if bw[g].Ratio() > c.Global().Ratio() then -EINVAL
    else if SumFrom(t, bw, g, 0) % U64 > bw[g].Ratio() then -EINVAL
    else 0
  }

  ghost predicate AllPass(t: Tree, bw: seq<Bw>, c: Sysctl, hasRt: set<nat>)
    requires t.Valid() && |bw| == |t.parent|
  {
    forall g: nat :: g < |bw| ==> Schedulable(t, bw, c, hasRt, g) == 0
  }

  function Tester(t: Tree, bw: seq<Bw>, c: Sysctl, hasRt: set<nat>): nat -> int
    requires t.Valid() && |bw| == |t.parent|
  {
    (g: nat) => Schedulable(t, bw, c, hasRt, g)
  }

  lemma {:induction false} Carry(sum: nat, ratio: nat, rest: nat, before: nat, all: nat)
    requires before == ratio + rest && (sum + before) % U64 == all % U64
    ensures ((sum + ratio) % U64 + rest) % U64 == all % U64
  {
    ModAdd(sum + ratio, rest);
  }

  /** The loop over the children, with the override looked up entry by entry. */
  method ChildrenSum(t: Tree, bw: seq<Bw>, d: Data, g: nat) returns (sum: nat)
    requires t.Valid() && |bw| == |t.parent| && g < |bw|
    ensures sum == SumFrom(t, With(bw, d), g, 0) % U64
  {
    ghost var all := SumFrom(t, With(bw, d), g, 0);
    sum := 0;
    for i := 0 to |t.children[g]|
      invariant sum < U64 && (sum + SumFrom(t, With(bw, d), g, i)) % U64 == all % U64
    {
      var ratio := Effective(bw, d, t.children[g][i]).Ratio();
      Carry(sum, ratio, SumFrom(t, With(bw, d), g, i + 1), SumFrom(t, With(bw, d), g, i), all);
      sum := (sum + ratio) % U64;
    }
  }

  method TgRtSchedulable(t: Tree, bw: seq<Bw>, c: Sysctl, hasRt: set<nat>, d: Data, g: nat) returns (err: int)
    requires t.Valid() && |bw| == |t.parent| && g < |bw|
    ensures err == Schedulable(t, With(bw, d), c, hasRt, g)
    ensures var b := With(bw, d)[g];
            var starves := c.runtime >= 0 && b.runtime == 0 && g in hasRt;
            && err in {0, -EINVAL, -EBUSY} && (err == -EBUSY <==> b.AtMostPeriod() && starves)
            && (err == 0 <==> && b.AtMostPeriod() && !starves && b.Ratio() <= c.Global().Ratio()
                              && SumFrom(t, With(bw, d), g, 0) % U64 <= b.Ratio())
  {
    var own := Effective(bw, d, g);
    if own.runtime > own.period && own.runtime != RUNTIME_INF { return -EINVAL; }
    if c.runtime >= 0 && own.runtime == 0 && g in hasRt { return -EBUSY; }
    var total := own.Ratio();
    if total > c.Global().Ratio() { return -EINVAL; }
    var sum := ChildrenSum(t, bw, d, g);
    return if sum > total then -EINVAL else 0;
  }

  lemma {:induction false} ModAdd(x: nat, y: nat)
    ensures (x % U64 + y) % U64 == (x + y) % U64
  {
    var q := x / U64;
    assert x == q * U64 + x % U64;
    ModShift(x % U64 + y, q);
  }

  lemma {:induction false} ModShift(x: nat, q: nat)
    ensures (x + q * U64) % U64 == x % U64
    decreases q
  {
    if q > 0 {
      ModShift(x, q - 1);
      assert x + q * U64 == (x + (q - 1) * U64) + U64;
    }
  }

  // ----- The state and what every accepted change keeps -----

  datatype State = State(tree: Tree, bw: seq<Bw>, sysctl: Sysctl, defPeriod: nat)

  /** No group above its parent's share of what is allowed globally. */
  ghost predicate Admitted(t: Tree, bw: seq<Bw>, limit: nat)
    requires t.Valid() && |bw| == |t.parent|
  {
    forall g :: 0 <= g < |bw| ==> SumFrom(t, bw, g, 0) <= bw[g].Ratio() <= limit
  }

  ghost predicate Valid(s: State) {
    && s.tree.Valid() && |s.bw| == |s.tree.parent| <= MAX_GROUPS
    && (forall g :: 0 <= g < |s.bw| ==> |s.tree.children[g]| < |s.bw|)
    && s.sysctl.Fits() && s.sysctl.Accepted()
    && Admitted(s.tree, s.bw, s.sysctl.Global().Ratio())
  }

  lemma {:induction false} SumAtMost(t: Tree, bw: seq<Bw>, g: nat, i: nat)
    requires t.Valid() && |bw| == |t.parent| && g < |t.parent| && i <= |t.children[g]|
    requires forall x :: 0 <= x < |bw| ==> bw[x].Ratio() <= BW_UNIT
    ensures SumFrom(t, bw, g, i) <= (|t.children[g]| - i) * BW_UNIT
    decreases |t.children[g]| - i
  {
    if i < |t.children[g]| { SumAtMost(t, bw, g, i + 1); }
  }

  /** If all groups pass then each sum of children is at most its parent's ratio: no sum can have wrapped. */
  lemma {:induction false} PassingMeansAdmitted(t: Tree, bw: seq<Bw>, c: Sysctl, hasRt: set<nat>)
    requires t.Valid() && |bw| == |t.parent| <= MAX_GROUPS
    requires forall g :: 0 <= g < |bw| ==> |t.children[g]| < |bw|
    requires c.Fits() && c.Accepted()
    requires AllPass(t, bw, c, hasRt)
    ensures Admitted(t, bw, c.Global().Ratio())
  {
    GlobalAtMostOne(c);
    forall g | 0 <= g < |bw| ensures bw[g].Ratio() <= c.Global().Ratio() {
      assert Schedulable(t, bw, c, hasRt, g) == 0;
    }
    forall g: nat | g < |bw| ensures SumFrom(t, bw, g, 0) <= bw[g].Ratio() {
      SumAtMost(t, bw, g, 0);
      NoWrap(SumFrom(t, bw, g, 0), |t.children[g]|);
      assert Schedulable(t, bw, c, hasRt, g) == 0;
    }
  }

  /**
   What is to hold of a change: the tree is admitted, nobody has more runtime than period, and while runtimes are
   limited no group with RT tasks is left without any.
   */
  ghost predicate Sound(t: Tree, bw: seq<Bw>, c: Sysctl, hasRt: set<nat>)
    requires t.Valid() && |bw| == |t.parent|
  {
    && Admitted(t, bw, c.Global().Ratio()) && (forall g :: 0 <= g < |bw| ==> bw[g].AtMostPeriod())
    && (c.runtime >= 0 ==> forall g :: 0 <= g < |bw| && g in hasRt ==> bw[g].runtime != 0)
  }

  lemma {:induction false} PassIffSound(t: Tree, bw: seq<Bw>, c: Sysctl, hasRt: set<nat>)
    requires t.Valid() && |bw| == |t.parent| <= MAX_GROUPS
    requires forall g :: 0 <= g < |bw| ==> |t.children[g]| < |bw|
    requires c.Fits() && c.Accepted()
    ensures AllPass(t, bw, c, hasRt) <==> Sound(t, bw, c, hasRt)
  {
    if AllPass(t, bw, c, hasRt) {
      PassingMeansAdmitted(t, bw, c, hasRt);
      forall g | 0 <= g < |bw|
        ensures bw[g].AtMostPeriod() && (c.runtime >= 0 && g in hasRt ==> bw[g].runtime != 0)
      {
        assert Schedulable(t, bw, c, hasRt, g) == 0;
      }
    }
    if Sound(t, bw, c, hasRt) {
      GlobalAtMostOne(c);
      forall g: nat | g < |bw| ensures Schedulable(t, bw, c, hasRt, g) == 0 {
        assert SumFrom(t, bw, g, 0) <= bw[g].Ratio() <= BW_UNIT;
        SmallMod(SumFrom(t, bw, g, 0));
      }
    }
  }

  lemma {:induction false} SmallMod(x: nat)
    requires x <= BW_UNIT
    ensures x % U64 == x
  {
  }

  lemma {:induction false} NoWrap(sum: nat, n: nat)
    requires n < MAX_GROUPS && sum <= n * BW_UNIT
    ensures sum % U64 == sum
  {
  }

  lemma {:induction false} SumIgnores(t: Tree, bw: seq<Bw>, t': Tree, bw': seq<Bw>, g: nat, i: nat, i': nat)
    requires t.Valid() && |bw| == |t.parent| && g < |t.parent| && i <= |t.children[g]|
    requires t'.Valid() && |bw'| == |t'.parent| && g < |t'.parent| && i' <= |t'.children[g]|
    requires t.children[g][i..] == t'.children[g][i'..]
    requires forall x :: x in t.children[g] ==> x < |bw'| && bw'[x] == bw[x]
    ensures SumFrom(t, bw, g, i) == SumFrom(t', bw', g, i')
    decreases |t.children[g]| - i
  {
    assert |t.children[g]| - i == |t'.children[g]| - i';
    if i < |t.children[g]| {
      assert t.children[g][i] == t.children[g][i..][0] == t'.children[g][i'..][0] == t'.children[g][i'];
      assert t.children[g][i + 1..] == t.children[g][i..][1..] == t'.children[g][i' + 1..];
      SumIgnores(t, bw, t', bw', g, i + 1, i' + 1);
    }
  }

  /** A new group has no runtime, so its ratio is 0 and no sum changes. */
  lemma {:induction false} CreateAdmitted(s: State, p: nat)
    requires Valid(s) && p < |s.bw| < MAX_GROUPS
    ensures Valid(State(s.tree.Create(p), s.bw + [Bw(s.defPeriod, 0)], s.sysctl, s.defPeriod))
  {
    var t', bw' := s.tree.Create(p), s.bw + [Bw(s.defPeriod, 0)];
    ZeroRatio(s.defPeriod);
    forall g | 0 <= g < |bw'|
      ensures |t'.children[g]| < |bw'| && SumFrom(t', bw', g, 0) <= bw'[g].Ratio() <= s.sysctl.Global().Ratio()
    {
      if g < |s.bw| {
        assert forall x :: x in s.tree.children[g] ==> x < |s.bw|;
        SumIgnores(s.tree, s.bw, t', bw', g, 0, if g == p then 1 else 0);
        if g == p { assert t'.children[p][0] == |s.bw|; }
      }
    }
  }

  lemma {:induction false} ZeroRatio(period: nat)
    ensures Bw(period, 0).Ratio() == 0
  {
  }

  // ----- Any set of groups, none above another -----

  ghost predicate Antichain(t: Tree, s: set<nat>)
    requires t.Valid()
  {
    && (forall g :: g in s ==> g < |t.parent|)
    && (forall a, b :: a in s && b in s && a != b ==> !IsAncestor(t, a, b))
  }

  /** The ratios of the groups of s numbered below k. */
  ghost function Total(bw: seq<Bw>, s: set<nat>, k: nat): nat
    requires k <= |bw|
  {
    if k == 0 then 0 else Total(bw, s, k - 1) + if k - 1 in s then bw[k - 1].Ratio() else 0
  }

  lemma {:induction false} TotalSplits(bw: seq<Bw>, s: set<nat>, a: set<nat>, b: set<nat>, k: nat)
    requires k <= |bw| && s == a + b && a !! b
    ensures Total(bw, s, k) == Total(bw, a, k) + Total(bw, b, k)
  {
    if k > 0 { TotalSplits(bw, s, a, b, k - 1); }
  }

  lemma {:induction false} TotalOne(bw: seq<Bw>, s: set<nat>, g: nat, k: nat)
    requires g < |bw| && k <= |bw| && s <= {g}
    ensures Total(bw, s, k) <= bw[g].Ratio() && (s == {} || g >= k ==> Total(bw, s, k) == 0)
  {
    if k > 0 { TotalOne(bw, s, g, k - 1); }
  }

  /** Groups below g, none above another, together ask at most what g asks. */
  lemma {:induction false} AntichainWithin(t: Tree, bw: seq<Bw>, limit: nat, g: nat, s: set<nat>)
    requires t.Valid() && |bw| == |t.parent| && g < |t.parent| && Admitted(t, bw, limit)
    requires Antichain(t, s) && forall x :: x in s ==> IsAncestor(t, g, x)
    ensures Total(bw, s, |bw|) <= bw[g].Ratio()
    decreases |t.parent| - g, |t.children[g]| + 1
  {
    if g in s {
      assert s <= {g};
      TotalOne(bw, s, g, |bw|);
    } else {
      forall x | x in s ensures BelowFrom(t, g, 0, x) { BelowIsBelowChild(t, g, x); }
      AntichainWithinFrom(t, bw, limit, g, 0, s);
    }
  }

  lemma {:induction false} AntichainWithinFrom(t: Tree, bw: seq<Bw>, limit: nat, g: nat, i: nat, s: set<nat>)
    requires t.Valid() && |bw| == |t.parent| && g < |t.parent| && i <= |t.children[g]| && Admitted(t, bw, limit)
    requires Antichain(t, s) && forall x :: x in s ==> BelowFrom(t, g, i, x)
    ensures Total(bw, s, |bw|) <= SumFrom(t, bw, g, i)
    decreases |t.parent| - g, |t.children[g]| - i
  {
    if i == |t.children[g]| {
      assert s == {};
      TotalOne(bw, s, g, |bw|);
    } else {
      var c := t.children[g][i];
      var a := set x | x in s && IsAncestor(t, c, x);
      var b := s - a;
      forall x | x in b ensures BelowFrom(t, g, i + 1, x) { BelowOneMore(t, g, i, x); }
      AntichainWithin(t, bw, limit, c, a);
      AntichainWithinFrom(t, bw, limit, g, i + 1, b);
      TotalSplits(bw, s, a, b, |bw|);
    }
  }

  lemma {:induction false} RootAboveAll(t: Tree, x: nat)
    requires t.Valid() && x < |t.parent|
    ensures IsAncestor(t, 0, x)
    decreases x
  {
    if x > 0 { RootAboveAll(t, t.parent[x]); }
  }

  /** The bandwidth of any such set is within the root's, which is within the global limit. */
  lemma {:induction false} AntichainWithinRoot(s: State, groups: set<nat>)
    requires Valid(s) && Antichain(s.tree, groups)
    ensures Total(s.bw, groups, |s.bw|) <= s.bw[0].Ratio() <= s.sysctl.Global().Ratio() <= BW_UNIT
  {
    forall x | x in groups ensures IsAncestor(s.tree, 0, x) { RootAboveAll(s.tree, x); }
    AntichainWithin(s.tree, s.bw, s.sysctl.Global().Ratio(), 0, groups);
    GlobalAtMostOne(s.sysctl);
  }

  /** The true shares of the groups of s numbered below k. */
  ghost function ShareTotal(bw: seq<Bw>, s: set<nat>, k: nat): nat
    requires k <= |bw|
  {
    if k == 0 then 0 else ShareTotal(bw, s, k - 1) + if k - 1 in s then bw[k - 1].Share() else 0
  }

  lemma {:induction false} SharesAreRatios(bw: seq<Bw>, s: set<nat>, k: nat)
    requires k <= |bw| && forall g :: g in s && g < |bw| ==> bw[g].Small() && bw[g].Fits()
    ensures ShareTotal(bw, s, k) == Total(bw, s, k)
    decreases k
  {
    if k > 0 {
      SharesAreRatios(bw, s, k - 1);
      if k - 1 in s && bw[k - 1].period > 0 { RatioIsShare(bw[k - 1]); }
    }
  }

  /** What independent groups truly ask for is within the root's ratio if none of their runtimes wraps. */
  lemma {:induction false} SharesWithinRoot(s: State, groups: set<nat>)
    requires Valid(s) && Antichain(s.tree, groups) && forall g :: g in groups ==> s.bw[g].Small() && s.bw[g].Fits()
    ensures ShareTotal(s.bw, groups, |s.bw|) <= s.bw[0].Ratio() <= s.sysctl.Global().Ratio() <= BW_UNIT
  {
    AntichainWithinRoot(s, groups);
    SharesAreRatios(s.bw, groups, |s.bw|);
  }

  // ----- Runs -----

  datatype Op =
    | Create(p: nat, memory: bool)
    | SetBandwidth(tg: nat, bw: Bw, hasRt: set<nat>)
    | SetLimits(sysctl: Sysctl, hasRt: set<nat>, dlAccepts: bool)

  /** A change is taken exactly when it is no forbidden one and every group passes with it. */
  ghost function Next(s: State, op: Op): State
    requires Valid(s)
  {
    match op
    case Create(p, memory) =>
      if p < |s.bw| && memory && |s.bw| < MAX_GROUPS
      then s.(tree := s.tree.Create(p), bw := s.bw + [Bw(s.defPeriod, 0)]) else s
    case SetBandwidth(tg, bw, hasRt) =>
      if && tg < |s.bw| && bw.Fits() && bw.period != 0 && !(tg == 0 && bw.runtime == 0)
         && AllPass(s.tree, s.bw[tg := bw], s.sysctl, hasRt)
      then s.(bw := s.bw[tg := bw]) else s
    case SetLimits(sysctl, hasRt, dlAccepts) =>
      if sysctl.Fits() && sysctl.Accepted() && dlAccepts && AllPass(s.tree, s.bw, sysctl, hasRt)
      then s.(sysctl := sysctl, defPeriod := sysctl.Global().period) else s
  }

  lemma {:induction false} NextValid(s: State, op: Op)
    requires Valid(s)
    ensures Valid(Next(s, op))
  {
    match op
    case Create(p, memory) =>
      if p < |s.bw| && memory && |s.bw| < MAX_GROUPS { CreateAdmitted(s, p); }
    case SetBandwidth(tg, bw, hasRt) =>
      if tg < |s.bw| && AllPass(s.tree, s.bw[tg := bw], s.sysctl, hasRt) {
        PassingMeansAdmitted(s.tree, s.bw[tg := bw], s.sysctl, hasRt);
      }
    case SetLimits(sysctl, hasRt, dlAccepts) =>
      if sysctl.Fits() && sysctl.Accepted() && AllPass(s.tree, s.bw, sysctl, hasRt) {
        PassingMeansAdmitted(s.tree, s.bw, sysctl, hasRt);
      }
  }

  ghost function RunAll(s: State, ops: seq<Op>): State
    requires Valid(s)
    decreases |ops|
  {
    if ops == [] then s else (NextValid(s, ops[0]); RunAll(Next(s, ops[0]), ops[1..]))
  }

  /** After any run, the ratios of independent groups are within the root's, and that within the global one. */
  lemma {:induction false} RunAdmitted(s: State, ops: seq<Op>, groups: set<nat>)
    requires Valid(s)
    ensures var r := RunAll(s, ops);
            && Valid(r)
            && (Antichain(r.tree, groups) ==>
                  Total(r.bw, groups, |r.bw|) <= r.bw[0].Ratio() <= r.sysctl.Global().Ratio() <= BW_UNIT)
    decreases |ops|
  {
    if ops == [] {
      if Antichain(s.tree, groups) { AntichainWithinRoot(s, groups); }
    } else {
      NextValid(s, ops[0]);
      RunAdmitted(Next(s, ops[0]), ops[1..], groups);
    }
  }

  // ----- A run that oversubscribes -----

  /** The root group with the default limits, and any number of groups below it. */
  function Default(children: seq<Bw>): State {
    State(Tree(seq(|children| + 1, _ => 0), [Down(|children|)] + seq(|children|, _ => [])),
          [Bw(1_000_000_000, 950_000_000)] + children, Sysctl(1_000_000, 950_000), 1_000_000_000)
  }

  /** n, n - 1, down to 1: the newest child comes first. */
  function Down(n: nat): seq<nat> {
    if n == 0 then [] else [n] + Down(n - 1)
  }

  /** All of a period of a little more than 2^44 ns, a whole number of microseconds: about five hours. */
  function Everything(): Bw { Bw(17_592_186_045_000, 17_592_186_045_000) }

  lemma {:induction false} EverythingCountsAsNothing()
    ensures Everything().Ratio() == 0 && Everything().Share() == BW_UNIT
  {
    var x := 17_592_186_045_000 * BW_UNIT;
    assert x == U64 + 584 * BW_UNIT;
    assert x % U64 == 584 * BW_UNIT;
  }

  lemma {:induction false} DefaultValid(children: seq<Bw>)
    requires |children| <= 2
    requires forall i :: 0 <= i < |children| ==>
               children[i].Ratio() == 0 && children[i].runtime <= children[i].period
    ensures Valid(Default(children))
            && AllPass(Default(children).tree, Default(children).bw, Default(children).sysctl, {})
  {
    var s := Default(children);
    DefaultTree(children);
    DefaultRatios(children);
    forall g: nat | g < |s.bw| ensures SumFrom(s.tree, s.bw, g, 0) == 0 { NoSum(s.tree, s.bw, g, 0); }
  }

  lemma {:induction false} DefaultTree(children: seq<Bw>)
    requires |children| <= 2
    ensures var t := Default(children).tree;
            t.Valid() && forall g :: 0 <= g <= |children| ==> |t.children[g]| <= |children|
  {
    assert Down(0) == [] && Down(1) == [1] + [] && Down(2) == [2] + Down(1);
  }

  /** A new group, as the second and the third are created. */
  lemma {:induction false} DefaultGrows(children: seq<Bw>)
    requires |children| <= 1 && forall i :: 0 <= i < |children| ==> children[i] == Bw(1_000_000_000, 0)
    ensures Valid(Default(children))
    ensures Next(Default(children), Create(0, true)) == Default(children + [Bw(1_000_000_000, 0)])
  {
    DefaultValid(children);
    var n, s, t := |children|, Default(children), Default(children + [Bw(1_000_000_000, 0)]);
    assert t.tree.parent == s.tree.parent + [0];
    assert t.tree.children == s.tree.children[0 := [n + 1] + s.tree.children[0]] + [[]] by {
      assert Down(n + 1) == [n + 1] + Down(n);
      assert seq<seq<nat>>(n + 1, _ => []) == seq<seq<nat>>(n, _ => []) + [[]];
    }
    assert t.bw == s.bw + [Bw(1_000_000_000, 0)];
  }

  /** Giving group i + 1 everything is accepted. */
  lemma {:induction false} DefaultTakes(children: seq<Bw>, i: nat)
    requires i < |children| <= 2 && children[i] == Bw(1_000_000_000, 0)
    requires forall j :: 0 <= j < |children| ==> children[j] == Bw(1_000_000_000, 0) || children[j] == Everything()
    ensures Valid(Default(children))
    ensures Next(Default(children), SetBandwidth(i + 1, Everything(), {})) == Default(children[i := Everything()])
  {
    EverythingCountsAsNothing();
    ZeroRatio(1_000_000_000);
    var after := children[i := Everything()];
    var s, t := Default(children), Default(after);
    DefaultValid(children);
    DefaultValid(after);
    assert s.bw[i + 1 := Everything()] == t.bw && s.tree == t.tree && s.sysctl == t.sysctl;
    assert AllPass(s.tree, s.bw[i + 1 := Everything()], s.sysctl, {});
  }

  /** Two groups are created below the root, and each is given the whole of a long period. */
  function Greedy(): seq<Op> {
    [Create(0, true), Create(0, true), SetBandwidth(1, Everything(), {}), SetBandwidth(2, Everything(), {})]
  }

  lemma {:induction false} RunStep(s: State, ops: seq<Op>, t: State)
    requires Valid(s) && ops != [] && Next(s, ops[0]) == t
    ensures Valid(t) && RunAll(s, ops) == RunAll(t, ops[1..])
  {
    NextValid(s, ops[0]);
  }

  /** Both changes are accepted, and together the two groups truly ask for twice the whole. */
  lemma {:induction false} Oversubscribed(ops: seq<Op>)
    requires ops == Greedy()
    ensures Valid(Default([]))
    ensures var r := RunAll(Default([]), ops);
            && r == Default([Everything(), Everything()]) && Antichain(r.tree, {1, 2})
            && ShareTotal(r.bw, {1, 2}, |r.bw|) == 2 * BW_UNIT > r.bw[0].Ratio()
  {
    var z, e := Bw(1_000_000_000, 0), Everything();
    DefaultGrows([]);
    assert [] + [z] == [z] && [z] + [z] == [z, z];
    RunStep(Default([]), ops, Default([z]));
    DefaultGrows([z]);
    RunStep(Default([z]), ops[1..], Default([z, z]));
    DefaultTakes([z, z], 0);
    assert [z, z][0 := e] == [e, z] && [e, z][1 := e] == [e, e];
    RunStep(Default([z, z]), ops[1..][1..], Default([e, z]));
    DefaultTakes([e, z], 1);
    RunStep(Default([e, z]), ops[1..][1..][1..], Default([e, e]));
    assert ops[1..][1..][1..][1..] == [];
    TwiceTheWhole();
  }

  lemma {:induction false} TwiceTheWhole()
    ensures var r := Default([Everything(), Everything()]);
            && r.tree.Valid() && Antichain(r.tree, {1, 2})
            && ShareTotal(r.bw, {1, 2}, |r.bw|) == 2 * BW_UNIT > r.bw[0].Ratio()
  {
    var e := Everything();
    var s := Default([e, e]);
    DefaultTree([e, e]);
    SiblingsIndependent(s.tree);
    EverythingCountsAsNothing();
    TwoShares(s.bw, e);
    DefaultRatios([e, e]);
  }

  lemma {:induction false} SiblingsIndependent(t: Tree)
    requires t.Valid() && |t.parent| == 3 && t.parent[1] == t.parent[2] == 0
    ensures Antichain(t, {1, 2})
  {
    assert !IsAncestor(t, 1, 2) && !IsAncestor(t, 2, 1);
  }

  lemma {:induction false} TwoShares(bw: seq<Bw>, e: Bw)
    requires |bw| == 3 && bw[1] == bw[2] == e && e.Share() == BW_UNIT
    ensures ShareTotal(bw, {1, 2}, |bw|) == 2 * BW_UNIT
  {
    assert ShareTotal(bw, {1, 2}, 1) == 0;
    assert ShareTotal(bw, {1, 2}, 2) == BW_UNIT;
  }

  lemma {:induction false} DefaultRatios(children: seq<Bw>)
    ensures var s := Default(children);
            s.bw[0].Ratio() == s.sysctl.Global().Ratio() == (950_000_000 * BW_UNIT) / 1_000_000_000
  {
  }

  lemma {:induction false} NoSum(t: Tree, bw: seq<Bw>, g: nat, i: nat)
    requires t.Valid() && |bw| == |t.parent| && g < |t.parent| && i <= |t.children[g]|
    requires forall x :: 0 < x < |bw| ==> bw[x].Ratio() == 0
    ensures SumFrom(t, bw, g, i) == 0
    decreases |t.children[g]| - i
  {
    if i < |t.children[g]| { NoSum(t, bw, g, i + 1); }
  }

  class RtBandwidth {
    var s: State

    /** The root group starts with the global settings. */
    constructor ()
      ensures Valid(s) && s == Default([]) && s.bw == [s.sysctl.Global()]
    {
      s := State(Tree([0], [[]]), [Bw(1_000_000_000, 950_000_000)], Sysctl(1_000_000, 950_000), 1_000_000_000);
      new;
      assert Default([]).tree == Tree([0], [[]]);
      DefaultValid([]);
    }

    /** Fails for lack of memory only. */
    method CreateGroup(p: nat, memory: bool) returns (ok: bool)
      requires Valid(s) && p < |s.bw|
      modifies this
      ensures Valid(s) && ok == (memory && |old(s).bw| < MAX_GROUPS)
      ensures s == Next(old(s), Create(p, memory))
    {
      ok := memory && |s.bw| < MAX_GROUPS;
      if ok {
        CreateAdmitted(s, p);
        s := s.(tree := s.tree.Create(p), bw := s.bw + [Bw(s.defPeriod, 0)]);
      }
    }

    /** __rt_schedulable: 0 exactly when every group passes. */
    method RtSchedulable(sysctl: Sysctl, hasRt: set<nat>, d: Data) returns (err: int)
      requires Valid(s)
      ensures err == 0 <==> AllPass(s.tree, With(s.bw, d), sysctl, hasRt)
    {
      var tree, bw := s.tree, With(s.bw, d);
      var test := Tester(tree, bw, sysctl, hasRt);
      var w := WalkTgTreeFrom(tree, 0, Test(test), Nop(), ());
      WalkTestsSubtree(tree, 0, test, Walk(0, (), []));
      forall g: nat | g < |bw| ensures IsAncestor(tree, 0, g) { RootAboveAll(tree, g); }
      assert forall g: nat :: g < |bw| ==> test(g) == Schedulable(tree, bw, sysctl, hasRt, g);
      err := w.ret;
    }

    /** Takes the change exactly when it leaves every group schedulable. */
    method TgSetRtBandwidth(tg: nat, bw: Bw, hasRt: set<nat>) returns (err: int)
      requires Valid(s) && tg < |s.bw| && bw.Fits()
      modifies this
      ensures Valid(s) && s == Next(old(s), SetBandwidth(tg, bw, hasRt))
      ensures err == 0 <==> bw.period != 0 && !(tg == 0 && bw.runtime == 0)
                            && Sound(s.tree, old(s).bw[tg := bw], s.sysctl, hasRt)
    {
      PassIffSound(s.tree, s.bw[tg := bw], s.sysctl, hasRt);
      if tg == 0 && bw.runtime == 0 { return -EINVAL; }
      if bw.period == 0 { return -EINVAL; }
      err := RtSchedulable(s.sysctl, hasRt, Data(tg, bw));
      if err != 0 { return; }
      PassingMeansAdmitted(s.tree, With(s.bw, Data(tg, bw)), s.sysctl, hasRt);
      s := s.(bw := s.bw[tg := bw]);
    }

    /** sched_rt_handler: the new limits are tried and undone unless every group passes under them. */
    method SchedRtHandler(sysctl: Sysctl, hasRt: set<nat>, dlAccepts: bool) returns (err: int)
      requires Valid(s) && sysctl.Fits()
      modifies this
      ensures Valid(s) && s == Next(old(s), SetLimits(sysctl, hasRt, dlAccepts))
      ensures err == 0 <==> sysctl.Accepted() && dlAccepts && Sound(s.tree, s.bw, sysctl, hasRt)
    {
      if sysctl.Accepted() { PassIffSound(s.tree, s.bw, sysctl, hasRt); }
      if !sysctl.Accepted() { return -EINVAL; }
      if !dlAccepts { return -EBUSY; }
      err := RtSchedulable(sysctl, hasRt, Nobody);
      if err != 0 { return; }
      PassingMeansAdmitted(s.tree, s.bw, sysctl, hasRt);
      s := s.(sysctl := sysctl, defPeriod := sysctl.Global().period);
    }

    /** Any run of creations and changes leaves no set of independent groups above the root's ratio. */
    method Run(ops: seq<Op>)
      requires Valid(s)
      modifies this
      ensures Valid(s) && s == RunAll(old(s), ops)
      ensures forall groups :: Antichain(s.tree, groups) ==> Total(s.bw, groups, |s.bw|) <= s.bw[0].Ratio()
    {
      ghost var goal := RunAll(s, ops);
      for i := 0 to |ops|
        invariant Valid(s) && RunAll(s, ops[i..]) == goal
      {
        assert ops[i..][1..] == ops[i + 1..];
        match ops[i] {
          case Create(p, memory) => if p < |s.bw| { var ok := CreateGroup(p, memory); }
          case SetBandwidth(tg, bw, hasRt) =>
            if tg < |s.bw| && bw.Fits() { var err := TgSetRtBandwidth(tg, bw, hasRt); }
          case SetLimits(sysctl, hasRt, dlAccepts) =>
            if sysctl.Fits() { var err := SchedRtHandler(sysctl, hasRt, dlAccepts); }
        }
      }
      forall groups | Antichain(s.tree, groups) ensures Total(s.bw, groups, |s.bw|) <= s.bw[0].Ratio() {
        AntichainWithinRoot(s, groups);
      }
    }
  }
}
