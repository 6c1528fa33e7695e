/**
 The throttle counts and task clocks of one CPU's CFS run queues, under nested throttling.
 Clock values are unbounded integers.
 */
module ThrottleClock {
  import opened TaskGroups

  /** throttle_count, throttled_clock_task and throttled_clock_task_time of one queue. */
  datatype Clock = Clock(count: int, stopped: int, lost: int)

  function CfsRqClockTask(c: Clock, now: int): int {
    if c.count != 0 then c.stopped - c.lost else now - c.lost
  }

  function Clocks(clock: seq<Clock>, now: int): (s: seq<int>)
    ensures |s| == |clock| && forall g :: 0 <= g < |s| ==> s[g] == CfsRqClockTask(clock[g], now)
  {
    seq(|clock|, g requires 0 <= g < |clock| => CfsRqClockTask(clock[g], now))
  }

  function ThrottleDown(now: int): Clock -> Clock {
    (c: Clock) => Clock(c.count + 1, if c.count == 0 then now else c.stopped, c.lost)
  }

  function UnthrottleUp(now: int): Clock -> Clock {
    (c: Clock) => Clock(c.count - 1, c.stopped, if c.count == 1 then c.lost + (now - c.stopped) else c.lost)
  }

  // ----- The reference: throttled queues on the way to the root, and the time without any -----

  /** How many of g and its ancestors are throttled. */
  function ThrottledAbove(t: Tree, thr: seq<bool>, g: nat): nat
    requires t.Valid() && |thr| == |t.parent| && g < |t.parent|
    decreases g
  {
    (if thr[g] then 1 else 0) + if g == 0 then 0 else ThrottledAbove(t, thr, t.parent[g])
  }

  /** The groups, which are throttled, the CPU's clock, and the clock each group should see. */
  datatype Ref = Ref(tree: Tree, thr: seq<bool>, now: int, seen: seq<int>) {
    ghost predicate Valid() {
      tree.Valid() && |thr| == |seen| == |tree.parent|
    }
  }

  datatype Op = Tick(d: nat) | Throttle(q: nat) | Unthrottle(q: nat, d: nat) | Create(p: nat)

  /** Time passes for exactly the groups with nothing throttled above them. */
  function Elapse(s: Ref, d: nat): (s': Ref)
    requires s.Valid()
    ensures s'.Valid() && |s'.seen| == |s.seen| && s'.now == s.now + d
    ensures forall g :: 0 <= g < |s.seen| ==>
              s'.seen[g] == s.seen[g] + if ThrottledAbove(s.tree, s.thr, g) == 0 then d else 0
  {
    s.(now := s.now + d,
       seen := seq(|s.seen|, g requires 0 <= g < |s.seen| =>
                 s.seen[g] + if ThrottledAbove(s.tree, s.thr, g) == 0 then d else 0))
  }

  /** Throttling and unthrottling move no clock; a new group's clock starts at the CPU's. */
  function Next(s: Ref, op: Op): (s': Ref)
    requires s.Valid()
    ensures s'.Valid()
  {
    match op
    case Tick(d) => Elapse(s, d)
    case Throttle(q) => if q < |s.thr| then s.(thr := s.thr[q := true]) else s
    case Unthrottle(q, d) =>
      if q < |s.thr| && s.thr[q] then var s' := Elapse(s, d); s'.(thr := s.thr[q := false]) else s
    case Create(p) =>
      if p < |s.thr| then Ref(s.tree.Create(p), s.thr + [false], s.now, s.seen + [s.now]) else s
  }

  function RunAll(s: Ref, ops: seq<Op>): (s': Ref)
    requires s.Valid()
    ensures s'.Valid()
    decreases |ops|
  {
    if ops == [] then s else RunAll(Next(s, ops[0]), ops[1..])
  }

  lemma {:induction false} RunAllAppend(s: Ref, ops: seq<Op>, op: Op)
    requires s.Valid()
    ensures RunAll(s, ops + [op]) == Next(RunAll(s, ops), op)
    decreases |ops|
  {
    if ops == [] {
      assert (ops + [op])[1..] == [];
    } else {
      assert (ops + [op])[1..] == ops[1..] + [op];
      RunAllAppend(Next(s, ops[0]), ops[1..], op);
    }
  }

  // ----- Throttling one queue changes the count of its whole subtree -----

  lemma {:induction false} ThrottleCountsBelow(t: Tree, thr: seq<bool>, q: nat, g: nat)
    requires t.Valid() && |thr| == |t.parent| && q < |t.parent| && g < |t.parent| && !thr[q]
    ensures ThrottledAbove(t, thr[q := true], g) ==
              ThrottledAbove(t, thr, g) + if IsAncestor(t, q, g) then 1 else 0
    decreases g
  {
    if g > 0 { ThrottleCountsBelow(t, thr, q, t.parent[g]); }
  }

  lemma {:induction false} CreateKeepsCounts(t: Tree, thr: seq<bool>, p: nat, g: nat)
    requires t.Valid() && |thr| == |t.parent| && p < |t.parent| && g < |t.parent|
    ensures ThrottledAbove(t.Create(p), thr + [false], g) == ThrottledAbove(t, thr, g)
    decreases g
  {
    if g > 0 { CreateKeepsCounts(t, thr, p, t.parent[g]); }
  }

  /** Entering or leaving the throttled state does not move a queue's clock. */
  lemma {:induction false} NoJump(c: Clock, now: int)
    requires c.count >= 0
    ensures CfsRqClockTask(ThrottleDown(now)(c), now) == CfsRqClockTask(c, now)
    ensures c.count > 0 ==> CfsRqClockTask(UnthrottleUp(now)(c), now) == CfsRqClockTask(c, now)
  {
  }

  ghost predicate CountsRight(t: Tree, thr: seq<bool>, clock: seq<Clock>) {
    && t.Valid() && |thr| == |clock| == |t.parent|
    && forall g :: 0 <= g < |clock| ==> clock[g].count == ThrottledAbove(t, thr, g)
  }

  lemma {:induction false} ThrottleWalk(t: Tree, thr: seq<bool>, clock: seq<Clock>, now: int, q: nat)
    requires CountsRight(t, thr, clock) && q < |thr| && !thr[q]
    ensures var clock' := Dfs(t, q, Touch(ThrottleDown(now)), Nop(), Walk(0, clock, [])).data;
            CountsRight(t, thr[q := true], clock') && Clocks(clock', now) == Clocks(clock, now)
  {
    WalkTouchesSubtreeOnce(t, q, true, ThrottleDown(now), Walk(0, clock, []));
    var clock' := Dfs(t, q, Touch(ThrottleDown(now)), Nop(), Walk(0, clock, [])).data;
    forall g | 0 <= g < |clock|
      ensures clock'[g].count == ThrottledAbove(t, thr[q := true], g)
      ensures CfsRqClockTask(clock'[g], now) == CfsRqClockTask(clock[g], now)
    {
      ThrottleCountsBelow(t, thr, q, g);
      NoJump(clock[g], now);
    }
  }

  lemma {:induction false} UnthrottleWalk(t: Tree, thr: seq<bool>, clock: seq<Clock>, now: int, q: nat)
    requires CountsRight(t, thr, clock) && q < |thr| && thr[q]
    ensures var clock' := Dfs(t, q, Nop(), Touch(UnthrottleUp(now)), Walk(0, clock, [])).data;
            CountsRight(t, thr[q := false], clock') && Clocks(clock', now) == Clocks(clock, now)
  {
    WalkTouchesSubtreeOnce(t, q, false, UnthrottleUp(now), Walk(0, clock, []));
    var clock' := Dfs(t, q, Nop(), Touch(UnthrottleUp(now)), Walk(0, clock, [])).data;
    assert thr[q := false][q := true] == thr;
    forall g | 0 <= g < |clock|
      ensures clock'[g].count == ThrottledAbove(t, thr[q := false], g)
      ensures CfsRqClockTask(clock'[g], now) == CfsRqClockTask(clock[g], now)
    {
      ThrottleCountsBelow(t, thr[q := false], q, g);
      NoJump(clock[g], now);
    }
  }

  class ThrottleClocks {
    var tree: Tree
    var throttled: seq<bool>
    var clock: seq<Clock>
    var now: int

    ghost predicate Valid()
      reads this
    {
      CountsRight(tree, throttled, clock)
    }

    ghost function View(): (s: Ref)
      requires Valid()
      reads this
      ensures s.Valid()
    {
      Ref(tree, throttled, now, Clocks(clock, now))
    }

    constructor (start: int)
      ensures Valid() && View() == Ref(Tree([0], [[]]), [false], start, [start])
    {
      tree, throttled, clock, now := Tree([0], [[]]), [false], [Clock(0, 0, 0)], start;
      new;
      assert View().seen == [start];
    }

    /** update_rq_clock. */
    method Advance(d: nat)
      requires Valid()
      modifies this`now
      ensures Valid() && View() == Elapse(old(View()), d) && now == old(now) + d
    {
      now := now + d;
      assert View().seen == Elapse(old(View()), d).seen;
    }

    /** The walk of throttle_cfs_rq; the flag follows it. */
    method ThrottleCfsRq(q: nat)
      requires Valid() && q < |throttled| && !throttled[q]
      modifies this
      ensures Valid() && View() == old(View()).(thr := old(throttled)[q := true])
    {
      var w := WalkTgTreeFrom(tree, q, Touch(ThrottleDown(now)), Nop(), clock);
      ThrottleWalk(tree, throttled, clock, now, q);
      clock := w.data;
      throttled := throttled[q := true];
    }

    /** The flag is dropped, the clock read, and the counts lowered on the way up. */
    method UnthrottleCfsRq(q: nat, d: nat)
      requires Valid() && q < |throttled| && throttled[q]
      modifies this
      ensures Valid() && View() == Elapse(old(View()), d).(thr := old(throttled)[q := false])
    {
      Advance(d);
      var w := WalkTgTreeFrom(tree, q, Nop(), Touch(UnthrottleUp(now)), clock);
      UnthrottleWalk(tree, throttled, clock, now, q);
      clock := w.data;
      throttled := throttled[q := false];
    }

    /** sync_throttle: a new group starts with its parent's count, stopped at the current time. */
    method CreateGroup(p: nat)
      requires Valid() && p < |throttled|
      modifies this
      ensures Valid()
      ensures View() == Ref(old(tree).Create(p), old(throttled) + [false], old(now), old(View().seen) + [now])
    {
      forall g | 0 <= g < |clock|
        ensures ThrottledAbove(tree.Create(p), throttled + [false], g) == clock[g].count
      {
        CreateKeepsCounts(tree, throttled, p, g);
      }
      tree := tree.Create(p);
      throttled := throttled + [false];
      clock := clock + [Clock(clock[p].count, now, 0)];
      assert View().seen == old(View().seen) + [now];
    }

    /** Over any run the counts are right and every group's clock shows what the reference says it should. */
    method Run(ops: seq<Op>)
      requires Valid()
      modifies this
      ensures Valid() && View() == RunAll(old(View()), ops)
    {
      for i := 0 to |ops|
        invariant Valid() && View() == RunAll(old(View()), ops[..i])
      {
        var op := ops[i];
        RunAllAppend(old(View()), ops[..i], op);
        assert ops[..i + 1] == ops[..i] + [op];
        match op {
          case Tick(d) => Advance(d);
          case Throttle(q) => if q < |throttled| && !throttled[q] { ThrottleCfsRq(q); }
          case Unthrottle(q, d) => if q < |throttled| && throttled[q] { UnthrottleCfsRq(q, d); }
          case Create(p) => if p < |throttled| { CreateGroup(p); }
        }
      }
      assert ops[..|ops|] == ops;
    }
  }
}
