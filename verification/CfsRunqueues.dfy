/**
 The walks of fair.c that keep one CPU's tree of CFS run queues settled: enqueue, dequeue, throttle and
 unthrottle, each going part of the way up, as loops over the state of CfsHierarchy.
 */
module CfsRunqueues {
  import opened CfsHierarchy
  import opened Common

  class Runqueues {
    var tg: Abs
    var rq: Rq

    ghost predicate Valid()
      reads this
    {
      Settled(tg, rq)
    }

    constructor ()
      ensures Valid() && tg == Abs([0], map[], [false])
    {
      tg, rq := Abs([0], map[], [false]), Rq([{}], [false], [0], 0);
    }

    /** A new group has an empty, unthrottled queue that is not queued in its parent. */
    method CreateGroup(p: nat)
      requires Valid() && p < |tg.parent|
      modifies this
      ensures Valid() && tg == Abs(old(tg.parent) + [p], old(tg.tasks), old(tg.thr) + [false])
    {
      ghost var a := tg;
      tg := Abs(tg.parent + [p], tg.tasks, tg.thr + [false]);
      rq := Rq(rq.queue + [{}], rq.onRq + [false], rq.h + [0], rq.nr);
      forall x: nat ensures tg.Counted(x) == if x < |a.parent| then a.Counted(x) else {} {
        GroupCounts(a, p, x);
      }
      assert forall x :: 0 <= x < |rq.h| ==> rq.h[x] == |tg.Counted(x)|;
    }

    /** parent_entity: the entity of the group that owns queue q. */
    function ParentEntity(q: nat): Option<Entity> {
      if q == 0 then None else Some(GroupSe(q))
    }

    /** Queues se in q; a queue this wakes is throttled at once when it is out of runtime. */
    method EnqueueEntity(q: nat, se: Entity, starved: set<nat>)
      requires tg.Valid() && QueuesMatch(tg.parent, tg.tasks, rq.queue, rq.onRq) && q < |rq.queue| && 0 !in starved
      requires |rq.h| == |rq.queue| && (rq.queue[q] == {} ==> !rq.onRq[q])
      requires match se
               case TaskSe(p) => p !in tg.tasks
               case GroupSe(c) => 0 < c < |rq.queue| && tg.parent[c] == q && !rq.onRq[c]
      modifies this
      ensures tg.Valid() && QueuesMatch(tg.parent, tg.tasks, rq.queue, rq.onRq) && tg.parent == old(tg.parent)
      ensures rq == old(rq).(
                queue := old(rq.queue)[q := old(rq.queue)[q] + {se}],
                onRq := if se.GroupSe? then old(rq.onRq)[se.g := true] else old(rq.onRq))
      ensures tg.tasks == if se.TaskSe? then old(tg.tasks)[se.p := q] else old(tg.tasks)
      ensures tg.thr ==
                if old(rq.queue)[q] == {} && q in starved && !old(tg.thr)[q] then old(tg.thr)[q := true]
                else old(tg.thr)
    {
      match se {
        case TaskSe(p) => tg := tg.(tasks := tg.tasks[p := q]);
        case GroupSe(c) => rq := rq.(onRq := rq.onRq[c := true]);
      }
      rq := rq.(queue := rq.queue[q := rq.queue[q] + {se}]);
      assert se !in old(rq.queue)[q];
      assert forall g, e :: 0 <= g < |rq.queue| ==>
               (e in rq.queue[g] <==> e in old(rq.queue)[g] || (g == q && e == se));
      if |rq.queue[q]| == 1 && q in starved && !tg.thr[q] {
        ThrottleCfsRq(q);
      }
    }

    method DequeueEntity(q: nat, se: Entity)
      requires tg.Valid() && QueuesMatch(tg.parent, tg.tasks, rq.queue, rq.onRq) && q < |rq.queue| && se in rq.queue[q]
      modifies this
      ensures tg.Valid() && QueuesMatch(tg.parent, tg.tasks, rq.queue, rq.onRq)
      ensures tg == old(tg).(tasks := if se.TaskSe? then old(tg.tasks) - {se.p} else old(tg.tasks))
      ensures rq == old(rq).(
                queue := old(rq.queue)[q := old(rq.queue)[q] - {se}],
                onRq := if se.GroupSe? then old(rq.onRq)[se.g := false] else old(rq.onRq))
    {
      match se {
        case TaskSe(p) => tg := tg.(tasks := tg.tasks - {p});
        case GroupSe(c) => rq := rq.(onRq := rq.onRq[c := false]);
      }
      rq := rq.(queue := rq.queue[q := rq.queue[q] - {se}]);
      assert forall g, e :: 0 <= g < |rq.queue| ==>
               (e in rq.queue[g] <==> e in old(rq.queue)[g] && !(g == q && e == se));
    }

    /** One level of throttling: takes c's entity off unless a queue below still has others, and counts. */
    method ThrottleLevel(c: nat, ghost q: nat, dequeue: bool, d: int, ghost a': Abs) returns (dequeue': bool)
      requires tg.Valid() && a'.Valid() && a'.parent == tg.parent && a'.tasks == tg.tasks
      requires q < |tg.parent| && a'.thr[q]
      requires Detaching(a', rq, q, Some(GroupSe(c)), dequeue, d) && |rq.h| == |rq.onRq| == |tg.parent| && rq.onRq[c]
      modifies this
      ensures tg == old(tg) && |rq.h| == |rq.onRq| == |tg.parent|
      ensures Detaching(a', rq, q, ParentEntity(tg.parent[c]), dequeue', d)
    {
      var qcfs := tg.parent[c];
      ghost var s := rq;
      assert GroupSe(c) in rq.queue[qcfs];
      if dequeue { DequeueEntity(qcfs, GroupSe(c)); }
      rq := rq.(h := rq.h[qcfs := rq.h[qcfs] - d]);
      dequeue' := dequeue && rq.queue[qcfs] == {};
      DetachStep(a', s, q, c, dequeue, d, rq);
    }

    /** Only flags the queue when its entity is not queued; otherwise takes its tasks out of every count above. */
    method ThrottleCfsRq(q: nat)
      requires |rq.onRq| == |tg.parent| == |tg.thr| == |rq.h|
      requires 0 < q < |tg.parent| && !tg.thr[q] && (Valid() || !rq.onRq[q])
      modifies this
      ensures tg.parent == old(tg.parent) && tg.tasks == old(tg.tasks) && tg.thr == old(tg.thr)[q := true]
      ensures old(Valid()) ==> Valid()
      ensures !old(rq.onRq)[q] ==> rq == old(rq)
    {
      var se: Option<Entity> := Some(GroupSe(q));
      var taskDelta, dequeue := rq.h[q], true;
      ghost var ok, a' := Valid(), tg.(thr := tg.thr[q := true]);
      if ok { DetachStart(tg, rq, q); }
      while se.Some?
        invariant tg.parent == old(tg.parent) && tg.tasks == old(tg.tasks) && tg.thr == old(tg.thr)
        invariant |rq.onRq| == |tg.parent| == |rq.h|
        invariant se.Some? ==> se.value.GroupSe? && 0 < se.value.g <= q
        invariant !old(rq.onRq)[q] ==> se == Some(GroupSe(q)) && rq == old(rq)
        invariant ok ==> Detaching(a', rq, q, se, dequeue, taskDelta)
        decreases if se.Some? then se.value.g else 0
      {
        if !rq.onRq[se.value.g] { break; }
        var qcfs := tg.parent[se.value.g];
        dequeue := ThrottleLevel(se.value.g, q, dequeue, taskDelta, a');
        se := ParentEntity(qcfs);
      }
      if ok { DetachEnd(a', rq, q, se, dequeue, taskDelta); }
      if se.None? { rq := rq.(nr := rq.nr - taskDelta); }
      tg := tg.(thr := tg.thr[q := true]);
    }

    /** cfs_rq_of: the queue an entity is, or is to be, queued in; g is the task's group. */
    function CfsRqOf(se: Entity, g: nat): nat
      requires se.GroupSe? ==> se.g < |tg.parent|
      reads this
    {
      if se.GroupSe? then tg.parent[se.g] else g
    }

    /** The loop that only posts: adds d to every queue from the one of se on, up to a throttled one. */
    method PostUp(first: Option<Entity>, g: nat, d: int)
      requires first.Some? && first.value.GroupSe? ==> first.value.g < |tg.parent|
      requires if first.Some? then Posting(tg, rq, CfsRqOf(first.value, g), d)
               else Posted(tg, rq, d)
      modifies this`rq
      ensures Valid()
    {
      var se := first;
      while se.Some?
        invariant se.Some? && se.value.GroupSe? ==> se.value.g < |tg.parent|
        invariant if se.Some? then Posting(tg, rq, CfsRqOf(se.value, g), d)
                  else Posted(tg, rq, d)
        decreases if se.Some? then CfsRqOf(se.value, g) + 1 else 0
      {
        var q := CfsRqOf(se.value, g);
        PostStep(tg, rq, q, d);
        rq := rq.(h := rq.h[q := rq.h[q] + d]);
        if tg.thr[q] { break; }
        se := ParentEntity(q);
      }
      if se.None? { PostedSettles(tg, rq, d); rq := rq.(nr := rq.nr + d); }
    }

    /** EnqueueEntity for a task, the first level of an upward walk. */
    method EnqueueTaskLevel(p: nat, q: nat, starved: set<nat>, ghost goal: seq<bool>)
      requires Valid() && p !in tg.tasks && q < |tg.parent| && 0 !in starved
      requires goal == WakeThrottles(tg.parent, tg.thr, tg.Busy(), starved, q)
      modifies this
      ensures tg == old(tg).(tasks := old(tg.tasks)[p := q], thr := tg.thr) && |tg.thr| == |tg.parent| == |rq.h|
      ensures tg.thr[q] ==> Posting(tg, rq, q, 1) && goal == tg.thr
      ensures !tg.thr[q] ==>
                Climbing(old(tg), old(rq), old(tg.thr), starved, goal, tg,
                         rq.(h := rq.h[q := rq.h[q] + 1]), ParentEntity(q), 1)
    {
      ghost var a, s := tg, rq;
      EnqueueEntity(q, TaskSe(p), starved);
      ClimbTask(a, s, starved, p, q, rq, tg.thr);
    }

    /** EnqueueEntity for group c, a later level of an upward walk that adds d to each count. */
    method EnqueueGroupLevel(c: nat, starved: set<nat>, ghost d: int,
                             ghost a0: Abs, ghost s0: Rq, ghost thr: seq<bool>, ghost goal: seq<bool>)
      requires Settled(a0, s0) && |thr| == |a0.parent| && 0 !in starved && !thr[0]
      requires Climbing(a0, s0, thr, starved, goal, tg, rq, Some(GroupSe(c)), d) && !rq.onRq[c]
      modifies this
      ensures tg == old(tg).(thr := tg.thr)
      ensures var q := tg.parent[c];
              && q < |tg.thr| == |rq.h| == |rq.onRq|
              && (tg.thr[q] ==>
                    Posting(tg, rq, q, d) && Settled(tg, rq.(h := rq.h[q := rq.h[q] + d])) && goal == tg.thr)
              && (!tg.thr[q] ==>
                    Climbing(a0, s0, thr, starved, goal, tg, rq.(h := rq.h[q := rq.h[q] + d]), ParentEntity(q), d))
    {
      ghost var a, s := tg, rq;
      EnqueueEntity(tg.parent[c], GroupSe(c), starved);
      ClimbGroup(a0, s0, thr, starved, goal, a, s, c, d, rq, tg.thr);
    }

    /** One level of queueing task p: the task itself, or a group entity above it. */
    method EnqueueLevel(se: Entity, ghost p: nat, q: nat, starved: set<nat>, ghost a0: Abs, ghost s0: Rq,
                        ghost goal: seq<bool>)
      requires Settled(a0, s0) && q < |tg.parent| && 0 !in starved
               && Enqueuing(a0, s0, starved, goal, p, tg, rq, Some(se))
      requires match se
               case TaskSe(_) => p !in tg.tasks && goal == WakeThrottles(tg.parent, tg.thr, tg.Busy(), starved, q)
               case GroupSe(c) => !rq.onRq[c] && tg.parent[c] == q
      modifies this
      ensures tg == old(tg).(tasks := if se.TaskSe? then old(tg.tasks)[p := q] else old(tg.tasks), thr := tg.thr)
      ensures |tg.thr| == |tg.parent| == |rq.h|
      ensures tg.thr[q] ==> Posting(tg, rq, q, 1) && goal == tg.thr
      ensures !tg.thr[q] ==> Enqueuing(a0, s0, starved, goal, p, tg, rq.(h := rq.h[q := rq.h[q] + 1]), ParentEntity(q))
    {
      match se {
        case TaskSe(t) => EnqueueTaskLevel(t, q, starved, goal);
        case GroupSe(c) => EnqueueGroupLevel(c, starved, 1, a0, s0, a0.thr, goal);
      }
    }

    method EnqueueTask(p: nat, g: nat, starved: set<nat>)
      requires Valid() && p !in tg.tasks && g < |tg.parent| && 0 !in starved
      modifies this
      ensures Valid()
      ensures tg == Abs(old(tg.parent), old(tg.tasks)[p := g],
                            WakeThrottles(old(tg.parent), old(tg.thr), old(tg.Busy()), starved, g))
    {
      ghost var a0, s0 := tg, rq;
      ghost var goal := WakeThrottles(tg.parent, tg.thr, a0.Busy(), starved, g);
      var se: Option<Entity> := Some(TaskSe(p));
      while se.Some?
        invariant Enqueuing(a0, s0, starved, goal, p, tg, rq, se)
        invariant tg.tasks == if se == Some(TaskSe(p)) then a0.tasks else a0.tasks[p := g]
        decreases if se.Some? then CfsRqOf(se.value, g) + 1 else 0
      {
        if se.value.GroupSe? && rq.onRq[se.value.g] {
          AttachedPosts(tg, rq, se.value.g, 1);
          break;
        }
        var q := CfsRqOf(se.value, g);
        EnqueueLevel(se.value, p, q, starved, a0, s0, goal);
        if tg.thr[q] { break; }
        rq := rq.(h := rq.h[q := rq.h[q] + 1]);
        se := ParentEntity(q);
      }
      PostUp(se, g, 1);
    }

    /** One level of unthrottling: queues c's entity unless it, or one below it, was queued already, and counts. */
    method UnthrottleLevel(c: nat, enqueue: bool, starved: set<nat>, d: int,
                           ghost a0: Abs, ghost s0: Rq, ghost thr: seq<bool>, ghost goal: seq<bool>)
      requires Settled(a0, s0) && |thr| == |a0.parent| && 0 !in starved && !thr[0]
      requires Climbing(a0, s0, thr, starved, goal, tg, rq, Some(GroupSe(c)), d) && enqueue == !rq.onRq[c]
      modifies this
      ensures tg == old(tg).(thr := tg.thr)
      ensures var q := tg.parent[c];
              && q < |tg.thr| == |rq.onRq|
              && (if tg.thr[q] then Settled(tg, rq) && goal == tg.thr
                  else Climbing(a0, s0, thr, starved, goal, tg, rq, ParentEntity(q), d))
              && (!enqueue && q > 0 && !tg.thr[q] ==> rq.onRq[q])
    {
      var q := tg.parent[c];
      if enqueue {
        EnqueueGroupLevel(c, starved, d, a0, s0, thr, goal);
      } else {
        ClimbOn(a0, s0, thr, starved, goal, tg, rq, c, d);
      }
      rq := rq.(h := rq.h[q := rq.h[q] + d]);
    }

    /** The walk up from an unthrottled, non-empty queue. */
    method UnthrottleUp(q: nat, d: int, starved: set<nat>, ghost a0: Abs, ghost s0: Rq, ghost thr: seq<bool>,
                        ghost goal: seq<bool>)
      requires Settled(a0, s0) && |thr| == |a0.parent| && 0 !in starved && !thr[0]
      requires Climbing(a0, s0, thr, starved, goal, tg, rq, Some(GroupSe(q)), d)
      modifies this
      ensures Valid() && tg == old(tg).(thr := goal)
    {
      var se: Option<Entity>, enqueue := Some(GroupSe(q)), true;
      while se.Some?
        invariant tg == old(tg).(thr := tg.thr) && Climbing(a0, s0, thr, starved, goal, tg, rq, se, d)
        invariant !enqueue && se.Some? ==> rq.onRq[se.value.g]
        decreases if se.Some? then se.value.g else 0
      {
        if rq.onRq[se.value.g] { enqueue := false; }
        var qcfs := tg.parent[se.value.g];
        UnthrottleLevel(se.value.g, enqueue, starved, d, a0, s0, thr, goal);
        if tg.thr[qcfs] { return; }
        se := ParentEntity(qcfs);
      }
      PostedSettles(tg, rq, d);
      rq := rq.(nr := rq.nr + d);
    }

    method UnthrottleCfsRq(q: nat, starved: set<nat>)
      requires Valid() && 0 < q < |tg.parent| && tg.thr[q] && 0 !in starved
      modifies this
      ensures Valid() && tg == old(tg.(thr := UnthrottleWakes(tg, starved, q)))
    {
      ghost var a0, s0 := tg, rq;
      tg := tg.(thr := tg.thr[q := false]);
      UnthrottleStart(a0, s0, q, starved);
      if rq.queue[q] == {} { return; }
      UnthrottleUp(q, rq.h[q], starved, a0, s0, tg.thr, UnthrottleWakes(a0, starved, q));
    }

    /** DequeueEntity, one level of an upward walk. */
    method DequeueLevel(se: Entity, q: nat)
      requires q < |tg.parent|
      requires match se
               case TaskSe(p) => Valid() && p in tg.tasks && tg.tasks[p] == q
               case GroupSe(c) => Emptied(tg, rq, c) && tg.parent[c] == q
      modifies this
      ensures tg == old(tg).(tasks := if se.TaskSe? then old(tg.tasks) - {se.p} else old(tg.tasks))
      ensures Drained(tg, rq, q)
    {
      assert se in rq.queue[q];
      ghost var a, s := tg, rq;
      DequeueEntity(q, se);
      match se {
        case TaskSe(p) => TaskDrains(a, s, p, rq);
        case GroupSe(c) => EmptiedDrains(a, s, c, rq);
      }
    }

    method DequeueTask(p: nat)
      requires Valid() && p in tg.tasks
      modifies this
      ensures Valid() && tg == old(tg.(tasks := tg.tasks - {p}))
    {
      var g := tg.tasks[p];
      ghost var a0, a := tg, tg.(tasks := tg.tasks - {p});
      var se: Option<Entity> := Some(TaskSe(p));
      while se.Some?
        invariant match se
                  case None => tg == a && Posted(a, rq, -1)
                  case Some(TaskSe(t)) => t == p && tg == a0 && Valid()
                  case Some(GroupSe(c)) => tg == a && Emptied(a, rq, c)
        decreases if se.Some? then CfsRqOf(se.value, g) + 1 else 0
      {
        var q := CfsRqOf(se.value, g);
        DequeueLevel(se.value, q);
        DrainedStep(a, rq, q);
        if tg.thr[q] { break; }
        rq := rq.(h := rq.h[q := rq.h[q] - 1]);
        se := ParentEntity(q);
        if rq.queue[q] != {} { break; }
      }
      PostUp(se, g, -1);
    }

    /** Any sequence of operations, each skipped when the kernel would not perform it. */
    method Run(ops: seq<Op>)
      requires Valid()
      modifies this
      ensures Valid() && tg == RunAll(old(tg), ops)
    {
      for i := 0 to |ops|
        invariant Valid() && tg == RunAll(old(tg), ops[..i])
      {
        var op := ops[i];
        RunAllAppend(old(tg), ops[..i], op);
        assert ops[..i + 1] == ops[..i] + [op];
        match op {
          case Create(p) => if p < |tg.parent| { CreateGroup(p); }
          case Enqueue(p, g, starved) =>
            if p !in tg.tasks && g < |tg.parent| { EnqueueTask(p, g, starved - {0}); }
          case Dequeue(p) => if p in tg.tasks { DequeueTask(p); }
          case Throttle(q) => if 0 < q < |tg.parent| && !tg.thr[q] { ThrottleCfsRq(q); }
          case Unthrottle(q, starved) =>
            if 0 < q < |tg.parent| && tg.thr[q] { UnthrottleCfsRq(q, starved - {0}); }
        }
      }
      assert ops[..|ops|] == ops;
    }
  }

  /** The root group never has a quota, so it is never among the starved. */
  datatype Op =
    | Create(p: nat)
    | Enqueue(p: nat, g: nat, starved: set<nat>)
    | Dequeue(p: nat)
    | Throttle(q: nat)
    | Unthrottle(q: nat, starved: set<nat>)

  ghost function Next(a: Abs, op: Op): (a': Abs)
    requires a.Valid()
    ensures a'.Valid()
  {
    match op
    case Create(p) =>
      if p < |a.parent| then Abs(a.parent + [p], a.tasks, a.thr + [false]) else a
    case Enqueue(p, g, starved) =>
      if p !in a.tasks && g < |a.parent|
      then RootStays(a, a.thr, a.Busy(), starved - {0}, g);
           Abs(a.parent, a.tasks[p := g], WakeThrottles(a.parent, a.thr, a.Busy(), starved - {0}, g))
      else a
    case Dequeue(p) => a.(tasks := a.tasks - {p})
    case Throttle(q) =>
      if 0 < q < |a.parent| then a.(thr := a.thr[q := true]) else a
    case Unthrottle(q, starved) =>
      if 0 < q < |a.parent| && a.thr[q]
      then RootStays(a, a.thr[q := false], a.Busy(), starved - {0}, a.parent[q]);
           a.(thr := UnthrottleWakes(a, starved - {0}, q))
      else a
  }

  lemma {:induction false} RootStays(a: Abs, thr: seq<bool>, busy: set<nat>, starved: set<nat>, g: nat)
    requires a.Valid() && |thr| == |a.parent| && !thr[0] && g < |a.parent| && 0 !in starved
    ensures !WakeThrottles(a.parent, thr, busy, starved, g)[0]
    decreases g
  {
    if g > 0 { RootStays(a, thr, busy, starved, a.parent[g]); }
  }

  ghost function RunAll(a: Abs, ops: seq<Op>): (a': Abs)
    requires a.Valid()
    ensures a'.Valid()
    decreases |ops|
  {
    if ops == [] then a else RunAll(Next(a, ops[0]), ops[1..])
  }

  lemma {:induction false} RunAllAppend(a: Abs, ops: seq<Op>, op: Op)
    requires a.Valid()
    ensures RunAll(a, ops + [op]) == Next(RunAll(a, ops), op)
    decreases |ops|
  {
    if ops == [] {
      assert (ops + [op])[1..] == [];
    } else {
      assert (ops + [op])[1..] == ops[1..] + [op];
      RunAllAppend(Next(a, ops[0]), ops[1..], op);
    }
  }
}
