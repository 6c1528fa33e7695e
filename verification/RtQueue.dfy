/**
 The priority array of an RT run queue and its counters (without CONFIG_RT_GROUP_SCHED): one list per
 priority, the bitmap over them, the best priority, and the queue's share of rq->nr_running.
 */
module RtQueue {
  import opened Common

  const MAX_RT_PRIO: nat := 100

  /** The list of each priority, what is on them, and the bitmap with its delimiter bit. */
  datatype PrioArray = PrioArray(queue: seq<seq<nat>>, prio: map<nat, nat>, bitmap: seq<bool>)

  /** rt_nr_running (with the tasks it counts), highest_prio.curr, rt_queued, rt_throttled, the share of nr_running. */
  datatype Counters = Counters(onRq: set<nat>, nr: int, highest: nat, queued: bool, throttled: bool, share: int)

  /** sched_find_first_bit. */
  function FirstBit(bitmap: seq<bool>, k: nat): (r: nat)
    requires k < |bitmap| && bitmap[|bitmap| - 1]
    ensures k <= r < |bitmap| && bitmap[r] && forall i :: k <= i < r ==> !bitmap[i]
    decreases |bitmap| - k
  {
    if bitmap[k] then k else FirstBit(bitmap, k + 1)
  }

  // ----- What the array and the counters should say -----

  ghost predicate ArrayRight(a: PrioArray) {
    && |a.queue| == MAX_RT_PRIO && |a.bitmap| == MAX_RT_PRIO + 1 && a.bitmap[MAX_RT_PRIO]
    && (forall k :: 0 <= k < MAX_RT_PRIO ==> (a.bitmap[k] <==> a.queue[k] != []) && Distinct(a.queue[k]))
    && (forall k, p :: 0 <= k < MAX_RT_PRIO ==> (p in a.queue[k] <==> p in a.prio && a.prio[p] == k))
    && (forall p :: p in a.prio ==> a.prio[p] < MAX_RT_PRIO)
  }

  /** The least priority with anything on its list, or MAX_RT_PRIO. */
  function Best(a: PrioArray): (r: nat)
    requires ArrayRight(a)
    ensures r <= MAX_RT_PRIO && (r < MAX_RT_PRIO ==> a.queue[r] != []) && forall i :: 0 <= i < r ==> a.queue[i] == []
  {
    FirstBit(a.bitmap, 0)
  }

  /** `hole`: the task, if any, that was taken off with DEQUEUE_SAVE and kept its place on the list. */
  ghost predicate CountersRight(a: PrioArray, c: Counters, hole: set<nat>)
    requires ArrayRight(a)
  {
    && c.onRq == a.prio.Keys - hole && hole <= a.prio.Keys && |hole| <= 1
    && c.nr == |c.onRq|
    && c.highest == (if c.nr == 0 then MAX_RT_PRIO else Best(a))
    && ShareRight(c)
  }

  /** A queue that is on rq->nr_running has something to run and contributes all of it; else nothing. */
  ghost predicate ShareRight(c: Counters) {
    c.nr >= 0 && c.share == (if c.queued then c.nr else 0) && (c.queued ==> c.nr > 0)
  }

  ghost predicate Settled(a: PrioArray, c: Counters) {
    ArrayRight(a) && CountersRight(a, c, {}) && (c.queued <==> c.nr > 0 && !c.throttled)
  }

  /** In a settled state everything else follows from the lists and the throttled flag. */
  lemma {:induction false} SettledIsDetermined(a: PrioArray, c: Counters, a': PrioArray, c': Counters)
    requires Settled(a, c) && Settled(a', c') && a.queue == a'.queue && c.throttled == c'.throttled
    ensures a == a' && c == c'
  {
    SamePrio(a, a');
    SamePrio(a', a);
    assert a.bitmap == a'.bitmap;
    assert a.prio == a'.prio;
  }

  lemma {:induction false} SamePrio(a: PrioArray, a': PrioArray)
    requires ArrayRight(a) && ArrayRight(a') && a.queue == a'.queue
    ensures forall p :: p in a.prio ==> p in a'.prio && a.prio[p] == a'.prio[p]
  {
    forall p | p in a.prio ensures p in a'.prio && a.prio[p] == a'.prio[p] {
      assert p in a.queue[a.prio[p]];
      assert p in a'.queue[a.prio[p]];
    }
  }

  // ----- Steps on the array -----

  function Added(a: PrioArray, p: nat, k: nat, head: bool): PrioArray
    requires |a.queue| == MAX_RT_PRIO && |a.bitmap| == MAX_RT_PRIO + 1 && k < MAX_RT_PRIO
  {
    PrioArray(a.queue[k := if head then [p] + a.queue[k] else a.queue[k] + [p]], a.prio[p := k], a.bitmap[k := true])
  }

  function Delisted(a: PrioArray, p: nat): PrioArray
    requires |a.queue| == MAX_RT_PRIO && |a.bitmap| == MAX_RT_PRIO + 1 && p in a.prio && a.prio[p] < MAX_RT_PRIO
  {
    var k := a.prio[p];
    var list := Remove(a.queue[k], p);
    PrioArray(a.queue[k := list], a.prio - {p}, if list == [] then a.bitmap[k := false] else a.bitmap)
  }

  lemma {:induction false} AddedRight(a: PrioArray, p: nat, k: nat, head: bool)
    requires ArrayRight(a) && k < MAX_RT_PRIO && p !in a.prio
    ensures ArrayRight(Added(a, p, k, head))
    ensures Best(Added(a, p, k, head)) == if k < Best(a) then k else Best(a)
  {
    var a' := Added(a, p, k, head);
    assert p !in a.queue[k];
    assert forall x :: x in a'.queue[k] <==> x == p || x in a.queue[k];
    assert a'.queue[k] != [];
    BestIs(a', if k < Best(a) then k else Best(a));
  }

  lemma {:induction false} BestIs(a: PrioArray, r: nat)
    requires ArrayRight(a) && r <= MAX_RT_PRIO && (r < MAX_RT_PRIO ==> a.queue[r] != [])
    requires forall i :: 0 <= i < r ==> a.queue[i] == []
    ensures Best(a) == r
  {
  }

  lemma {:induction false} DelistedLeaves(a: PrioArray, p: nat)
    requires ArrayRight(a)
    ensures p in a.prio ==> p !in Delisted(a, p).prio
  {
  }

  /** What taking p off and putting it back makes of the lists. */
  lemma {:induction false} ReplacedLists(a: PrioArray, p: nat, k: nat, head: bool)
    requires ArrayRight(a) && k < MAX_RT_PRIO && (p in a.prio ==> a.prio[p] == k)
    ensures var b := if p in a.prio then Delisted(a, p) else a;
            var list := Remove(a.queue[k], p);
            Added(b, p, k, head).queue == a.queue[k := if head then [p] + list else list + [p]]
  {
    if p !in a.prio { assert p !in a.queue[k]; }
  }

  lemma {:induction false} DelistedRight(a: PrioArray, p: nat)
    requires ArrayRight(a) && p in a.prio
    ensures ArrayRight(Delisted(a, p)) && p !in Delisted(a, p).prio
    ensures Best(a) <= a.prio[p] && (a.prio[p] != Best(a) ==> Best(Delisted(a, p)) == Best(a))
  {
    var k := a.prio[p];
    assert p in a.queue[k];
    RemoveElements(a.queue[k], p);
  }

  // ----- Steps on the counters -----

  /** p is on its list but not counted yet; the best priority is p's or the one already known. */
  ghost predicate Uncounted(a: PrioArray, c: Counters, p: nat) {
    && ArrayRight(a) && p in a.prio && c.onRq == a.prio.Keys - {p} && c.nr == |c.onRq| && ShareRight(c) && !c.queued
    && Best(a) == if a.prio[p] < c.highest then a.prio[p] else c.highest
  }

  /** p is still counted, but is off its list or has become the hole; the best priority changed only if it was p's. */
  ghost predicate Overcounted(a: PrioArray, c: Counters, p: nat, prio: nat, hole: set<nat>) {
    && ArrayRight(a) && p in c.onRq && c.onRq - {p} == a.prio.Keys - hole && hole <= a.prio.Keys && |hole| <= 1
    && c.nr == |c.onRq| && ShareRight(c) && !c.queued && (prio != c.highest ==> Best(a) == c.highest)
  }

  lemma {:induction false} DelistedOvercounted(a: PrioArray, c: Counters, p: nat)
    requires ArrayRight(a) && CountersRight(a, c, {}) && !c.queued && p in a.prio
    ensures Overcounted(Delisted(a, p), c, p, a.prio[p], {}) && Overcounted(a, c, p, a.prio[p], {p})
  {
    DelistedRight(a, p);
  }

  lemma {:induction false} AddedUncounted(a: PrioArray, c: Counters, p: nat, k: nat, head: bool)
    requires ArrayRight(a) && k < MAX_RT_PRIO && !c.queued && CountersRight(a, c, {}) && p !in a.prio
    ensures Uncounted(Added(a, p, k, head), c, p)
  {
    AddedRight(a, p, k, head);
    if c.nr == 0 { NothingListed(a); }
  }

  lemma {:induction false} HoleUncounted(a: PrioArray, c: Counters, p: nat)
    requires ArrayRight(a) && !c.queued && p in a.prio && CountersRight(a, c, {p})
    ensures Uncounted(a, c, p)
  {
    OnlyHole(a, c.onRq, p, a.prio[p]);
  }

  lemma {:induction false} NothingListed(a: PrioArray)
    requires ArrayRight(a) && a.prio.Keys == {}
    ensures Best(a) == MAX_RT_PRIO
  {
    var k := Best(a);
    if k < MAX_RT_PRIO { HeadIsListed(a, k); }
  }

  // ----- The run queue -----

  class RtRunqueue {
    var a: PrioArray
    var c: Counters

    ghost predicate Valid()
      reads this
    {
      Settled(a, c)
    }

    constructor ()
      ensures Valid() && a.queue == seq(MAX_RT_PRIO, _ => []) && !c.throttled
    {
      a := PrioArray(seq(MAX_RT_PRIO, _ => []), map[], seq(MAX_RT_PRIO + 1, i => i == MAX_RT_PRIO));
      c := Counters({}, 0, MAX_RT_PRIO, false, false, 0);
    }

    /** The queue's tasks leave rq->nr_running. */
    method DequeueTop()
      requires ShareRight(c)
      modifies this`c
      ensures c == old(c).(queued := false, share := 0) && ShareRight(c)
    {
      if !c.queued { return; }
      assert c.share > 0;  // BUG_ON(!rq->nr_running)
      c := c.(share := c.share - c.nr, queued := false);
    }

    /** Unless it was, the queue is counted in rq->nr_running, with all its tasks, exactly if it may run. */
    method EnqueueTop()
      requires ShareRight(c)
      modifies this`c
      ensures ShareRight(c) && c == old(c).(queued := c.queued, share := c.share)
      ensures if old(c).queued then c.queued else c.queued <==> c.nr > 0 && !c.throttled
    {
      if c.queued { return; }
      if c.throttled || c.nr == 0 { return; }
      c := c.(share := c.share + c.nr, queued := true);
    }

    /** inc_rt_tasks: a task that is on its list is counted, and then all counters are right. */
    method IncRtTasks(p: nat, prio: nat)
      requires Uncounted(a, c, p) && prio == a.prio[p]
      modifies this`c
      ensures CountersRight(a, c, {}) && c.throttled == old(c).throttled && !c.queued
    {
      c := c.(onRq := c.onRq + {p}, nr := c.nr + 1);
      if prio < c.highest { c := c.(highest := prio); }
      assert c.onRq == a.prio.Keys;
    }

    /** dec_rt_tasks: looking the best priority up again only when p had it makes all counters right. */
    method DecRtTasks(p: nat, prio: nat, ghost hole: set<nat>)
      requires Overcounted(a, c, p, prio, hole)
      modifies this`c
      ensures CountersRight(a, c, hole) && c.throttled == old(c).throttled && !c.queued
    {
      c := c.(onRq := c.onRq - {p}, nr := c.nr - 1);
      if c.nr != 0 {
        if prio == c.highest { c := c.(highest := FirstBit(a.bitmap, 0)); }
      } else {
        c := c.(highest := MAX_RT_PRIO);
      }
    }

    /** Takes p off; without `move` it keeps its place on the list. */
    method DequeueEntity(p: nat, move: bool)
      requires ArrayRight(a) && CountersRight(a, c, {}) && !c.queued && p in a.prio
      modifies this
      ensures a == if move then Delisted(old(a), p) else old(a)
      ensures ArrayRight(a) && CountersRight(a, c, if move then {} else {p})
      ensures !c.queued && c.throttled == old(c).throttled
    {
      DelistedOvercounted(a, c, p);
      var prio := a.prio[p];
      if move { a := Delisted(a, p); }
      DecRtTasks(p, prio, if move then {} else {p});
    }

    /** Puts p on; without `move` it takes the place it kept. */
    method EnqueueEntity(p: nat, k: nat, head: bool, move: bool)
      requires ArrayRight(a) && k < MAX_RT_PRIO && !c.queued
      requires if move then CountersRight(a, c, {}) && p !in a.prio
               else p in a.prio && a.prio[p] == k && CountersRight(a, c, {p})
      modifies this
      ensures a == if move then Added(old(a), p, k, head) else old(a)
      ensures ArrayRight(a) && CountersRight(a, c, {}) && !c.queued && c.throttled == old(c).throttled
    {
      if move {
        AddedUncounted(a, c, p, k, head);
        a := Added(a, p, k, head);
      } else {
        HoleUncounted(a, c, p);
      }
      IncRtTasks(p, k);
    }

    method EnqueueTask(p: nat, k: nat, head: bool)
      requires Valid() && k < MAX_RT_PRIO && (p in a.prio ==> a.prio[p] == k)
      modifies this
      ensures Valid() && c.throttled == old(c).throttled
      ensures var list := Remove(old(a).queue[k], p);
              a.queue == old(a).queue[k := if head then [p] + list else list + [p]]
    {
      ReplacedLists(a, p, k, head);
      DelistedLeaves(a, p);
      DequeueTop();
      if p in c.onRq { DequeueEntity(p, true); }
      EnqueueEntity(p, k, head, true);
      EnqueueTop();
    }

    method DequeueTask(p: nat)
      requires Valid() && p in a.prio
      modifies this
      ensures Valid() && c.throttled == old(c).throttled
      ensures a.queue == old(a).queue[old(a).prio[p] := Remove(old(a).queue[old(a).prio[p]], p)]
    {
      DequeueTop();
      DequeueEntity(p, true);
      EnqueueTop();
    }

    /** A change of attributes: dequeue with DEQUEUE_SAVE, enqueue with ENQUEUE_RESTORE. */
    method SaveRestore(p: nat)
      requires Valid() && p in a.prio
      modifies this
      ensures Valid() && c.throttled == old(c).throttled && a.queue == old(a).queue
    {
      DequeueTop();
      DequeueEntity(p, false);
      EnqueueTop();
      DequeueTop();
      EnqueueEntity(p, a.prio[p], false, false);
      EnqueueTop();
    }

    method Requeue(p: nat, head: bool)
      requires Valid()
      modifies this`a
      ensures Valid()
      ensures p !in old(a).prio ==> a == old(a)
      ensures p in old(a).prio ==>
                var k := old(a).prio[p];
                var list := Remove(old(a).queue[k], p);
                a.queue == old(a).queue[k := if head then [p] + list else list + [p]]
    {
      if p in c.onRq {
        var k := a.prio[p];
        RequeueRight(a, p, head);
        var list := Remove(a.queue[k], p);
        a := a.(queue := a.queue[k := if head then [p] + list else list + [p]]);
      }
    }

    /** The end of sched_rt_runtime_exceeded for a queue that is over its runtime. */
    method Throttle()
      requires Valid()
      modifies this`c
      ensures Valid() && c.throttled && a == old(a)
    {
      c := c.(throttled := true);
      DequeueTop();
    }

    method Unthrottle()
      requires Valid()
      modifies this`c
      ensures Valid() && !c.throttled && a == old(a)
    {
      c := c.(throttled := false);
      if c.nr != 0 { EnqueueTop(); }
    }

    /** The head of the best list; nothing when the queue is not on rq->nr_running. */
    method PickNextTask() returns (r: Option<nat>)
      requires Valid()
      ensures r.None? <==> c.throttled || forall k :: 0 <= k < MAX_RT_PRIO ==> a.queue[k] == []
      ensures r.Some? ==> r.value in a.prio && c.highest == a.prio[r.value] && r.value == a.queue[c.highest][0]
                          && forall p :: p in a.prio ==> a.prio[r.value] <= a.prio[p]
    {
      SomeoneQueued(a, c);
      if !c.queued { return None; }
      var idx := FirstBit(a.bitmap, 0);
      assert idx < MAX_RT_PRIO;  // BUG_ON(idx >= MAX_RT_PRIO)
      assert a.queue[idx][0] in a.queue[idx];
      forall p | p in a.prio ensures idx <= a.prio[p] { assert p in a.queue[a.prio[p]]; }
      return Some(a.queue[idx][0]);
    }

    /** A task may be queued if it is not, or again at the same priority; any other call is not made. */
    method TryEnqueue(p: nat, k: nat, head: bool)
      requires Valid()
      modifies this
      ensures Valid() && Lists(a.queue, c.throttled) == Next(Lists(old(a).queue, old(c).throttled), Enqueue(p, k, head))
    {
      WhereIsPrio(a, p);
      if k < MAX_RT_PRIO && (p in a.prio ==> a.prio[p] == k) { EnqueueTask(p, k, head); }
    }

    /** Only a queued task is dequeued. */
    method TryDequeue(p: nat)
      requires Valid()
      modifies this
      ensures Valid() && Lists(a.queue, c.throttled) == Next(Lists(old(a).queue, old(c).throttled), Dequeue(p))
    {
      WhereIsPrio(a, p);
      if p in a.prio { DequeueTask(p); }
    }

    method TryRequeue(p: nat, head: bool)
      requires Valid()
      modifies this`a
      ensures Valid() && Lists(a.queue, c.throttled) == Next(Lists(old(a).queue, c.throttled), Move(p, head))
    {
      WhereIsPrio(a, p);
      Requeue(p, head);
    }

    /** One operation; one the kernel would not perform changes nothing. */
    method RunOne(op: Op)
      requires Valid()
      modifies this
      ensures Valid() && Lists(a.queue, c.throttled) == Next(Lists(old(a).queue, old(c).throttled), op)
    {
      match op {
        case Enqueue(p, k, head) => TryEnqueue(p, k, head);
        case Dequeue(p) => TryDequeue(p);
        case Restore(p) => if p in a.prio { SaveRestore(p); }
        case Move(p, head) => TryRequeue(p, head);
        case Exceed => Throttle();
        case Replenish => Unthrottle();
      }
    }

    /** Any run does to the lists what the reference does, with every counter right throughout. */
    method Run(ops: seq<Op>)
      requires Valid()
      modifies this
      ensures Valid() && Lists(a.queue, c.throttled) == RunAll(Lists(old(a).queue, old(c).throttled), ops)
    {
      ghost var goal := RunAll(Lists(a.queue, c.throttled), ops);
      for i := 0 to |ops|
        invariant Valid() && RunAll(Lists(a.queue, c.throttled), ops[i..]) == goal
      {
        assert ops[i..][1..] == ops[i + 1..];
        RunOne(ops[i]);
      }
    }
  }

  // ----- The reference: a list per priority and a switch -----

  datatype Lists = Lists(queue: seq<seq<nat>>, throttled: bool)

  datatype Op =
    | Enqueue(p: nat, k: nat, head: bool)
    | Dequeue(p: nat)
    | Restore(p: nat)
    | Move(p: nat, head: bool)
    | Exceed
    | Replenish

  ghost predicate OnList(queue: seq<seq<nat>>, p: nat, k: nat) { k < |queue| && p in queue[k] }

  /** The list p is on. */
  ghost function Where(queue: seq<seq<nat>>, p: nat): Option<nat> {
    if exists k: nat :: OnList(queue, p, k) then (var k: nat :| OnList(queue, p, k); Some(k)) else None
  }

  lemma {:induction false} WhereIsPrio(a: PrioArray, p: nat)
    requires ArrayRight(a)
    ensures Where(a.queue, p) == if p in a.prio then Some(a.prio[p]) else None
  {
    assert p in a.prio ==> OnList(a.queue, p, a.prio[p]);
    forall k: nat | OnList(a.queue, p, k) ensures p in a.prio && a.prio[p] == k {
      assert p in a.queue[k];
    }
  }

  function Placed(list: seq<nat>, p: nat, head: bool): seq<nat> {
    if head then [p] + Remove(list, p) else Remove(list, p) + [p]
  }

  ghost function Next(s: Lists, op: Op): Lists {
    match op
    case Enqueue(p, k, head) =>
      var w := Where(s.queue, p);
      if k < |s.queue| && (w.None? || w == Some(k)) then s.(queue := s.queue[k := Placed(s.queue[k], p, head)]) else s
    case Dequeue(p) =>
      var w := Where(s.queue, p);
      if w.Some? && w.value < |s.queue| then s.(queue := s.queue[w.value := Remove(s.queue[w.value], p)]) else s
    case Restore(_) => s
    case Move(p, head) =>
      var w := Where(s.queue, p);
      if w.Some? && w.value < |s.queue| then s.(queue := s.queue[w.value := Placed(s.queue[w.value], p, head)]) else s
    case Exceed => s.(throttled := true)
    case Replenish => s.(throttled := false)
  }

  ghost function RunAll(s: Lists, ops: seq<Op>): Lists
    decreases |ops|
  {
    if ops == [] then s else RunAll(Next(s, ops[0]), ops[1..])
  }

  /** A queue that counts nothing has nothing on its lists but the task being put back. */
  lemma {:induction false} OnlyHole(a: PrioArray, on: set<nat>, p: nat, k: nat)
    requires ArrayRight(a) && p in a.prio && a.prio[p] == k && p !in on && on + {p} == a.prio.Keys
    ensures Best(a) <= k && (on == {} ==> Best(a) == k)
  {
    assert p in a.queue[k];
    forall i | 0 <= i < MAX_RT_PRIO
      ensures a.queue[i] != [] ==> a.queue[i][0] in a.prio.Keys && a.prio[a.queue[i][0]] == i
    {
      HeadIsListed(a, i);
    }
  }

  lemma {:induction false} HeadIsListed(a: PrioArray, k: nat)
    requires ArrayRight(a) && k < MAX_RT_PRIO
    ensures a.queue[k] != [] ==> a.queue[k][0] in a.prio.Keys && a.prio[a.queue[k][0]] == k
  {
    if a.queue[k] != [] { assert a.queue[k][0] in a.queue[k]; }
  }

  lemma {:induction false} RequeueRight(a: PrioArray, p: nat, head: bool)
    requires ArrayRight(a) && p in a.prio
    ensures var k := a.prio[p];
            var list := Remove(a.queue[k], p);
            var a' := a.(queue := a.queue[k := if head then [p] + list else list + [p]]);
            ArrayRight(a') && Best(a') == Best(a)
  {
    var k := a.prio[p];
    assert p in a.queue[k];
    RemoveElements(a.queue[k], p);
    var list := Remove(a.queue[k], p);
    assert forall x :: x in [p] + list <==> x in a.queue[k];
    assert forall x :: x in list + [p] <==> x in a.queue[k];
  }

  lemma {:induction false} SomeoneQueued(a: PrioArray, c: Counters)
    requires Settled(a, c)
    ensures c.nr == 0 <==> forall k :: 0 <= k < MAX_RT_PRIO ==> a.queue[k] == []
    ensures c.nr > 0 ==> Best(a) < MAX_RT_PRIO
  {
    if c.nr > 0 {
      var p :| p in c.onRq;
      assert p in a.queue[a.prio[p]];
    } else {
      assert c.onRq == {} && a.prio.Keys == {};
      forall k | 0 <= k < MAX_RT_PRIO ensures a.queue[k] == [] {
        HeadIsListed(a, k);
      }
    }
  }
}
