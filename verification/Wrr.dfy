/**
 The weighted round-robin class: one list per CPU, a time slice of weight * WRR_TIMESLICE ticks, and
 the tick that moves an exhausted task to the tail. Any task of the list may be the running one; only the
 results on fairness ask that ticks go to the head, as they do when every change of the head is followed by a
 pick.
 */
module Wrr {
  import opened Common

  const EINVAL := 22
  const EACCES := 13

  /** weight and timeSlice. */
  datatype Entity = Entity(weight: nat, slice: nat)

  /** The run list and every task's entity; a task off the list keeps its entity. */
  datatype Queue = Queue(list: seq<nat>, se: map<nat, Entity>) {
    ghost predicate Valid() {
      && Distinct(list) && (forall i :: 0 <= i < |list| ==> list[i] in se)
      && (forall p :: p in se ==> se[p].weight >= 1 && se[p].slice >= 1)
    }
  }

  // ----- What each operation does to the list and the entities -----

  datatype Op =
    | Enqueue(p: nat, head: bool)
    | Dequeue(p: nat)
    | Yield(p: nat)
    | Tick(p: nat)
    | SetWeight(p: nat, weight: int)

  function Enqueued(q: Queue, p: nat, head: bool): Queue {
    q.(list := if head then [p] + q.list else q.list + [p])
  }

  function Requeued(q: Queue, p: nat, head: bool): Queue {
    Enqueued(q.(list := Remove(q.list, p)), p, head)
  }

  /** One tick of p: a slice used up is renewed, and the task goes behind the others. */
  function Ticked(q: Queue, ts: nat, p: nat): Queue
    requires p in q.se
  {
    var e := q.se[p];
    if e.slice > 1 then q.(se := q.se[p := e.(slice := e.slice - 1)])
    else
      var q' := q.(se := q.se[p := e.(slice := e.weight * ts)]);
      if |q.list| > 1 then Requeued(q', p, false) else q'
  }

  function Weighted(q: Queue, p: nat, weight: nat): Queue
    requires p in q.se
  {
    q.(se := q.se[p := q.se[p].(weight := weight)])
  }

  function Next(q: Queue, ts: nat, op: Op): Queue
    requires forall i :: 0 <= i < |q.list| ==> q.list[i] in q.se
  {
    match op
    case Enqueue(p, head) => if p in q.se && p !in q.list then Enqueued(q, p, head) else q
    case Dequeue(p) => q.(list := Remove(q.list, p))
    case Yield(p) => if p in q.list then Requeued(q, p, false) else q
    case Tick(p) => if p in q.list then Ticked(q, ts, p) else q
    case SetWeight(p, w) => if p in q.list && w >= 1 then Weighted(q, p, w) else q
  }

  lemma {:induction false} NextValid(q: Queue, ts: nat, op: Op)
    requires q.Valid() && ts >= 1
    ensures Next(q, ts, op).Valid()
  {
    match op
    case Enqueue(p, head) =>
    case Dequeue(p) => RemovedValid(q, p);
    case Yield(p) => if p in q.list { RequeuedValid(q, p, false); }
    case Tick(p) => if p in q.list { TickedValid(q, ts, p); }
    case SetWeight(p, w) =>
  }

  lemma {:induction false} TickedValid(q: Queue, ts: nat, p: nat)
    requires q.Valid() && ts >= 1 && p in q.list
    ensures Ticked(q, ts, p).Valid()
  {
    Positive(q.se[p].weight, ts);
    RequeuedValid(q.(se := q.se[p := q.se[p].(slice := q.se[p].weight * ts)]), p, false);
  }

  lemma {:induction false} Positive(w: nat, ts: nat)
    requires w >= 1 && ts >= 1
    ensures w * ts >= 1
  {
  }

  lemma {:induction false} RemovedValid(q: Queue, p: nat)
    requires q.Valid()
    ensures q.(list := Remove(q.list, p)).Valid()
  {
    RemoveElements(q.list, p);
    var list := Remove(q.list, p);
    forall i | 0 <= i < |list| ensures list[i] in q.se { assert list[i] in list; }
  }

  lemma {:induction false} RequeuedValid(q: Queue, p: nat, head: bool)
    requires q.Valid() && p in q.list
    ensures Requeued(q, p, head).Valid()
  {
    RemovedValid(q, p);
    RemoveElements(q.list, p);
    var list := Remove(q.list, p);
    forall i | 0 <= i < |list| ensures list[i] != p { assert list[i] in list; }
  }

  // ----- The counters -----

  function TotalWeight(list: seq<nat>, se: map<nat, Entity>): nat
    requires forall i :: 0 <= i < |list| ==> list[i] in se
  {
    if list == [] then 0 else se[list[0]].weight + TotalWeight(list[1..], se)
  }

  lemma {:induction false} WeightRemove(list: seq<nat>, se: map<nat, Entity>, p: nat)
    requires (forall i :: 0 <= i < |list| ==> list[i] in se) && p in list
    ensures forall i :: 0 <= i < |Remove(list, p)| ==> Remove(list, p)[i] in se
    ensures TotalWeight(Remove(list, p), se) == TotalWeight(list, se) - se[p].weight
    decreases |list|
  {
    if list[0] != p {
      WeightRemove(list[1..], se, p);
      assert Remove(list, p)[1..] == Remove(list[1..], p);
    }
  }

  lemma {:induction false} WeightAppend(list: seq<nat>, se: map<nat, Entity>, p: nat)
    requires (forall i :: 0 <= i < |list| ==> list[i] in se) && p in se
    ensures TotalWeight(list + [p], se) == TotalWeight(list, se) + se[p].weight
    decreases |list|
  {
    if list == [] {
      assert (list + [p])[1..] == [];
    } else {
      assert (list + [p])[1..] == list[1..] + [p];
      WeightAppend(list[1..], se, p);
    }
  }

  /** The weights of other tasks alone decide. */
  lemma {:induction false} WeightElsewhere(list: seq<nat>, se: map<nat, Entity>, p: nat, e: Entity)
    requires (forall i :: 0 <= i < |list| ==> list[i] in se) && p in se
    requires (p in list ==> e.weight == se[p].weight)
    ensures TotalWeight(list, se[p := e]) == TotalWeight(list, se)
    decreases |list|
  {
    if list != [] { WeightElsewhere(list[1..], se, p, e); }
  }

  /** A new weight of one listed task changes the total by the difference. */
  lemma {:induction false} WeightChanges(list: seq<nat>, se: map<nat, Entity>, p: nat, weight: nat)
    requires (forall i :: 0 <= i < |list| ==> list[i] in se) && p in list && Distinct(list)
    ensures TotalWeight(list, se[p := se[p].(weight := weight)]) == TotalWeight(list, se) - se[p].weight + weight
    decreases |list|
  {
    if list[0] == p {
      assert p !in list[1..];
      WeightElsewhere(list[1..], se, p, se[p].(weight := weight));
    } else {
      WeightChanges(list[1..], se, p, weight);
    }
  }

  class WrrRq {
    const ts: nat           // WRR_TIMESLICE
    var q: Queue
    var nrRunning: int
    var totalWeight: int

    ghost predicate Valid()
      reads this
    {
      ts >= 1 && q.Valid() && nrRunning == |q.list| && totalWeight == TotalWeight(q.list, q.se)
    }

    constructor (ts: nat, se: map<nat, Entity>)
      requires ts >= 1 && forall p :: p in se ==> se[p].weight >= 1 && se[p].slice >= 1
      ensures Valid() && q == Queue([], se) && this.ts == ts
    {
      this.ts := ts;
      q, nrRunning, totalWeight := Queue([], se), 0, 0;
    }

    method EnqueueTask(p: nat, head: bool)
      requires Valid() && p in q.se && p !in q.list
      modifies this
      ensures Valid() && q == Enqueued(old(q), p, head)
      ensures q.list == if head then [p] + old(q).list else old(q).list + [p]
    {
      NextValid(q, ts, Enqueue(p, head));
      WeightAppend(q.list, q.se, p);
      assert ([p] + q.list)[1..] == q.list;
      if head {
        q := q.(list := [p] + q.list);
      } else {
        q := q.(list := q.list + [p]);
      }
      nrRunning := nrRunning + 1;
      totalWeight := totalWeight + q.se[p].weight;
    }

    /** Does nothing on an empty queue. */
    method DequeueTask(p: nat)
      requires Valid() && (p in q.list || q.list == [])
      modifies this
      ensures Valid() && q == old(q).(list := Remove(old(q).list, p))
    {
      if nrRunning == 0 { return; }
      RemovedValid(q, p);
      WeightRemove(q.list, q.se, p);
      q := q.(list := Remove(q.list, p));
      totalWeight := totalWeight - q.se[p].weight;
      nrRunning := nrRunning - 1;
    }

    method PickNextTask() returns (r: Option<nat>)
      requires Valid()
      ensures r == if q.list == [] then None else Some(q.list[0])
    {
      if nrRunning == 0 { return None; }
      return Some(q.list[0]);
    }

    /** list_move or list_move_tail. */
    method RequeueTask(p: nat, head: bool)
      requires Valid() && p in q.list
      modifies this
      ensures Valid() && q == Requeued(old(q), p, head)
      ensures var others := Remove(old(q).list, p); q.list == if head then [p] + others else others + [p]
    {
      RequeuedValid(q, p, head);
      var list := Remove(q.list, p);
      WeightRemove(q.list, q.se, p);
      WeightAppend(list, q.se, p);
      assert ([p] + list)[1..] == list;
      q := q.(list := if head then [p] + list else list + [p]);
    }

    /** The tick of the running task p; a task of another policy is left alone. */
    method TaskTick(p: nat, wrrPolicy: bool)
      requires Valid() && (wrrPolicy ==> p in q.list)
      modifies this
      ensures Valid() && q == if wrrPolicy then Ticked(old(q), ts, p) else old(q)
      ensures wrrPolicy && old(q).se[p].slice > 1 ==>
                q.list == old(q).list && q.se[p] == old(q).se[p].(slice := old(q).se[p].slice - 1)
      ensures wrrPolicy && old(q).se[p].slice == 1 ==>
                q.list == Remove(old(q).list, p) + [p] && q.se[p] == old(q).se[p].(slice := old(q).se[p].weight * ts)
    {
      if !wrrPolicy { return; }
      TickedValid(q, ts, p);
      var e := q.se[p].(slice := q.se[p].slice - 1);
      if e.slice != 0 {
        WeightElsewhere(q.list, q.se, p, e);
        q := q.(se := q.se[p := e]);
        return;
      }
      e := e.(slice := e.weight * ts);
      Positive(e.weight, ts);
      WeightElsewhere(q.list, q.se, p, e);
      q := q.(se := q.se[p := e]);
      if |q.list| > 1 { RequeueTask(p, false); }
    }

    /** The system call of task p: totalWeight follows its weight. */
    method SetWrrWeight(p: nat, weight: int, isWrr: bool) returns (err: int)
      requires Valid() && (isWrr ==> p in q.list)
      modifies this
      ensures Valid() && err == (if weight < 1 then -EINVAL else if !isWrr then -EACCES else 0)
      ensures q == if err == 0 then Weighted(old(q), p, weight) else old(q)
    {
      if weight < 1 { return -EINVAL; }
      if !isWrr { return -EACCES; }
      WeightChanges(q.list, q.se, p, weight);
      totalWeight := totalWeight - q.se[p].weight;
      totalWeight := totalWeight + weight;
      q := Weighted(q, p, weight);
      return 0;
    }

    /** Through any run the counters match the list, and the list is what the operations say. */
    method Run(ops: seq<Op>)
      requires Valid()
      modifies this
      ensures Valid() && q == RunAll(old(q), ts, ops)
    {
      ghost var goal := RunAll(q, ts, ops);
      for i := 0 to |ops|
        invariant Valid() && RunAll(q, ts, ops[i..]) == goal
      {
        assert ops[i..][1..] == ops[i + 1..];
        match ops[i] {
          case Enqueue(p, head) => if p in q.se && p !in q.list { EnqueueTask(p, head); }
          case Dequeue(p) => if p in q.list { DequeueTask(p); }
          case Yield(p) => if p in q.list { RequeueTask(p, false); }
          case Tick(p) => if p in q.list { TaskTick(p, true); }
          case SetWeight(p, w) => if p in q.list { var err := SetWrrWeight(p, w, true); }
        }
      }
    }
  }

  ghost function RunAll(q: Queue, ts: nat, ops: seq<Op>): (q': Queue)
    requires q.Valid() && ts >= 1
    ensures q'.Valid()
    decreases |ops|
  {
    if ops == [] then q else (NextValid(q, ts, ops[0]); RunAll(Next(q, ts, ops[0]), ts, ops[1..]))
  }

  // ----- No starvation -----

  /** The slices left of the tasks ahead of p. */
  function Ahead(list: seq<nat>, se: map<nat, Entity>, p: nat): nat
    requires forall i :: 0 <= i < |list| ==> list[i] in se
  {
    if list == [] || list[0] == p then 0 else se[list[0]].slice + Ahead(list[1..], se, p)
  }

  lemma {:induction false} AheadAppend(list: seq<nat>, se: map<nat, Entity>, p: nat, x: nat)
    requires (forall i :: 0 <= i < |list| ==> list[i] in se) && x in se && p in list
    ensures Ahead(list + [x], se, p) == Ahead(list, se, p)
    decreases |list|
  {
    assert (list + [x])[1..] == list[1..] + [x];
    if list[0] != p { AheadAppend(list[1..], se, p, x); }
  }

  lemma {:induction false} AheadRemove(list: seq<nat>, se: map<nat, Entity>, p: nat, x: nat)
    requires (forall i :: 0 <= i < |list| ==> list[i] in se) && x != p
    ensures forall i :: 0 <= i < |Remove(list, x)| ==> Remove(list, x)[i] in se
    ensures Ahead(Remove(list, x), se, p) <= Ahead(list, se, p)
    decreases |list|
  {
    if list != [] && list[0] != x {
      AheadRemove(list[1..], se, p, x);
      assert Remove(list, x)[1..] == Remove(list[1..], x);
    }
  }

  lemma {:induction false} AheadElsewhere(list: seq<nat>, se: map<nat, Entity>, p: nat, x: nat, e: Entity)
    requires (forall i :: 0 <= i < |list| ==> list[i] in se) && x in se && (x in list ==> e.slice == se[x].slice)
    ensures Ahead(list, se[x := e], p) == Ahead(list, se, p)
    decreases |list|
  {
    if list != [] { AheadElsewhere(list[1..], se, p, x, e); }
  }

  /**
   A waiting task keeps waiting: p itself is not dequeued and does not yield, nobody is put at the head, and ticks
   go to the head.
   */
  predicate Fair(q: Queue, op: Op, p: nat) {
    match op
    case Enqueue(_, head) => !head
    case Dequeue(x) => x != p
    case Yield(x) => x != p
    case Tick(x) => q.list != [] && x == q.list[0]
    case SetWeight(_, _) => true
  }

  lemma {:induction false} RequeueGetsCloser(q: Queue, x: nat, p: nat)
    requires q.Valid() && p in q.list && x in q.list && x != p
    ensures var q' := Requeued(q, x, false);
            q'.Valid() && p in q'.list && Ahead(q'.list, q'.se, p) <= Ahead(q.list, q.se, p)
  {
    RequeuedValid(q, x, false);
    RemoveElements(q.list, x);
    AheadRemove(q.list, q.se, p, x);
    AheadAppend(Remove(q.list, x), q.se, p, x);
  }

  lemma {:induction false} TickGetsCloser(q: Queue, ts: nat, p: nat)
    requires q.Valid() && ts >= 1 && p in q.list && q.list[0] != p
    ensures var q' := Ticked(q, ts, q.list[0]);
            q'.Valid() && p in q'.list && Ahead(q'.list, q'.se, p) + 1 <= Ahead(q.list, q.se, p)
  {
    var h := q.list[0];
    TickedValid(q, ts, h);
    var e := Ticked(q, ts, h).se[h];
    assert h !in q.list[1..];
    AheadElsewhere(q.list[1..], q.se, p, h, e);
    assert Remove(q.list, h) == q.list[1..];
    AheadAppend(q.list[1..], q.se[h := e], p, h);
  }

  /** While p is not at the head, a tick takes exactly one from what is ahead of it and nothing adds to it. */
  lemma {:induction false} StepGetsCloser(q: Queue, ts: nat, op: Op, p: nat)
    requires q.Valid() && ts >= 1 && p in q.list && q.list[0] != p && Fair(q, op, p)
    ensures var q' := Next(q, ts, op);
            && q'.Valid() && p in q'.list
            && Ahead(q'.list, q'.se, p) + (if op.Tick? then 1 else 0) <= Ahead(q.list, q.se, p)
  {
    NextValid(q, ts, op);
    match op
    case Enqueue(x, head) => if x in q.se { AheadAppend(q.list, q.se, p, x); }
    case Dequeue(x) =>
      RemoveElements(q.list, x);
      AheadRemove(q.list, q.se, p, x);
    case Yield(x) => if x in q.list { RequeueGetsCloser(q, x, p); }
    case Tick(x) => TickGetsCloser(q, ts, p);
    case SetWeight(x, w) =>
      if x in q.list && w >= 1 { AheadElsewhere(q.list, q.se, p, x, q.se[x].(weight := w)); }
  }

  function Ticks(ops: seq<Op>): nat
    decreases |ops|
  {
    if ops == [] then 0 else (if ops[0].Tick? then 1 else 0) + Ticks(ops[1..])
  }

  /** Every operation of the run is fair to p. */
  ghost predicate FairRun(q: Queue, ts: nat, ops: seq<Op>, p: nat)
    requires q.Valid() && ts >= 1
    decreases |ops|
  {
    ops == [] || (Fair(q, ops[0], p) && (NextValid(q, ts, ops[0]); FairRun(Next(q, ts, ops[0]), ts, ops[1..], p)))
  }

  /** p is at the head at some point of the run. */
  ghost predicate ReachesHead(q: Queue, ts: nat, ops: seq<Op>, p: nat)
    requires q.Valid() && ts >= 1
    decreases |ops|
  {
    || (q.list != [] && q.list[0] == p)
    || (ops != [] && (NextValid(q, ts, ops[0]); ReachesHead(Next(q, ts, ops[0]), ts, ops[1..], p)))
  }

  /** A waiting task reaches the head within as many ticks as the tasks ahead of it have slices left. */
  lemma {:induction false} NoStarvation(q: Queue, ts: nat, ops: seq<Op>, p: nat)
    requires q.Valid() && ts >= 1 && p in q.list && FairRun(q, ts, ops, p)
    ensures !ReachesHead(q, ts, ops, p) ==> Ticks(ops) < Ahead(q.list, q.se, p)
    decreases |ops|
  {
    if q.list[0] != p {
      if ops == [] {
        assert q.se[q.list[0]].slice >= 1;
      } else {
        StepGetsCloser(q, ts, ops[0], p);
        NoStarvation(Next(q, ts, ops[0]), ts, ops[1..], p);
      }
    }
  }

  // ----- Weighted fairness -----

  function Iterate<T>(f: T -> T, x: T, n: nat): T {
    if n == 0 then x else f(Iterate(f, x, n - 1))
  }

  /** In how many of the n states passed through the test holds. */
  function Count<T>(f: T -> T, test: T -> bool, x: T, n: nat): nat {
    if n == 0 then 0 else Count(f, test, x, n - 1) + if test(Iterate(f, x, n - 1)) then 1 else 0
  }

  lemma {:induction false} IterateAdd<T>(f: T -> T, x: T, m: nat, n: nat)
    ensures Iterate(f, x, m + n) == Iterate(f, Iterate(f, x, m), n)
    decreases n
  {
    if n > 0 { IterateAdd(f, x, m, n - 1); }
  }

  lemma {:induction false} CountAdd<T>(f: T -> T, test: T -> bool, x: T, m: nat, n: nat)
    ensures Count(f, test, x, m + n) == Count(f, test, x, m) + Count(f, test, Iterate(f, x, m), n)
    decreases n
  {
    if n > 0 {
      CountAdd(f, test, x, m, n - 1);
      IterateAdd(f, x, m, n - 1);
    }
  }

  function TickOf(ts: nat): Queue -> Queue {
    (q: Queue) => if q.list != [] && q.list[0] in q.se then Ticked(q, ts, q.list[0]) else q
  }

  function HeadIs(p: nat): Queue -> bool {
    (q: Queue) => q.list != [] && q.list[0] == p
  }

  /** n ticks and nothing else. */
  function TickedTimes(q: Queue, ts: nat, n: nat): Queue { Iterate(TickOf(ts), q, n) }

  /** How many of n ticks p gets. */
  function Served(q: Queue, ts: nat, n: nat, p: nat): nat { Count(TickOf(ts), HeadIs(p), q, n) }

  /** Fewer ticks than its slice all go to the head. */
  lemma {:induction false} HeadRuns(q: Queue, ts: nat, n: nat, p: nat)
    requires q.Valid() && q.list != [] && n < q.se[q.list[0]].slice
    ensures var h := q.list[0];
            TickedTimes(q, ts, n) == q.(se := q.se[h := q.se[h].(slice := q.se[h].slice - n)])
    ensures Served(q, ts, n, p) == if p == q.list[0] then n else 0
    decreases n
  {
    if n == 0 {
      assert q.se[q.list[0] := q.se[q.list[0]]] == q.se;
    } else {
      HeadRuns(q, ts, n - 1, p);
    }
  }

  /** The last tick of a slice refills the slice and moves the head to the tail. */
  lemma {:induction false} LastTick(q: Queue, r: Queue, ts: nat)
    requires q.Valid() && q.list != [] && q.se[q.list[0]].slice == q.se[q.list[0]].weight * ts
    requires r == q.(se := q.se[q.list[0] := q.se[q.list[0]].(slice := 1)])
    ensures TickOf(ts)(r) == q.(list := q.list[1..] + [q.list[0]])
  {
    var h := q.list[0];
    assert r.se[h := q.se[h]] == q.se;
    assert Remove(q.list, h) == q.list[1..];
    if |q.list| == 1 { assert q.list[1..] + [h] == q.list; }
  }

  /** A whole slice of the head, if fresh, leaves everything as it was with the head at the tail. */
  lemma {:induction false} SliceRotates(q: Queue, ts: nat, p: nat)
    requires q.Valid() && q.list != []
    requires var e := q.se[q.list[0]]; e.slice == e.weight * ts
    ensures TakesItsTurn(q, ts, q.list[0], p, q.se[q.list[0]].slice)
  {
    var h := q.list[0];
    var n := q.se[h].slice;
    var r := q.(se := q.se[h := q.se[h].(slice := 1)]);
    assert TickedTimes(q, ts, n - 1) == r && Served(q, ts, n - 1, p) == (if p == h then n - 1 else 0) by {
      HeadRuns(q, ts, n - 1, p);
    }
    LastTick(q, r, ts);
    OneMore(TickOf(ts), HeadIs(p), q, n - 1, n, r);
  }

  lemma {:induction false} OneMore<T>(f: T -> T, test: T -> bool, x: T, m: nat, n: nat, y: T)
    requires n == m + 1 && Iterate(f, x, m) == y
    ensures Iterate(f, x, n) == f(y) && Count(f, test, x, n) == Count(f, test, x, m) + if test(y) then 1 else 0
  {
  }

  ghost predicate TakesItsTurn(r: Queue, ts: nat, h: nat, p: nat, n: nat) {
    && r.list != [] && TickedTimes(r, ts, n) == r.(list := r.list[1..] + [h])
    && Served(r, ts, n, p) == if p == h then n else 0
  }

  ghost predicate Fresh(q: Queue, ts: nat)
    requires q.Valid()
  {
    forall i :: 0 <= i < |q.list| ==> q.se[q.list[i]].slice == q.se[q.list[i]].weight * ts
  }

  /** The queue with its first k tasks moved to the tail. */
  function Rotated(q: Queue, k: nat): Queue
    requires k <= |q.list|
  {
    q.(list := q.list[k..] + q.list[..k])
  }

  lemma {:induction false} RotatedOnce(list: seq<nat>, k: nat)
    requires k < |list|
    ensures (list[k..] + list[..k])[1..] + [list[k]] == list[k + 1..] + list[..k + 1]
  {
  }

  lemma {:induction false} RotatedValid(q: Queue, k: nat)
    requires q.Valid() && k < |q.list|
    ensures Rotated(q, k).Valid() && Rotated(q, k).list[0] == q.list[k]
  {
  }

  /** The i-th turn starts with the queue rotated i times, is as long as a slice, and serves one task. */
  function AtTurn(q: Queue): nat -> Queue {
    (i: nat) => if i <= |q.list| then Rotated(q, i) else q
  }

  function SliceAt(q: Queue): nat -> nat {
    (i: nat) => if i < |q.list| && q.list[i] in q.se then q.se[q.list[i]].slice else 0
  }

  function GotAt(q: Queue, p: nat): nat -> nat {
    (i: nat) => if i < |q.list| && q.list[i] == p && p in q.se then q.se[p].slice else 0
  }

  lemma {:induction false} TurnIsNext(q: Queue, ts: nat, i: nat, p: nat)
    requires q.Valid() && Fresh(q, ts) && i < |q.list|
    ensures TurnTaken(TickOf(ts), HeadIs(p), AtTurn(q), SliceAt(q), GotAt(q, p), i)
  {
    RotatedValid(q, i);
    SliceRotates(Rotated(q, i), ts, p);
    RotatedOnce(q.list, i);
  }

  /** From one state to the next in so many steps, passing the test so often. */
  ghost predicate TurnTaken<T>(f: T -> T, test: T -> bool, at: nat -> T, len: nat -> nat, got: nat -> nat, i: nat) {
    Iterate(f, at(i), len(i)) == at(i + 1) && Count(f, test, at(i), len(i)) == got(i)
  }

  function Total(g: nat -> nat, k: nat): nat { if k == 0 then 0 else Total(g, k - 1) + g(k - 1) }

  lemma {:induction false} AllTurns<T>(f: T -> T, test: T -> bool, at: nat -> T, len: nat -> nat, got: nat -> nat,
                                       k: nat)
    requires forall i: nat :: i < k ==> TurnTaken(f, test, at, len, got, i)
    ensures Iterate(f, at(0), Total(len, k)) == at(k) && Count(f, test, at(0), Total(len, k)) == Total(got, k)
    decreases k
  {
    if k > 0 {
      AllTurns(f, test, at, len, got, k - 1);
      assert TurnTaken(f, test, at, len, got, k - 1);
      IterateAdd(f, at(0), Total(len, k - 1), len(k - 1));
      CountAdd(f, test, at(0), Total(len, k - 1), len(k - 1));
    }
  }

  lemma {:induction false} SlicesAreWeight(q: Queue, ts: nat, k: nat)
    requires q.Valid() && Fresh(q, ts) && k <= |q.list|
    ensures Total(SliceAt(q), k) == TotalWeight(q.list[..k], q.se) * ts
    decreases k
  {
    if k > 0 {
      SlicesAreWeight(q, ts, k - 1);
      var h := q.list[k - 1];
      assert q.list[..k] == q.list[..k - 1] + [h];
      WeightAppend(q.list[..k - 1], q.se, h);
      Distribute(TotalWeight(q.list[..k - 1], q.se), q.se[h].weight, ts);
    }
  }

  lemma {:induction false} Distribute(a: nat, b: nat, c: nat)
    ensures (a + b) * c == a * c + b * c
  {
  }

  /** Among distinct tasks each is served in one turn only. */
  lemma {:induction false} ServedOnce(q: Queue, p: nat, k: nat)
    requires q.Valid() && k <= |q.list| && p in q.se
    ensures Total(GotAt(q, p), k) == if p in q.list[..k] then q.se[p].slice else 0
    decreases k
  {
    if k > 0 {
      ServedOnce(q, p, k - 1);
      assert q.list[..k] == q.list[..k - 1] + [q.list[k - 1]];
      assert q.list[k - 1] !in q.list[..k - 1];
    }
  }

  /** Of n ticks p gets as many slices as it weighs. */
  ghost predicate HasShare(q: Queue, ts: nat, n: nat, p: nat)
    requires p in q.se
  {
    Served(q, ts, n, p) == q.se[p].weight * ts
  }

  lemma {:induction false} RoundOfTurns(q: Queue, ts: nat, p: nat, n: nat)
    requires q.Valid() && Fresh(q, ts) && n == Total(SliceAt(q), |q.list|)
    ensures TickedTimes(q, ts, n) == q && Served(q, ts, n, p) == Total(GotAt(q, p), |q.list|)
  {
    var k := |q.list|;
    assert AtTurn(q)(0) == q by { assert q.list[0..] + q.list[..0] == q.list; }
    assert AtTurn(q)(k) == q by { assert q.list[k..] + q.list[..k] == q.list; }
    forall i: nat | i < k ensures TurnTaken(TickOf(ts), HeadIs(p), AtTurn(q), SliceAt(q), GotAt(q, p), i) {
      TurnIsNext(q, ts, i, p);
    }
    AllTurns(TickOf(ts), HeadIs(p), AtTurn(q), SliceAt(q), GotAt(q, p), k);
  }

  lemma {:induction false} RoundFor(q: Queue, ts: nat, p: nat)
    requires q.Valid() && Fresh(q, ts) && p in q.list
    ensures var n := TotalWeight(q.list, q.se) * ts;
            TickedTimes(q, ts, n) == q && HasShare(q, ts, n, p)
  {
    var k := |q.list|;
    assert q.list[..k] == q.list;
    SlicesAreWeight(q, ts, k);
    ServedOnce(q, p, k);
    RoundOfTurns(q, ts, p, Total(SliceAt(q), k));
  }

  /** From fresh slices, one round gives each task exactly its weight in slices and restores the queue. */
  lemma {:induction false} RoundIsFair(q: Queue, ts: nat)
    requires q.Valid() && q.list != [] && Fresh(q, ts)
    ensures var n := TotalWeight(q.list, q.se) * ts;
            && TickedTimes(q, ts, n) == q
            && forall i :: 0 <= i < |q.list| ==> HasShare(q, ts, n, q.list[i])
  {
    RoundFor(q, ts, q.list[0]);
    forall i | 0 <= i < |q.list| ensures HasShare(q, ts, TotalWeight(q.list, q.se) * ts, q.list[i]) {
      RoundFor(q, ts, q.list[i]);
    }
  }
}
