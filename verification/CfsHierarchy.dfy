/**
 The CFS run queues of one CPU: a queue per task group, the group entity that represents a queue in
 its parent's queue, and the walk-up loops of enqueue, dequeue, throttle and unthrottle.

 `parent[g] < g` numbers the groups in creation order; 0 is the root group. `load.weight` is only
 ever tested for zero and every entity's weight is positive, so the test is `queue[g] != {}`.
 */
module CfsHierarchy {
  import opened Common

  datatype Entity = TaskSe(p: nat) | GroupSe(g: nat)

  // ----- What the counters should say -----

  ghost predicate Rooted(parent: seq<nat>) {
    |parent| >= 1 && forall g :: 0 < g < |parent| ==> parent[g] < g
  }

  /** What is queued in `from` counts in `to`: no group passed on the way up is throttled. */
  ghost predicate Reaches(parent: seq<nat>, thr: seq<bool>, from: nat, to: nat)
    requires Rooted(parent) && |thr| == |parent| && from < |parent|
    decreases from
  {
    from == to || (to < from && !thr[from] && Reaches(parent, thr, parent[from], to))
  }

  /** The part of the state the rest follows from: queued tasks (with their group) and throttled flags. */
  datatype Abs = Abs(parent: seq<nat>, tasks: map<nat, nat>, thr: seq<bool>) {

    ghost predicate Valid() {
      && Rooted(parent) && |thr| == |parent| && !thr[0]
      && forall p :: p in tasks ==> tasks[p] < |parent|
    }

    /** The queued tasks that count in g's h_nr_running. */
    ghost function Counted(g: nat): set<nat>
      requires Valid()
    {
      set p | p in tasks && Reaches(parent, thr, tasks[p], g)
    }

    ghost function Busy(): set<nat>
      requires Valid()
    {
      set g: nat | 0 <= g < |parent| && Counted(g) != {}
    }
  }

  /**
   Waking a queue may throttle it at once: going up from g through idle queues, the first one that
   is out of runtime, if no throttled or busy queue comes first.
   */
  ghost function WakeThrottles(parent: seq<nat>, thr: seq<bool>, busy: set<nat>, starved: set<nat>,
                               g: nat): (thr': seq<bool>)
    requires Rooted(parent) && |thr| == |parent| && g < |parent|
    ensures |thr'| == |thr|
    decreases g
  {
    if thr[g] || g in busy then thr
    else if g in starved then thr[g := true]
    else if g == 0 then thr
    else WakeThrottles(parent, thr, busy, starved, parent[g])
  }

  /** The throttled flags after q is unthrottled: a busy queue wakes those above it. */
  ghost function UnthrottleWakes(a: Abs, starved: set<nat>, q: nat): (thr': seq<bool>)
    requires a.Valid() && 0 < q < |a.parent|
    ensures |thr'| == |a.thr|
  {
    if q !in a.Busy() then a.thr[q := false]
    else WakeThrottles(a.parent, a.thr[q := false], a.Busy(), starved, a.parent[q])
  }

  // ----- Lemmas about the counted tasks -----

  /** Queueing p in g adds one wherever g reaches. */
  lemma {:induction false} TaskCounts(a: Abs, p: nat, g: nat, x: nat)
    requires a.Valid() && p !in a.tasks && g < |a.parent|
    ensures var a' := a.(tasks := a.tasks[p := g]);
            && a'.Valid()
            && |a'.Counted(x)| == |a.Counted(x)| + if Reaches(a.parent, a.thr, g, x) then 1 else 0
  {
    var a' := a.(tasks := a.tasks[p := g]);
    var more := if Reaches(a.parent, a.thr, g, x) then {p} else {};
    forall t ensures t in a'.Counted(x) <==> t in a.Counted(x) + more {
      if t != p { assert t in a'.tasks <==> t in a.tasks; }
    }
    assert a'.Counted(x) == a.Counted(x) + more;
  }

  /** Throttling q cuts what q counts off everything its parent reaches, and nothing else. */
  lemma {:induction false} ThrottleCounts(a: Abs, q: nat, x: nat)
    requires a.Valid() && 0 < q < |a.parent| && !a.thr[q]
    ensures var a' := a.(thr := a.thr[q := true]);
            && a'.Valid()
            && a'.Counted(q) == a.Counted(q)
            && (Reaches(a.parent, a.thr, a.parent[q], x) <==> Reaches(a.parent, a'.thr, a.parent[q], x))
            && |a.Counted(x)| == |a'.Counted(x)|
                + if Reaches(a.parent, a.thr, a.parent[q], x) then |a.Counted(q)| else 0
  {
    var a' := a.(thr := a.thr[q := true]);
    forall from: nat, to: nat | from < |a.parent|
      ensures Reaches(a.parent, a'.thr, from, to) <==>
                Reaches(a.parent, a.thr, from, to) && !(to < q && Reaches(a.parent, a.thr, from, q))
      ensures to < q && Reaches(a.parent, a.thr, from, q) ==>
                (Reaches(a.parent, a.thr, from, to) <==> Reaches(a.parent, a.thr, a.parent[q], to))
    {
      PathsThrough(a, q, from, to);
    }
    if Reaches(a.parent, a.thr, a.parent[q], x) {
      assert a.Counted(x) == a'.Counted(x) + a.Counted(q);
      assert a'.Counted(x) !! a.Counted(q);
    } else {
      assert a.Counted(x) == a'.Counted(x);
    }
  }

  /** A new group counts nothing and changes no count. */
  lemma {:induction false} GroupCounts(a: Abs, p: nat, x: nat)
    requires a.Valid() && p < |a.parent|
    ensures var a' := Abs(a.parent + [p], a.tasks, a.thr + [false]);
            a'.Valid() && a'.Counted(x) == if x < |a.parent| then a.Counted(x) else {}
  {
    var a' := Abs(a.parent + [p], a.tasks, a.thr + [false]);
    forall from: nat | from < |a.parent|
      ensures Reaches(a'.parent, a'.thr, from, x) <==> Reaches(a.parent, a.thr, from, x)
    {
      GroupPaths(a, p, from, x);
    }
  }

  lemma {:induction false} GroupPaths(a: Abs, p: nat, from: nat, to: nat)
    requires a.Valid() && p < |a.parent| && from < |a.parent|
    ensures Reaches(a.parent + [p], a.thr + [false], from, to) <==> Reaches(a.parent, a.thr, from, to)
    decreases from
  {
    if from > 0 { GroupPaths(a, p, a.parent[from], to); }
  }

  lemma {:induction false} PathsThrough(a: Abs, q: nat, from: nat, to: nat)
    requires a.Valid() && 0 < q < |a.parent| && !a.thr[q] && from < |a.parent|
    ensures Reaches(a.parent, a.thr[q := true], from, to) <==>
              Reaches(a.parent, a.thr, from, to) && !(to < q && Reaches(a.parent, a.thr, from, q))
    ensures to < q && Reaches(a.parent, a.thr, from, q) ==>
              (Reaches(a.parent, a.thr, from, to) <==> Reaches(a.parent, a.thr, a.parent[q], to))
    decreases from
  {
    if from > 0 { PathsThrough(a, q, a.parent[from], to); }
  }

  // ----- When queues, entities and counters agree -----

  /** A queue holds its queued tasks and the on_rq entities of its child groups. */
  ghost predicate QueuesMatch(parent: seq<nat>, tasks: map<nat, nat>, queue: seq<set<Entity>>, onRq: seq<bool>) {
    && |queue| == |onRq| == |parent|
    && (forall g, p: nat {:trigger TaskSe(p) in queue[g]} :: 0 <= g < |queue| ==>
          (TaskSe(p) in queue[g] <==> p in tasks && tasks[p] == g))
    && (forall g, c: nat {:trigger GroupSe(c) in queue[g]} :: 0 <= g < |queue| ==>
          (GroupSe(c) in queue[g] <==> 0 < c < |queue| && parent[c] == g && onRq[c]))
  }

  /** A group entity is on_rq exactly when its queue is non-empty and not throttled. */
  ghost predicate EntitiesMatch(a: Abs, queue: seq<set<Entity>>, onRq: seq<bool>, except: int)
    requires a.Valid() && |queue| == |onRq| == |a.parent|
  {
    && !onRq[0]
    && forall g :: 0 < g < |queue| && g != except ==> (onRq[g] <==> queue[g] != {} && !a.thr[g])
  }

  /** h_nr_running counts right once d more is added to o and everything o reaches. */
  ghost predicate CountsMatch(a: Abs, h: seq<int>, o: nat, d: int)
    requires a.Valid() && o < |a.parent|
  {
    && |h| == |a.parent|
    && forall x :: 0 <= x < |h| ==> h[x] + (if Reaches(a.parent, a.thr, o, x) then d else 0) == |a.Counted(x)|
  }

  /** Adding d to one queue on the way up settles that queue; a throttled queue or the root ends it. */
  lemma {:induction false} CountsStep(a: Abs, h: seq<int>, o: nat, d: int)
    requires a.Valid() && o < |a.parent| && CountsMatch(a, h, o, d)
    ensures var h' := h[o := h[o] + d];
            if o == 0 || a.thr[o] then CountsMatch(a, h', 0, 0) else CountsMatch(a, h', a.parent[o], d)
  {
  }

  /**
   Once q is throttled, its parent and what that reaches still count q's tasks; what was owed to q
   itself and through it is owed to q alone.
   */
  lemma {:induction false} ThrottleOwes(a: Abs, h: seq<int>, q: nat, d: int)
    requires a.Valid() && 0 < q < |a.parent| && !a.thr[q] && CountsMatch(a, h, q, d)
    ensures var a' := a.(thr := a.thr[q := true]);
            && a'.Valid()
            && (d == 0 ==> CountsMatch(a', h, a.parent[q], -h[q]))
            && (h[q] == 0 ==> CountsMatch(a', h, q, d))
  {
    var a' := a.(thr := a.thr[q := true]);
    forall x | 0 <= x < |h|
      ensures d == 0 ==> h[x] - (if Reaches(a'.parent, a'.thr, a.parent[q], x) then h[q] else 0) == |a'.Counted(x)|
      ensures h[q] == 0 ==> h[x] + (if Reaches(a'.parent, a'.thr, q, x) then d else 0) == |a'.Counted(x)|
    {
      ThrottleCounts(a, q, x);
    }
  }

  lemma {:induction false} BusyUpwards(a: Abs, queue: seq<set<Entity>>, onRq: seq<bool>, from: nat, to: nat)
    requires a.Valid() && QueuesMatch(a.parent, a.tasks, queue, onRq) && EntitiesMatch(a, queue, onRq, -1)
    requires from < |queue| && queue[from] != {} && Reaches(a.parent, a.thr, from, to)
    ensures queue[to] != {}
    decreases from
  {
    if from != to {
      assert GroupSe(from) in queue[a.parent[from]];
      BusyUpwards(a, queue, onRq, a.parent[from], to);
    }
  }

  lemma {:induction false} BusyDownwards(a: Abs, queue: seq<set<Entity>>, onRq: seq<bool>, g: nat) returns (p: nat)
    requires a.Valid() && QueuesMatch(a.parent, a.tasks, queue, onRq) && EntitiesMatch(a, queue, onRq, -1)
    requires g < |queue| && queue[g] != {}
    ensures p in a.Counted(g)
    decreases |queue| - g
  {
    var e :| e in queue[g];
    match e
    case TaskSe(t) => p := t;
    case GroupSe(c) =>
      assert 0 < c < |queue| && a.parent[c] == g && onRq[c];
      p := BusyDownwards(a, queue, onRq, c);
      ReachesOneMore(a, a.tasks[p], c);
  }

  lemma {:induction false} ReachesOneMore(a: Abs, from: nat, c: nat)
    requires a.Valid() && from < |a.parent| && 0 < c < |a.parent| && !a.thr[c] && Reaches(a.parent, a.thr, from, c)
    ensures Reaches(a.parent, a.thr, from, a.parent[c])
    decreases from
  {
    if from != c { ReachesOneMore(a, a.parent[from], c); }
  }

  /** A queue is empty exactly when no task counts in it. */
  lemma {:induction false} QueueEmptyIffIdle(a: Abs, queue: seq<set<Entity>>, onRq: seq<bool>, g: nat)
    requires a.Valid() && QueuesMatch(a.parent, a.tasks, queue, onRq) && EntitiesMatch(a, queue, onRq, -1)
             && g < |queue|
    ensures queue[g] == {} <==> a.Counted(g) == {}
  {
    if queue[g] != {} {
      var p := BusyDownwards(a, queue, onRq, g);
    }
    if p :| p in a.Counted(g) {
      assert TaskSe(p) in queue[a.tasks[p]];
      BusyUpwards(a, queue, onRq, a.tasks[p], g);
    }
  }

  /** The queues and counters, without the heap. */
  datatype Rq = Rq(queue: seq<set<Entity>>, onRq: seq<bool>, h: seq<int>, nr: int)

  ghost predicate Settled(a: Abs, s: Rq) {
    && a.Valid() && QueuesMatch(a.parent, a.tasks, s.queue, s.onRq)
    && EntitiesMatch(a, s.queue, s.onRq, -1) && CountsMatch(a, s.h, 0, 0) && s.nr == s.h[0]
  }

  /**
   While q is being throttled: everything is settled but the entity se of some group and the counts
   above it; past the root only rq->nr_running is left.
   */
  ghost predicate Detaching(a: Abs, s: Rq, q: nat, se: Option<Entity>, dequeue: bool, delta: int)
    requires a.Valid() && q < |a.parent|
  {
    && QueuesMatch(a.parent, a.tasks, s.queue, s.onRq)
    && match se
       case None => EntitiesMatch(a, s.queue, s.onRq, -1) && CountsMatch(a, s.h, 0, 0) && s.nr - delta == s.h[0]
       case Some(TaskSe(_)) => false
       case Some(GroupSe(c)) =>
         && 0 < c <= q && EntitiesMatch(a, s.queue, s.onRq, c)
         && CountsMatch(a, s.h, a.parent[c], if s.onRq[c] then -delta else 0) && s.nr == s.h[0]
         && (c == q ==> dequeue)
         && (c != q ==> (s.onRq[c] <==> !a.thr[c]) && (dequeue <==> s.queue[c] == {}))
  }

  lemma {:induction false} DetachStart(a: Abs, s: Rq, q: nat)
    requires Settled(a, s) && 0 < q < |a.parent| && !a.thr[q]
    ensures var a' := a.(thr := a.thr[q := true]);
            a'.Valid() && Detaching(a', s, q, Some(GroupSe(q)), true, s.h[q])
  {
    ThrottleOwes(a, s.h, q, 0);
    QueueEmptyIffIdle(a, s.queue, s.onRq, q);
  }

  lemma {:induction false} DetachStep(a: Abs, s: Rq, q: nat, c: nat, dequeue: bool, delta: int, s': Rq)
    requires a.Valid() && q < |a.parent| && a.thr[q]
    requires Detaching(a, s, q, Some(GroupSe(c)), dequeue, delta) && s.onRq[c]
    requires var o := a.parent[c];
             && s'.queue == (if dequeue then s.queue[o := s.queue[o] - {GroupSe(c)}] else s.queue)
             && s'.onRq == (if dequeue then s.onRq[c := false] else s.onRq)
             && s'.h == s.h[o := s.h[o] - delta] && s'.nr == s.nr
             && QueuesMatch(a.parent, a.tasks, s'.queue, s'.onRq)
    ensures var o := a.parent[c];
            Detaching(a, s', q, if o == 0 then None else Some(GroupSe(o)), dequeue && s'.queue[o] == {}, delta)
  {
    assert GroupSe(c) in s.queue[a.parent[c]];
    CountsStep(a, s.h, a.parent[c], -delta);
  }

  lemma {:induction false} DetachEnd(a: Abs, s: Rq, q: nat, se: Option<Entity>, dequeue: bool, delta: int)
    requires a.Valid() && q < |a.parent| && a.thr[q] && Detaching(a, s, q, se, dequeue, delta)
    requires se.Some? ==> !s.onRq[se.value.g]
    ensures Settled(a, if se.Some? then s else s.(nr := s.nr - delta))
  {
  }

  /** Everything is settled but d owed to queue q and what it reaches. */
  ghost predicate Posting(a: Abs, s: Rq, q: nat, d: int) {
    && a.Valid() && q < |a.parent| && QueuesMatch(a.parent, a.tasks, s.queue, s.onRq)
    && EntitiesMatch(a, s.queue, s.onRq, -1) && CountsMatch(a, s.h, q, d) && s.nr == s.h[0]
  }

  /** Past the root: only rq->nr_running is still to change by d. */
  ghost predicate Posted(a: Abs, s: Rq, d: int) {
    && a.Valid() && QueuesMatch(a.parent, a.tasks, s.queue, s.onRq)
    && EntitiesMatch(a, s.queue, s.onRq, -1) && CountsMatch(a, s.h, 0, 0) && s.nr + d == s.h[0]
  }

  lemma {:induction false} PostedSettles(a: Abs, s: Rq, d: int)
    requires Posted(a, s, d)
    ensures Settled(a, s.(nr := s.nr + d))
  {
  }

  lemma {:induction false} PostStep(a: Abs, s: Rq, q: nat, d: int)
    requires Posting(a, s, q, d)
    ensures var s' := s.(h := s.h[q := s.h[q] + d]);
            if a.thr[q] then Settled(a, s')
            else if q == 0 then Posted(a, s', d)
            else Posting(a, s', a.parent[q], d)
  {
    CountsStep(a, s.h, q, d);
  }

  /** Non-empty, unthrottled c is being queued upwards: d is owed to its parent, its entity may be off. */
  ghost predicate Attaching(a: Abs, s: Rq, c: nat, d: int) {
    && a.Valid() && 0 < c < |a.parent| && QueuesMatch(a.parent, a.tasks, s.queue, s.onRq)
    && EntitiesMatch(a, s.queue, s.onRq, c) && CountsMatch(a, s.h, a.parent[c], d) && s.nr == s.h[0]
    && !a.thr[c] && s.queue[c] != {}
  }

  /** As Attaching, with d owed to q itself and its entity in either state if q has just been woken. */
  ghost predicate Woken(a: Abs, s: Rq, q: nat, d: int) {
    && a.Valid() && q < |a.parent| && QueuesMatch(a.parent, a.tasks, s.queue, s.onRq)
    && EntitiesMatch(a, s.queue, s.onRq, q) && CountsMatch(a, s.h, q, d) && s.nr == s.h[0]
    && s.queue[q] != {} && (a.thr[q] ==> !s.onRq[q])
  }

  lemma {:induction false} WokenStep(a: Abs, s: Rq, q: nat, d: int)
    requires Woken(a, s, q, d)
    ensures a.thr[q] ==> Posting(a, s, q, d)
    ensures var s' := s.(h := s.h[q := s.h[q] + d]);
            if a.thr[q] then Settled(a, s')
            else if q == 0 then Posted(a, s', d)
            else Attaching(a, s', q, d)
  {
    CountsStep(a, s.h, q, d);
  }

  lemma {:induction false} AttachedPosts(a: Abs, s: Rq, c: nat, d: int)
    requires Attaching(a, s, c, d) && s.onRq[c]
    ensures Posting(a, s, a.parent[c], d) && Woken(a, s, a.parent[c], d)
  {
    assert GroupSe(c) in s.queue[a.parent[c]];
  }

  /** What queueing an entity in q may have done to the throttled flags: q was idle and is throttled now. */
  ghost predicate MayThrottle(a: Abs, s: Rq, q: nat, thr: seq<bool>)
    requires a.Valid() && q < |a.parent| == |s.queue| == |s.h|
  {
    thr == a.thr || (thr == a.thr[q := true] && q > 0 && !a.thr[q] && s.queue[q] == {} && s.h[q] == 0)
  }

  lemma {:induction false} AttachWakes(a: Abs, s: Rq, c: nat, d: int, s': Rq, thr: seq<bool>)
    requires Attaching(a, s, c, d) && !s.onRq[c] && MayThrottle(a, s, a.parent[c], thr)
    requires var q := a.parent[c];
             s' == s.(queue := s.queue[q := s.queue[q] + {GroupSe(c)}], onRq := s.onRq[c := true])
    requires QueuesMatch(a.parent, a.tasks, s'.queue, s'.onRq)
    ensures Woken(a.(thr := thr), s', a.parent[c], d)
  {
    var q := a.parent[c];
    assert GroupSe(c) in s'.queue[q];
    if thr != a.thr { ThrottleOwes(a, s.h, q, d); }
  }

  lemma {:induction false} TaskWakes(a: Abs, s: Rq, p: nat, q: nat, s': Rq, thr: seq<bool>)
    requires Settled(a, s) && p !in a.tasks && q < |a.parent| && MayThrottle(a, s, q, thr)
    requires s' == s.(queue := s.queue[q := s.queue[q] + {TaskSe(p)}])
    requires QueuesMatch(a.parent, a.tasks[p := q], s'.queue, s'.onRq)
    ensures Woken(a.(tasks := a.tasks[p := q], thr := thr), s', q, 1)
  {
    var a' := a.(tasks := a.tasks[p := q]);
    forall x | 0 <= x < |s.h|
      ensures s.h[x] + (if Reaches(a'.parent, a'.thr, q, x) then 1 else 0) == |a'.Counted(x)|
    {
      TaskCounts(a, p, q, x);
    }
    assert TaskSe(p) in s'.queue[q];
    if thr != a.thr { ThrottleOwes(a', s.h, q, 1); }
  }

  /** One task fewer in q, which held something and may be empty now; everything above still counts it. */
  ghost predicate Drained(a: Abs, s: Rq, q: nat) {
    && a.Valid() && q < |a.parent| && QueuesMatch(a.parent, a.tasks, s.queue, s.onRq)
    && EntitiesMatch(a, s.queue, s.onRq, q) && CountsMatch(a, s.h, q, -1) && s.nr == s.h[0]
    && (q > 0 ==> (s.onRq[q] <==> !a.thr[q]))
  }

  /** Group c has run empty and its entity is still queued. */
  ghost predicate Emptied(a: Abs, s: Rq, c: nat) {
    && a.Valid() && 0 < c < |a.parent| && QueuesMatch(a.parent, a.tasks, s.queue, s.onRq)
    && EntitiesMatch(a, s.queue, s.onRq, c) && CountsMatch(a, s.h, a.parent[c], -1) && s.nr == s.h[0]
    && !a.thr[c] && s.onRq[c] && s.queue[c] == {}
  }

  lemma {:induction false} TaskDrains(a: Abs, s: Rq, p: nat, s': Rq)
    requires Settled(a, s) && p in a.tasks
    requires var q := a.tasks[p]; s' == s.(queue := s.queue[q := s.queue[q] - {TaskSe(p)}])
    requires QueuesMatch(a.parent, a.tasks - {p}, s'.queue, s'.onRq)
    ensures Drained(a.(tasks := a.tasks - {p}), s', a.tasks[p])
  {
    var a', q := a.(tasks := a.tasks - {p}), a.tasks[p];
    assert a'.tasks[p := q] == a.tasks;
    forall x | 0 <= x < |s.h|
      ensures s.h[x] - (if Reaches(a'.parent, a'.thr, q, x) then 1 else 0) == |a'.Counted(x)|
    {
      TaskCounts(a', p, q, x);
    }
    assert TaskSe(p) in s.queue[q];
  }

  lemma {:induction false} EmptiedDrains(a: Abs, s: Rq, c: nat, s': Rq)
    requires Emptied(a, s, c)
    requires var q := a.parent[c];
             s' == s.(queue := s.queue[q := s.queue[q] - {GroupSe(c)}], onRq := s.onRq[c := false])
    requires QueuesMatch(a.parent, a.tasks, s'.queue, s'.onRq)
    ensures Drained(a, s', a.parent[c])
  {
    assert GroupSe(c) in s.queue[a.parent[c]];
  }

  lemma {:induction false} DrainedStep(a: Abs, s: Rq, q: nat)
    requires Drained(a, s, q)
    ensures a.thr[q] ==> Posting(a, s, q, -1)
    ensures var s' := s.(h := s.h[q := s.h[q] - 1]);
            !a.thr[q] ==>
              && (q == 0 ==> Posted(a, s', -1))
              && (q > 0 && s.queue[q] == {} ==> Emptied(a, s', q))
              && (q > 0 && s.queue[q] != {} ==> Posting(a, s', a.parent[q], -1))
  {
    CountsStep(a, s.h, q, -1);
  }

  /** One queue further up, the walk throttles what WakeThrottles says it throttles. */
  lemma {:induction false} WakeStep(a0: Abs, s0: Rq, thr: seq<bool>, starved: set<nat>, q: nat, thr': seq<bool>)
    requires Settled(a0, s0) && |thr| == |a0.parent| && q < |a0.parent| && 0 !in starved && !thr[0]
    requires thr' == if s0.queue[q] == {} && q in starved && !thr[q] then thr[q := true] else thr
    ensures s0.queue[q] == {} ==> s0.h[q] == 0
    ensures var goal := WakeThrottles(a0.parent, thr, a0.Busy(), starved, q);
            if thr'[q] || s0.queue[q] != {} || q == 0 then goal == thr'
            else thr' == thr && goal == WakeThrottles(a0.parent, thr, a0.Busy(), starved, a0.parent[q])
  {
    QueueEmptyIffIdle(a0, s0.queue, s0.onRq, q);
  }

  /** Queueing c upwards has throttled nothing yet, and nothing below c's number has changed. */
  ghost predicate Untouched(a0: Abs, s0: Rq, thr: seq<bool>, starved: set<nat>, goal: seq<bool>, s: Rq, c: nat)
    requires a0.Valid() && |thr| == |a0.parent| == |s0.queue| == |s0.h| == |s.queue| == |s.onRq| == |s.h|
             && 0 < c < |a0.parent|
  {
    if s.onRq[c] then goal == thr
    else
      && goal == WakeThrottles(a0.parent, thr, a0.Busy(), starved, a0.parent[c])
      && (forall x :: 0 <= x < c ==> s.queue[x] == s0.queue[x] && s.h[x] == s0.h[x])
  }

  /** Where an upward walk that queues entities stands when it is about to look at se. */
  ghost predicate Climbing(a0: Abs, s0: Rq, thr: seq<bool>, starved: set<nat>, goal: seq<bool>,
                           a: Abs, s: Rq, se: Option<Entity>, d: int)
    requires a0.Valid() && |thr| == |a0.parent| == |s0.queue| == |s0.h|
  {
    && a.parent == a0.parent
    && match se
       case None => Posted(a, s, d) && goal == a.thr
       case Some(TaskSe(_)) => false
       case Some(GroupSe(c)) =>
         Attaching(a, s, c, d) && a.thr == thr && Untouched(a0, s0, thr, starved, goal, s, c)
  }

  /** The walk goes on from q, where an entity has just been queued. */
  lemma {:induction false} ClimbStep(a0: Abs, s0: Rq, thr: seq<bool>, starved: set<nat>, goal: seq<bool>, a: Abs,
                                     s: Rq, q: nat, d: int)
    requires Settled(a0, s0) && |thr| == |a0.parent| && 0 !in starved && !thr[0]
    requires Woken(a, s, q, d) && a.parent == a0.parent
    requires goal == WakeThrottles(a0.parent, thr, a0.Busy(), starved, q)
    requires a.thr == if s0.queue[q] == {} && q in starved && !thr[q] then thr[q := true] else thr
    requires q > 0 && !a.thr[q] && s0.queue[q] != {} ==> s.onRq[q]
    requires q > 0 && !a.thr[q] && s0.queue[q] == {} ==> !s.onRq[q]
    requires forall x :: 0 <= x < q ==> s.queue[x] == s0.queue[x] && s.h[x] == s0.h[x]
    ensures a.thr[q] ==> Posting(a, s, q, d) && Settled(a, s.(h := s.h[q := s.h[q] + d])) && goal == a.thr
    ensures !a.thr[q] ==> Climbing(a0, s0, thr, starved, goal, a, s.(h := s.h[q := s.h[q] + d]),
                                   if q == 0 then None else Some(GroupSe(q)), d)
  {
    WakeStep(a0, s0, thr, starved, q, a.thr);
    WokenStep(a, s, q, d);
  }

  lemma {:induction false} ClimbTask(a0: Abs, s0: Rq, starved: set<nat>, p: nat, q: nat, s: Rq, thr: seq<bool>)
    requires Settled(a0, s0) && p !in a0.tasks && q < |a0.parent| && 0 !in starved
    requires thr == if s0.queue[q] == {} && q in starved && !a0.thr[q] then a0.thr[q := true] else a0.thr
    requires s == s0.(queue := s0.queue[q := s0.queue[q] + {TaskSe(p)}])
    requires QueuesMatch(a0.parent, a0.tasks[p := q], s.queue, s.onRq)
    ensures var goal := WakeThrottles(a0.parent, a0.thr, a0.Busy(), starved, q);
            var a := a0.(tasks := a0.tasks[p := q], thr := thr);
            && a.Valid() && |s.h| == |a.parent|
            && (thr[q] ==> Posting(a, s, q, 1) && Settled(a, s.(h := s.h[q := s.h[q] + 1])) && goal == thr)
            && (!thr[q] ==> Climbing(a0, s0, a0.thr, starved, goal, a, s.(h := s.h[q := s.h[q] + 1]),
                                     if q == 0 then None else Some(GroupSe(q)), 1))
  {
    WakeStep(a0, s0, a0.thr, starved, q, thr);
    TaskWakes(a0, s0, p, q, s, thr);
    ClimbStep(a0, s0, a0.thr, starved, WakeThrottles(a0.parent, a0.thr, a0.Busy(), starved, q),
              a0.(tasks := a0.tasks[p := q], thr := thr), s, q, 1);
  }

  /** Climbing, or at the start with nothing done yet. */
  ghost predicate Enqueuing(a0: Abs, s0: Rq, starved: set<nat>, goal: seq<bool>, p: nat, a: Abs, s: Rq,
                            se: Option<Entity>)
    requires Settled(a0, s0)
  {
    if se.Some? && se.value.TaskSe? then se.value.p == p && a == a0 && s == s0
    else Climbing(a0, s0, a0.thr, starved, goal, a, s, se, 1)
  }

  lemma {:induction false} ClimbGroup(a0: Abs, s0: Rq, thr: seq<bool>, starved: set<nat>, goal: seq<bool>,
                   a: Abs, s: Rq, c: nat, d: int, s': Rq, thr': seq<bool>)
    requires Settled(a0, s0) && |thr| == |a0.parent| && 0 !in starved && !thr[0]
    requires Climbing(a0, s0, thr, starved, goal, a, s, Some(GroupSe(c)), d) && !s.onRq[c]
    requires var q := a.parent[c];
             && thr' == (if s.queue[q] == {} && q in starved && !thr[q] then thr[q := true] else thr)
             && s' == s.(queue := s.queue[q := s.queue[q] + {GroupSe(c)}], onRq := s.onRq[c := true])
    requires QueuesMatch(a.parent, a.tasks, s'.queue, s'.onRq)
    ensures var q, a' := a.parent[c], a.(thr := thr');
            && a'.Valid()
            && (thr'[q] ==> Posting(a', s', q, d) && Settled(a', s'.(h := s'.h[q := s'.h[q] + d])) && goal == thr')
            && (!thr'[q] ==> Climbing(a0, s0, thr, starved, goal, a', s'.(h := s'.h[q := s'.h[q] + d]),
                                      if q == 0 then None else Some(GroupSe(q)), d))
  {
    var q := a.parent[c];
    WakeStep(a0, s0, thr, starved, q, thr');
    AttachWakes(a, s, c, d, s', thr');
    ClimbStep(a0, s0, thr, starved, goal, a.(thr := thr'), s', q, d);
  }

  /** The walk goes on from q, the parent of an entity that was queued already. */
  lemma {:induction false} ClimbOn(a0: Abs, s0: Rq, thr: seq<bool>, starved: set<nat>, goal: seq<bool>,
                                   a: Abs, s: Rq, c: nat, d: int)
    requires a0.Valid() && |thr| == |a0.parent| == |s0.queue| == |s0.h|
    requires Climbing(a0, s0, thr, starved, goal, a, s, Some(GroupSe(c)), d) && s.onRq[c]
    ensures var q := a.parent[c];
            var s' := s.(h := s.h[q := s.h[q] + d]);
            && goal == a.thr && (q > 0 ==> (s.onRq[q] <==> !a.thr[q]))
            && if a.thr[q] then Settled(a, s')
               else Climbing(a0, s0, thr, starved, goal, a, s', if q == 0 then None else Some(GroupSe(q)), d)
  {
    AttachedPosts(a, s, c, d);
    WokenStep(a, s, a.parent[c], d);
  }

  lemma {:induction false} UnthrottleStart(a0: Abs, s0: Rq, q: nat, starved: set<nat>)
    requires Settled(a0, s0) && 0 < q < |a0.parent| && a0.thr[q]
    ensures s0.queue[q] == {} ==> UnthrottleWakes(a0, starved, q) == a0.thr[q := false]
    ensures var a := a0.(thr := a0.thr[q := false]);
            if s0.queue[q] == {} then Settled(a, s0)
            else Climbing(a0, s0, a.thr, starved, UnthrottleWakes(a0, starved, q), a, s0, Some(GroupSe(q)), s0.h[q])
  {
    var a := a0.(thr := a0.thr[q := false]);
    assert a.thr[q := true] == a0.thr;
    QueueEmptyIffIdle(a0, s0.queue, s0.onRq, q);
    forall x | 0 <= x < |s0.h|
      ensures s0.h[x] + (if Reaches(a.parent, a.thr, a.parent[q], x) then s0.h[q] else 0) == |a.Counted(x)|
    {
      ThrottleCounts(a, q, x);
    }
  }

  // ----- What a settled state says -----

  /** Queues, entities and counters follow from the queued tasks and the throttled flags alone. */
  lemma {:induction false} SettledIsDetermined(a: Abs, s: Rq, s': Rq)
    requires Settled(a, s) && Settled(a, s')
    ensures s == s'
  {
    forall g: nat | g < |a.parent| ensures s.onRq[g] == s'.onRq[g] {
      QueueEmptyIffIdle(a, s.queue, s.onRq, g);
      QueueEmptyIffIdle(a, s'.queue, s'.onRq, g);
    }
    assert s.onRq == s'.onRq;
    forall g | 0 <= g < |s.queue| ensures s.queue[g] == s'.queue[g] {
      forall e ensures e in s.queue[g] <==> e in s'.queue[g] {
        match e
        case TaskSe(p) => assert TaskSe(p) in s.queue[g] <==> TaskSe(p) in s'.queue[g];
        case GroupSe(c) => assert GroupSe(c) in s.queue[g] <==> GroupSe(c) in s'.queue[g];
      }
    }
    assert s.queue == s'.queue && s.h == s'.h;
  }

  /** The h_nr_running of g's queued child groups numbered below k. */
  function SumOfChildren(parent: seq<nat>, s: Rq, g: nat, k: nat): int
    requires k <= |parent| == |s.onRq| == |s.h|
  {
    if k == 0 then 0
    else SumOfChildren(parent, s, g, k - 1) +
         if 0 < k - 1 && parent[k - 1] == g && s.onRq[k - 1] then s.h[k - 1] else 0
  }

  ghost function TasksOf(a: Abs, g: nat): set<nat> {
    set p | p in a.tasks && a.tasks[p] == g
  }

  /** A queue's h_nr_running is its queued tasks plus the h_nr_running of its queued child groups. */
  lemma {:induction false} CountIsLocal(a: Abs, s: Rq, g: nat)
    requires Settled(a, s) && g < |a.parent|
    ensures s.h[g] == |TasksOf(a, g)| + SumOfChildren(a.parent, s, g, |a.parent|)
  {
    assert Via(a, g, 0) == TasksOf(a, g);
    ViaCounts(a, s, g, |a.parent|);
    forall p | p in a.Counted(g) ensures p in Via(a, g, |a.parent|) {
      if a.tasks[p] != g { var c := LastChild(a, a.tasks[p], g); }
    }
    forall p | p in Via(a, g, |a.parent|) ensures p in a.Counted(g) {
      if a.tasks[p] != g {
        var c: nat :| ChildOf(a, g, |a.parent|, c) && p in a.Counted(c);
        ReachesOneMore(a, a.tasks[p], c);
      }
    }
    assert Via(a, g, |a.parent|) == a.Counted(g);
  }

  ghost predicate ChildOf(a: Abs, g: nat, k: nat, c: nat)
    requires a.Valid() && k <= |a.parent|
  {
    0 < c < k && a.parent[c] == g && !a.thr[c]
  }

  /** The tasks in g itself or counted in one of its unthrottled children numbered below k. */
  ghost function Via(a: Abs, g: nat, k: nat): set<nat>
    requires a.Valid() && k <= |a.parent|
  {
    set p | p in a.tasks && (a.tasks[p] == g || exists c: nat :: ChildOf(a, g, k, c) && p in a.Counted(c))
  }

  lemma {:induction false} ViaCounts(a: Abs, s: Rq, g: nat, k: nat)
    requires Settled(a, s) && g < |a.parent| && k <= |a.parent|
    ensures |Via(a, g, k)| == |Via(a, g, 0)| + SumOfChildren(a.parent, s, g, k)
    decreases k
  {
    if k > 0 {
      ViaCounts(a, s, g, k - 1);
      ViaGrows(a, g, k - 1);
      QueueEmptyIffIdle(a, s.queue, s.onRq, k - 1);
    }
  }

  /** One more child c adds what c counts, if c is an unthrottled child of g. */
  lemma {:induction false} ViaGrows(a: Abs, g: nat, c: nat)
    requires a.Valid() && g < |a.parent| && c < |a.parent|
    ensures |Via(a, g, c + 1)| == |Via(a, g, c)| + if ChildOf(a, g, c + 1, c) then |a.Counted(c)| else 0
  {
    if ChildOf(a, g, c + 1, c) {
      forall p ensures p in Via(a, g, c + 1) <==> p in Via(a, g, c) || p in a.Counted(c) {
        if p in Via(a, g, c) && a.tasks[p] != g {
          var d: nat :| ChildOf(a, g, c, d) && p in a.Counted(d);
          assert ChildOf(a, g, c + 1, d);
        }
        if p in Via(a, g, c + 1) && a.tasks[p] != g && p !in a.Counted(c) {
          var d: nat :| ChildOf(a, g, c + 1, d) && p in a.Counted(d);
          assert ChildOf(a, g, c, d);
        }
      }
      forall p | p in Via(a, g, c) ensures p !in a.Counted(c) {
        OneChildOnly(a, g, c, a.tasks[p]);
      }
      assert Via(a, g, c + 1) == Via(a, g, c) + a.Counted(c);
    } else {
      assert forall d: nat :: ChildOf(a, g, c + 1, d) <==> ChildOf(a, g, c, d);
      assert Via(a, g, c + 1) == Via(a, g, c);
    }
  }

  /** What reaches child c passes no other child of g, and does not start in g. */
  lemma {:induction false} OneChildOnly(a: Abs, g: nat, c: nat, from: nat)
    requires a.Valid() && g < c < |a.parent| && a.parent[c] == g && !a.thr[c] && from < |a.parent|
    ensures Reaches(a.parent, a.thr, from, c) ==>
              from != g && forall d: nat :: ChildOf(a, g, c, d) ==> !Reaches(a.parent, a.thr, from, d)
  {
    forall d: nat | ChildOf(a, g, c, d) && Reaches(a.parent, a.thr, from, c)
      ensures !Reaches(a.parent, a.thr, from, d)
    {
      PathsThrough(a, c, from, d);
    }
  }

  lemma {:induction false} LastChild(a: Abs, from: nat, g: nat) returns (c: nat)
    requires a.Valid() && from < |a.parent| && Reaches(a.parent, a.thr, from, g) && from != g
    ensures ChildOf(a, g, |a.parent|, c) && Reaches(a.parent, a.thr, from, c)
    decreases from
  {
    if a.parent[from] == g { c := from; } else { c := LastChild(a, a.parent[from], g); }
  }
}
