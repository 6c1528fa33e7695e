/**
 What the steps of TaskRqLock add up to when nobody interferes: each operation of the scheduler, taken from its
 first step to its last, has its effect on the task and leaves everything else as it was.
 */
module TaskRqLockRuns {
  import opened Common
  import opened TaskRqLock

  /** One actor takes these steps. */
  function AllBy(a: nat, steps: seq<Step>): (run: seq<(nat, Step)>)
    ensures |run| == |steps|
  {
    seq(|steps|, i requires 0 <= i < |steps| => (a, steps[i]))
  }

  lemma {:induction false} Take(s: State, a: nat, steps: seq<Step>, k: nat, t: State)
    requires Inv(s) && a < |s.pc| && k < |steps| && Next(s, a, steps[k]) == t
    ensures Inv(t) && After(s, AllBy(a, steps[k..])) == After(t, AllBy(a, steps[k + 1..]))
  {
    NextKeeps(s, a, steps[k]);
    assert AllBy(a, steps[k..])[1..] == AllBy(a, steps[k + 1..]);
  }

  lemma {:induction false} Done(s: State, a: nat, steps: seq<Step>)
    requires Inv(s)
    ensures After(s, AllBy(a, steps[|steps|..])) == s
  {
  }

  /** The actor has nothing to do, nobody has the task's lock and the task is not being migrated. */
  ghost predicate Free(s: State, a: nat, p: nat) {
    Inv(s) && a < |s.pc| && s.pc[a].Idle? && p < |s.task| && s.pi[p].None? && !s.task[p].onRq.Migrating?
  }

  /** The state in which actor a holds what it needs of task p and its queue. */
  ghost function Holding(s: State, a: nat, p: nat, r: nat, w: bool): State
    requires a < |s.pc| && p < |s.pi| && r < |s.lock|
  {
    s.(pc := s.pc[a := Held(p, r, w)], pi := s.pi[p := Some(a)], lock := s.lock[r := Some(a)])
  }

  function LockSteps(p: nat): seq<Step> {
    [Acquire(LockPi(p)), Acquire(ReadRq), Acquire(LockRq), Acquire(CheckCpu), Acquire(CheckMigrating)]
  }

  /** task_rq_lock takes both locks. */
  lemma {:induction false} LockRun(s: State, a: nat, p: nat)
    requires Free(s, a, p) && s.lock[s.task[p].cpu].None?
    ensures After(s, AllBy(a, LockSteps(p))) == Holding(s, a, p, s.task[p].cpu, false)
  {
    var steps, r := LockSteps(p), s.task[p].cpu;
    assert steps[0..] == steps;
    var s1 := s.(pc := s.pc[a := HavePi(p, false)], pi := s.pi[p := Some(a)]);
    Take(s, a, steps, 0, s1);
    var s2 := s1.(pc := s.pc[a := Read(p, r, false)]);
    Take(s1, a, steps, 1, s2);
    var s3 := s2.(pc := s.pc[a := Locked(p, r, false)], lock := s.lock[r := Some(a)]);
    Take(s2, a, steps, 2, s3);
    var s4 := s3.(pc := s.pc[a := Same(p, r, false)]);
    Take(s3, a, steps, 3, s4);
    var s5 := s4.(pc := s.pc[a := Held(p, r, false)]);
    Take(s4, a, steps, 4, s5);
    Done(s5, a, steps);
  }

  lemma {:induction false} AfterBoth(s: State, run: seq<(nat, Step)>, more: seq<(nat, Step)>)
    requires Inv(s)
    ensures After(s, run + more) == After(After(s, run), more)
    decreases |run|
  {
    if run == [] {
      assert run + more == more;
    } else {
      assert (run + more)[1..] == run[1..] + more;
      if run[0].0 < |s.pc| {
        NextKeeps(s, run[0].0, run[0].1);
        AfterBoth(Next(s, run[0].0, run[0].1), run[1..], more);
      } else {
        AfterBoth(s, run[1..], more);
      }
    }
  }

  /** First these steps, then those. */
  lemma {:induction false} Both(s: State, a: nat, x: seq<Step>, y: seq<Step>, t: State)
    requires Inv(s) && After(s, AllBy(a, x)) == t
    ensures Inv(t) && After(s, AllBy(a, x + y)) == After(t, AllBy(a, y))
  {
    AllByBoth(a, x, y);
    AfterBoth(s, AllBy(a, x), AllBy(a, y));
  }

  lemma {:induction false} AllByBoth(a: nat, x: seq<Step>, y: seq<Step>)
    ensures AllBy(a, x + y) == AllBy(a, x) + AllBy(a, y)
  {
  }

  // ----- move_queued_task -----

  const UnlockSteps: seq<Step> := [Drop(Release), Drop(UnlockPi)]

  lemma {:induction false} UnlockRun(s: State, t: State, a: nat, p: nat, w: bool)
    requires Inv(s) && a < |s.pc| && p < |s.task| && s.pc[a] == Held(p, s.task[p].cpu, w)
    requires w ==> s.task[p].onRq.Queued? && s.task[p].run.Running?
    requires t == s.(pc := s.pc[a := Idle], pi := s.pi[p := None], lock := s.lock[s.task[p].cpu := None])
    ensures After(s, AllBy(a, UnlockSteps)) == t
  {
    var steps, r := UnlockSteps, s.task[p].cpu;
    assert steps[0..] == steps;
    assert s.task[p := s.task[p].(run := s.task[p].run)] == s.task;
    var s1 := s.(pc := s.pc[a := PiOnly(p)], lock := s.lock[r := None]);
    Take(s, a, steps, 0, s1);
    Take(s1, a, steps, 1, t);
    Done(t, a, steps);
  }

  function MoveOutSteps(dst: nat): seq<Step> { [Move(Mark(dst)), Move(SetCpu), Move(UnlockOld)] }

  const MoveInSteps: seq<Step> := [Move(LockNew), Move(Requeue)]

  /** Between its two queues, in the hands of a. */
  ghost function OnTheWay(s: State, a: nat, p: nat, dst: nat): State
    requires a < |s.pc| && p < |s.task| == |s.pi|
  {
    s.(pc := s.pc[a := Between(p, dst)], pi := s.pi[p := Some(a)],
       task := s.task[p := s.task[p].(cpu := dst, onRq := Migrating(a))])
  }

  lemma {:induction false} MoveOutRun(s: State, a: nat, p: nat, dst: nat)
    requires Free(s, a, p) && s.lock[s.task[p].cpu].None? && s.task[p].onRq.Queued?
    requires dst < |s.lock| && Inv(Holding(s, a, p, s.task[p].cpu, false))
    ensures After(Holding(s, a, p, s.task[p].cpu, false), AllBy(a, MoveOutSteps(dst))) == OnTheWay(s, a, p, dst)
  {
    var steps, r, h := MoveOutSteps(dst), s.task[p].cpu, Holding(s, a, p, s.task[p].cpu, false);
    assert steps[0..] == steps;
    var s1 := h.(pc := s.pc[a := Marked(p, r, dst)], task := s.task[p := s.task[p].(onRq := Migrating(a))]);
    Take(h, a, steps, 0, s1);
    var s2 := s1.(pc := s.pc[a := Moved(p, r, dst)], task := s.task[p := s.task[p].(cpu := dst, onRq := Migrating(a))]);
    Take(s1, a, steps, 1, s2);
    var s3 := OnTheWay(s, a, p, dst);
    assert s2.lock[r := None] == s.lock;
    Take(s2, a, steps, 2, s3);
    Done(s3, a, steps);
  }

  lemma {:induction false} MoveInRun(s: State, a: nat, p: nat, dst: nat)
    requires Free(s, a, p) && s.task[p].onRq.Queued?
    requires dst < |s.lock| && s.lock[dst].None? && Inv(OnTheWay(s, a, p, dst))
    ensures After(OnTheWay(s, a, p, dst), AllBy(a, MoveInSteps)) ==
              Holding(s.(task := s.task[p := s.task[p].(cpu := dst)]), a, p, dst, false)
  {
    var steps, s3 := MoveInSteps, OnTheWay(s, a, p, dst);
    assert steps[0..] == steps;
    var s4 := s3.(pc := s.pc[a := Arrived(p, dst)], lock := s.lock[dst := Some(a)]);
    Take(s3, a, steps, 0, s4);
    var s5 := s4.(pc := s.pc[a := Held(p, dst, false)], task := s.task[p := s.task[p].(cpu := dst)]);
    Take(s4, a, steps, 1, s5);
    Done(s5, a, steps);
  }

  function MoveSteps(p: nat, dst: nat): seq<Step> {
    LockSteps(p) + (MoveOutSteps(dst) + (MoveInSteps + UnlockSteps))
  }

  /** A queued task that is moved is queued on the other CPU, and everything else is as before. */
  lemma {:induction false} MoveRun(s: State, a: nat, p: nat, dst: nat)
    requires Free(s, a, p) && s.lock[s.task[p].cpu].None? && s.task[p].onRq.Queued?
    requires dst < |s.lock| && s.lock[dst].None?
    ensures After(s, AllBy(a, MoveSteps(p, dst))) == s.(task := s.task[p := s.task[p].(cpu := dst)])
  {
    var t := s.(task := s.task[p := s.task[p].(cpu := dst)]);
    var h, b, m := Holding(s, a, p, s.task[p].cpu, false), OnTheWay(s, a, p, dst), Holding(t, a, p, dst, false);
    LockRun(s, a, p);
    Both(s, a, LockSteps(p), MoveOutSteps(dst) + (MoveInSteps + UnlockSteps), h);
    MoveOutRun(s, a, p, dst);
    Both(h, a, MoveOutSteps(dst), MoveInSteps + UnlockSteps, b);
    MoveInRun(s, a, p, dst);
    Both(b, a, MoveInSteps, UnlockSteps, m);
    Unlocked(t, a, p, dst);
    UnlockRun(m, t, a, p, false);
  }

  lemma {:induction false} Unlocked(t: State, a: nat, p: nat, r: nat)
    requires a < |t.pc| && t.pc[a].Idle? && p < |t.pi| && t.pi[p].None? && r < |t.lock| && t.lock[r].None?
    ensures forall w :: var m := Holding(t, a, p, r, w);
                        t == m.(pc := m.pc[a := Idle], pi := m.pi[p := None], lock := m.lock[r := None])
  {
  }

  // ----- try_to_wake_up -----

  function WakeBeginSteps(p: nat): seq<Step> {
    [Wake(WakeLockPi(p)), Wake(CheckState), Wake(LoadOnRq), Wake(SetWaking)]
  }

  /** A task that is being woken by a. */
  ghost function Wakening(s: State, a: nat, p: nat): State
    requires a < |s.pc| && p < |s.task| == |s.pi|
  {
    s.(pc := s.pc[a := WakeWaking(p)], pi := s.pi[p := Some(a)],
       task := s.task[p := s.task[p].(run := Waking(ByWaker(a)))])
  }

  lemma {:induction false} WakeBeginRun(s: State, a: nat, p: nat)
    requires Free(s, a, p) && s.task[p].onRq.Off? && s.task[p].run.Sleeping?
    ensures After(s, AllBy(a, WakeBeginSteps(p))) == Wakening(s, a, p)
  {
    var steps := WakeBeginSteps(p);
    assert steps[0..] == steps;
    var s1 := s.(pc := s.pc[a := WakeEntered(p)], pi := s.pi[p := Some(a)]);
    Take(s, a, steps, 0, s1);
    var s2 := s1.(pc := s.pc[a := WakeMatched(p)]);
    Take(s1, a, steps, 1, s2);
    var s3 := s2.(pc := s.pc[a := WakeOff(p)]);
    Take(s2, a, steps, 2, s3);
    Take(s3, a, steps, 3, Wakening(s, a, p));
    Done(Wakening(s, a, p), a, steps);
  }

  function QueueSteps(c: nat): seq<Step> { [Place(Select(c)), Place(WakeLockRq), Place(Activate)] }

  lemma {:induction false} QueueRun(s: State, a: nat, p: nat, c: nat)
    requires Free(s, a, p) && s.task[p].onRq.Off? && c < |s.lock| && s.lock[c].None? && Inv(Wakening(s, a, p))
    ensures After(Wakening(s, a, p), AllBy(a, QueueSteps(c))) ==
              Holding(s.(task := s.task[p := Task(c, Queued, Running)]), a, p, c, true)
  {
    var steps, s0 := QueueSteps(c), Wakening(s, a, p);
    assert steps[0..] == steps;
    var s1 := s0.(pc := s.pc[a := WakeSet(p, c)], task := s.task[p := Task(c, Off, Waking(ByWaker(a)))]);
    assert PlaceStep(s0, a, Select(c)) == s1;
    Take(s0, a, steps, 0, s1);
    var s2 := s1.(pc := s.pc[a := WakeLocked(p, c)], lock := s.lock[c := Some(a)]);
    Take(s1, a, steps, 1, s2);
    var s3 := Holding(s.(task := s.task[p := Task(c, Queued, Running)]), a, p, c, true);
    Take(s2, a, steps, 2, s3);
    Done(s3, a, steps);
  }

  function WakeSteps(p: nat, c: nat): seq<Step> { WakeBeginSteps(p) + (QueueSteps(c) + UnlockSteps) }

  /** A sleeping task that is woken runs on the CPU chosen for it, and everything else is as before. */
  lemma {:induction false} WakeRun(s: State, a: nat, p: nat, c: nat)
    requires Free(s, a, p) && s.task[p].onRq.Off? && s.task[p].run.Sleeping? && c < |s.lock| && s.lock[c].None?
    ensures After(s, AllBy(a, WakeSteps(p, c))) == s.(task := s.task[p := Task(c, Queued, Running)])
  {
    var t := s.(task := s.task[p := Task(c, Queued, Running)]);
    var b, m := Wakening(s, a, p), Holding(t, a, p, c, true);
    WakeBeginRun(s, a, p);
    Both(s, a, WakeBeginSteps(p), QueueSteps(c) + UnlockSteps, b);
    QueueRun(s, a, p, c);
    Both(b, a, QueueSteps(c), UnlockSteps, m);
    Unlocked(t, a, p, c);
    UnlockRun(m, t, a, p, true);
  }

  // ----- A wakeup left to the CPU -----

  function ListSteps(c: nat): seq<Step> { [Place(Select(c)), Place(QueueRemote), Drop(UnlockPi)] }

  /** A task on its CPU's wake list, which was empty. */
  ghost function OnWakeList(s: State, p: nat, c: nat): State
    requires p < |s.task| && c < |s.wake|
  {
    s.(task := s.task[p := Task(c, Off, Waking(Listed(c)))], wake := s.wake[c := {p}])
  }

  lemma {:induction false} ListRun(s: State, a: nat, p: nat, c: nat)
    requires Free(s, a, p) && s.task[p].onRq.Off? && c < |s.lock| && s.wake[c] == {} && Inv(Wakening(s, a, p))
    ensures After(Wakening(s, a, p), AllBy(a, ListSteps(c))) == OnWakeList(s, p, c)
  {
    var steps, s0 := ListSteps(c), Wakening(s, a, p);
    assert steps[0..] == steps;
    var s1 := s0.(pc := s.pc[a := WakeSet(p, c)], task := s.task[p := Task(c, Off, Waking(ByWaker(a)))]);
    Take(s0, a, steps, 0, s1);
    var s2 := OnWakeList(s, p, c).(pc := s.pc[a := PiOnly(p)], pi := s.pi[p := Some(a)]);
    assert s.wake[c] + {p} == {p};
    Take(s1, a, steps, 1, s2);
    assert s.pc == s2.pc[a := Idle] && s.pi == s2.pi[p := None];
    Take(s2, a, steps, 2, OnWakeList(s, p, c));
    Done(OnWakeList(s, p, c), a, steps);
  }

  function PendBeginSteps(c: nat): seq<Step> { [Pend(PendTake(c)), Pend(PendLock)] }

  function PendEndSteps(p: nat): seq<Step> { [Pend(PendActivate(p)), Pend(PendDone)] }

  function PendSteps(p: nat, c: nat): seq<Step> { PendBeginSteps(c) + PendEndSteps(p) }

  ghost function TakenOff(s: State, b: nat, p: nat, c: nat): State
    requires b < |s.pc| && p < |s.task| && c < |s.lock|
  {
    s.(pc := s.pc[b := PendLocked(c, {p})], task := s.task[p := Task(c, Off, Waking(Taken(b)))],
       lock := s.lock[c := Some(b)])
  }

  lemma {:induction false} PendBeginRun(s: State, b: nat, p: nat, c: nat)
    requires Inv(s) && b < |s.pc| && s.pc[b].Idle? && p < |s.task| && c < |s.lock| && s.lock[c].None?
    requires s.wake[c] == {} && Inv(OnWakeList(s, p, c))
    ensures After(OnWakeList(s, p, c), AllBy(b, PendBeginSteps(c))) == TakenOff(s, b, p, c)
  {
    var steps, s0 := PendBeginSteps(c), OnWakeList(s, p, c);
    assert steps[0..] == steps;
    var s1 := s.(pc := s.pc[b := PendTaken(c, {p})], task := s.task[p := Task(c, Off, Waking(Taken(b)))]);
    assert s0.wake[c := {}] == s.wake;
    assert TakeAll(s0.task, {p}, b) == s1.task;
    Take(s0, b, steps, 0, s1);
    Take(s1, b, steps, 1, TakenOff(s, b, p, c));
    Done(TakenOff(s, b, p, c), b, steps);
  }

  lemma {:induction false} PendEndRun(s: State, b: nat, p: nat, c: nat)
    requires Inv(s) && b < |s.pc| && s.pc[b].Idle? && p < |s.task| && c < |s.lock| && s.lock[c].None?
    requires Inv(TakenOff(s, b, p, c))
    ensures After(TakenOff(s, b, p, c), AllBy(b, PendEndSteps(p))) == s.(task := s.task[p := Task(c, Queued, Running)])
  {
    var steps, s2 := PendEndSteps(p), TakenOff(s, b, p, c);
    assert steps[0..] == steps;
    var s3 := s2.(pc := s.pc[b := PendLocked(c, {})], task := s.task[p := Task(c, Queued, Running)]);
    assert {p} - {p} == {};
    Take(s2, b, steps, 0, s3);
    var s4 := s.(task := s.task[p := Task(c, Queued, Running)]);
    assert s3.pc[b := Idle] == s.pc && s3.lock[c := None] == s.lock;
    Take(s3, b, steps, 1, s4);
    Done(s4, b, steps);
  }

  lemma {:induction false} PendRun(s: State, b: nat, p: nat, c: nat)
    requires Inv(s) && b < |s.pc| && s.pc[b].Idle? && p < |s.task| && c < |s.lock| && s.lock[c].None?
    requires s.wake[c] == {} && Inv(OnWakeList(s, p, c))
    ensures After(OnWakeList(s, p, c), AllBy(b, PendSteps(p, c))) == s.(task := s.task[p := Task(c, Queued, Running)])
  {
    PendBeginRun(s, b, p, c);
    Both(OnWakeList(s, p, c), b, PendBeginSteps(c), PendEndSteps(p), TakenOff(s, b, p, c));
    PendEndRun(s, b, p, c);
  }

  /** One that is left to its CPU runs there once that CPU has gone through its wake list. */
  lemma {:induction false} ListedWakeRun(s: State, a: nat, b: nat, p: nat, c: nat)
    requires Free(s, a, p) && s.task[p].onRq.Off? && s.task[p].run.Sleeping?
    requires b < |s.pc| && s.pc[b].Idle? && c < |s.lock| && s.lock[c].None? && s.wake[c] == {}
    ensures After(s, AllBy(a, WakeBeginSteps(p) + ListSteps(c)) + AllBy(b, PendSteps(p, c))) ==
              s.(task := s.task[p := Task(c, Queued, Running)])
  {
    var run := AllBy(a, WakeBeginSteps(p) + ListSteps(c));
    WakeBeginRun(s, a, p);
    Both(s, a, WakeBeginSteps(p), ListSteps(c), Wakening(s, a, p));
    ListRun(s, a, p, c);
    assert After(s, run) == OnWakeList(s, p, c);
    AfterBoth(s, run, AllBy(b, PendSteps(p, c)));
    PendRun(s, b, p, c);
  }

  // ----- ttwu_remote -----

  function RemoteBeginSteps(p: nat): seq<Step> {
    [Wake(WakeLockPi(p)), Wake(CheckState), Wake(LoadOnRq), Acquire(ReadRq)]
  }

  const RemoteLockSteps: seq<Step> := [Acquire(LockRq), Acquire(CheckCpu), Acquire(CheckMigrating)]

  lemma {:induction false} RemoteBeginRun(s: State, a: nat, p: nat)
    requires Free(s, a, p) && s.task[p].onRq.Queued? && s.task[p].run.Sleeping?
    ensures After(s, AllBy(a, RemoteBeginSteps(p))) ==
              s.(pc := s.pc[a := Read(p, s.task[p].cpu, true)], pi := s.pi[p := Some(a)])
  {
    var steps := RemoteBeginSteps(p);
    assert steps[0..] == steps;
    var s1 := s.(pc := s.pc[a := WakeEntered(p)], pi := s.pi[p := Some(a)]);
    Take(s, a, steps, 0, s1);
    var s2 := s1.(pc := s.pc[a := WakeMatched(p)]);
    Take(s1, a, steps, 1, s2);
    var s3 := s2.(pc := s.pc[a := HavePi(p, true)]);
    Take(s2, a, steps, 2, s3);
    var s4 := s3.(pc := s.pc[a := Read(p, s.task[p].cpu, true)]);
    Take(s3, a, steps, 3, s4);
    Done(s4, a, steps);
  }

  lemma {:induction false} RemoteLockRun(s: State, s0: State, a: nat, p: nat)
    requires Free(s, a, p) && s.lock[s.task[p].cpu].None? && Inv(s0)
    requires s0 == s.(pc := s.pc[a := Read(p, s.task[p].cpu, true)], pi := s.pi[p := Some(a)])
    ensures After(s0, AllBy(a, RemoteLockSteps)) == Holding(s, a, p, s.task[p].cpu, true)
  {
    var steps, r := RemoteLockSteps, s.task[p].cpu;
    assert steps[0..] == steps;
    var s1 := s0.(pc := s.pc[a := Locked(p, r, true)], lock := s.lock[r := Some(a)]);
    Take(s0, a, steps, 0, s1);
    var s2 := s1.(pc := s.pc[a := Same(p, r, true)]);
    Take(s1, a, steps, 1, s2);
    var s3 := Holding(s, a, p, r, true);
    Take(s2, a, steps, 2, s3);
    Done(s3, a, steps);
  }

  lemma {:induction false} RemoteEndRun(s: State, t: State, a: nat, p: nat)
    requires Free(s, a, p) && s.lock[s.task[p].cpu].None? && s.task[p].onRq.Queued?
    requires Inv(Holding(s, a, p, s.task[p].cpu, true)) && t == s.(task := s.task[p := s.task[p].(run := Running)])
    ensures After(Holding(s, a, p, s.task[p].cpu, true), AllBy(a, UnlockSteps)) == t
  {
    var steps, r, h := UnlockSteps, s.task[p].cpu, Holding(s, a, p, s.task[p].cpu, true);
    assert steps[0..] == steps;
    var s1 := t.(pc := s.pc[a := PiOnly(p)], pi := s.pi[p := Some(a)]);
    assert h.lock[r := None] == s.lock;
    Take(h, a, steps, 0, s1);
    assert s1.pc[a := Idle] == s.pc && s1.pi[p := None] == s.pi;
    Take(s1, a, steps, 1, t);
    Done(t, a, steps);
  }

  function RemoteWakeSteps(p: nat): seq<Step> { RemoteBeginSteps(p) + (RemoteLockSteps + UnlockSteps) }

  /** A task that is still queued when it is woken stays where it is, and runs. */
  lemma {:induction false} RemoteWakeRun(s: State, a: nat, p: nat)
    requires Free(s, a, p) && s.task[p].onRq.Queued? && s.task[p].run.Sleeping? && s.lock[s.task[p].cpu].None?
    ensures After(s, AllBy(a, RemoteWakeSteps(p))) == s.(task := s.task[p := s.task[p].(run := Running)])
  {
    var s0 := s.(pc := s.pc[a := Read(p, s.task[p].cpu, true)], pi := s.pi[p := Some(a)]);
    var h := Holding(s, a, p, s.task[p].cpu, true);
    RemoteBeginRun(s, a, p);
    Both(s, a, RemoteBeginSteps(p), RemoteLockSteps + UnlockSteps, s0);
    RemoteLockRun(s, s0, a, p);
    Both(s0, a, RemoteLockSteps, UnlockSteps, h);
    RemoteEndRun(s, s.(task := s.task[p := s.task[p].(run := Running)]), a, p);
  }

  // ----- Load balancing -----

  function PullSteps(src: nat, dst: nat, p: nat): seq<Step> {
    [Pull(BalLock(src, dst)), Pull(Detach(p)), Pull(BalSetCpu), Pull(BalUnlock)]
  }

  function PushSteps(p: nat): seq<Step> { [Push(BalLockDst), Push(Attach(p)), Push(BalDone)] }

  ghost function Detached(s: State, a: nat, p: nat, dst: nat): State
    requires a < |s.pc| && p < |s.task|
  {
    s.(pc := s.pc[a := BalBetween(dst, {p})], task := s.task[p := s.task[p].(cpu := dst, onRq := Migrating(a))])
  }

  lemma {:induction false} PullRun(s: State, a: nat, p: nat, dst: nat)
    requires Inv(s) && a < |s.pc| && s.pc[a].Idle? && p < |s.task| && s.task[p].onRq.Queued?
    requires s.lock[s.task[p].cpu].None? && dst < |s.lock|
    ensures After(s, AllBy(a, PullSteps(s.task[p].cpu, dst, p))) == Detached(s, a, p, dst)
  {
    var steps, r := PullSteps(s.task[p].cpu, dst, p), s.task[p].cpu;
    assert steps[0..] == steps;
    var s1 := s.(pc := s.pc[a := BalLocked(r, dst, {})], lock := s.lock[r := Some(a)]);
    Take(s, a, steps, 0, s1);
    var s2 := s1.(pc := s.pc[a := BalMarked(r, dst, {}, p)], task := s.task[p := s.task[p].(onRq := Migrating(a))]);
    Take(s1, a, steps, 1, s2);
    var s3 := Detached(s, a, p, dst).(pc := s.pc[a := BalLocked(r, dst, {p})], lock := s.lock[r := Some(a)]);
    assert {} + {p} == {p};
    Take(s2, a, steps, 2, s3);
    assert s3.lock[r := None] == s.lock;
    Take(s3, a, steps, 3, Detached(s, a, p, dst));
    Done(Detached(s, a, p, dst), a, steps);
  }

  lemma {:induction false} PushRun(s: State, a: nat, p: nat, dst: nat)
    requires Inv(s) && a < |s.pc| && s.pc[a].Idle? && p < |s.task| && s.task[p].onRq.Queued?
    requires dst < |s.lock| && s.lock[dst].None? && Inv(Detached(s, a, p, dst))
    ensures After(Detached(s, a, p, dst), AllBy(a, PushSteps(p))) == s.(task := s.task[p := s.task[p].(cpu := dst)])
  {
    var steps, s0 := PushSteps(p), Detached(s, a, p, dst);
    assert steps[0..] == steps;
    var s1 := s0.(pc := s.pc[a := BalAttach(dst, {p})], lock := s.lock[dst := Some(a)]);
    Take(s0, a, steps, 0, s1);
    var s2 := s1.(pc := s.pc[a := BalAttach(dst, {})], task := s.task[p := s.task[p].(cpu := dst)]);
    assert {p} - {p} == {};
    Take(s1, a, steps, 1, s2);
    var s3 := s.(task := s.task[p := s.task[p].(cpu := dst)]);
    assert s2.pc[a := Idle] == s.pc && s2.lock[dst := None] == s.lock;
    Take(s2, a, steps, 2, s3);
    Done(s3, a, steps);
  }

  /** A task that is pulled is queued at its new CPU, under nobody's lock but that of one queue at a time. */
  lemma {:induction false} BalanceRun(s: State, a: nat, p: nat, dst: nat)
    requires Inv(s) && a < |s.pc| && s.pc[a].Idle? && p < |s.task| && s.task[p].onRq.Queued?
    requires s.lock[s.task[p].cpu].None? && dst < |s.lock| && s.lock[dst].None?
    ensures After(s, AllBy(a, PullSteps(s.task[p].cpu, dst, p) + PushSteps(p))) ==
              s.(task := s.task[p := s.task[p].(cpu := dst)])
  {
    PullRun(s, a, p, dst);
    Both(s, a, PullSteps(s.task[p].cpu, dst, p), PushSteps(p), Detached(s, a, p, dst));
    PushRun(s, a, p, dst);
  }

  // ----- Going to sleep -----

  function SleepSteps(p: nat, r: nat): seq<Step> {
    [SetOwnState(p, true), Schedule(SchedLock(r)), Schedule(Deschedule(p)), Schedule(SchedUnlock)]
  }

  /** A task that has set its state and calls schedule is off its queue. */
  lemma {:induction false} SleepRun(s: State, a: nat, p: nat)
    requires Inv(s) && a < |s.pc| && s.pc[a].Idle? && p < |s.task| && s.task[p].onRq.Queued?
    requires s.lock[s.task[p].cpu].None?
    ensures After(s, AllBy(a, SleepSteps(p, s.task[p].cpu))) ==
              s.(task := s.task[p := Task(s.task[p].cpu, Off, Sleeping)])
  {
    var steps, r := SleepSteps(p, s.task[p].cpu), s.task[p].cpu;
    assert steps[0..] == steps;
    var s1 := s.(task := s.task[p := s.task[p].(run := Sleeping)]);
    Take(s, a, steps, 0, s1);
    var s2 := s1.(pc := s.pc[a := SchedLocked(r)], lock := s.lock[r := Some(a)]);
    Take(s1, a, steps, 1, s2);
    var s3 := s2.(task := s.task[p := Task(r, Off, Sleeping)]);
    Take(s2, a, steps, 2, s3);
    var s4 := s.(task := s.task[p := Task(r, Off, Sleeping)]);
    assert s3.pc[a := Idle] == s.pc && s3.lock[r := None] == s.lock;
    Take(s3, a, steps, 3, s4);
    Done(s4, a, steps);
  }

  /** A task that sets its state and finds that it need not sleep sets it back, and nothing has happened. */
  lemma {:induction false} SetAndReset(s: State, a: nat, p: nat)
    requires Inv(s) && a < |s.pc| && p < |s.task| && s.task[p].onRq.Queued? && s.task[p].run.Running?
    ensures After(s, AllBy(a, [SetOwnState(p, true), SetOwnState(p, false)])) == s
  {
    var steps := [SetOwnState(p, true), SetOwnState(p, false)];
    assert steps[0..] == steps;
    var s1 := s.(task := s.task[p := s.task[p].(run := Sleeping)]);
    Take(s, a, steps, 0, s1);
    assert s1.task[p := s1.task[p].(run := Running)] == s.task;
    Take(s1, a, steps, 1, s);
    Done(s, a, steps);
  }

  /** A running task that goes to sleep and is woken on the same CPU is as if nothing had happened. */
  lemma {:induction false} SleepAndWake(s: State, a: nat, b: nat, p: nat)
    requires Free(s, b, p) && a < |s.pc| && s.pc[a].Idle? && s.task[p] == Task(s.task[p].cpu, Queued, Running)
    requires s.lock[s.task[p].cpu].None?
    ensures After(s, AllBy(a, SleepSteps(p, s.task[p].cpu)) + AllBy(b, WakeSteps(p, s.task[p].cpu))) == s
  {
    var r := s.task[p].cpu;
    var t := s.(task := s.task[p := Task(r, Off, Sleeping)]);
    SleepRun(s, a, p);
    AfterBoth(s, AllBy(a, SleepSteps(p, r)), AllBy(b, WakeSteps(p, r)));
    WakeRun(t, b, p, r);
    assert t.task[p := Task(r, Queued, Running)] == s.task;
  }

  // ----- A failed check -----

  const BackOffSteps: seq<Step> := [Acquire(CheckCpu), Drop(UnlockFailed), Drop(UnlockPi), Drop(StopSpinning)]

  const AgainSteps: seq<Step> := [
    Acquire(LockPiAgain), Acquire(ReadRq), Acquire(LockRq), Acquire(CheckCpu), Acquire(CheckMigrating)]

  /** What is left of s for someone else when a has let go of both locks to try again. */
  ghost function LetGo(s: State, a: nat, p: nat, r: nat): State
    requires a < |s.pc| && p < |s.pi| && r < |s.lock|
  {
    s.(pc := s.pc[a := Retry(p)], pi := s.pi[p := None], lock := s.lock[r := None])
  }

  /** Whoever locked a queue that is no longer the task's lets go of both locks. */
  lemma {:induction false} BackOffRun(s: State, a: nat, p: nat, r: nat)
    requires Inv(s) && a < |s.pc| && p < |s.task| && r < |s.lock| && s.pc[a] == Locked(p, r, false)
    requires s.task[p].cpu != r && !s.task[p].onRq.Migrating?
    ensures After(s, AllBy(a, BackOffSteps)) == LetGo(s, a, p, r)
  {
    var steps := BackOffSteps;
    assert steps[0..] == steps;
    var s1 := s.(pc := s.pc[a := Failed(p, r, false)]);
    Take(s, a, steps, 0, s1);
    var s2 := s1.(pc := s.pc[a := Backoff(p)], lock := s.lock[r := None]);
    Take(s1, a, steps, 1, s2);
    var s3 := s2.(pc := s.pc[a := Spin(p, false)], pi := s.pi[p := None]);
    Take(s2, a, steps, 2, s3);
    Take(s3, a, steps, 3, LetGo(s, a, p, r));
    Done(LetGo(s, a, p, r), a, steps);
  }

  lemma {:induction false} AgainRun(s: State, a: nat, p: nat)
    requires Inv(s) && a < |s.pc| && p < |s.task| && s.pc[a] == Retry(p) && s.pi[p].None?
    requires !s.task[p].onRq.Migrating? && s.lock[s.task[p].cpu].None?
    ensures After(s, AllBy(a, AgainSteps)) == Holding(s, a, p, s.task[p].cpu, false)
  {
    var steps, r := AgainSteps, s.task[p].cpu;
    assert steps[0..] == steps;
    var s1 := s.(pc := s.pc[a := HavePi(p, false)], pi := s.pi[p := Some(a)]);
    Take(s, a, steps, 0, s1);
    var s2 := s1.(pc := s.pc[a := Read(p, r, false)]);
    Take(s1, a, steps, 1, s2);
    var s3 := s2.(pc := s.pc[a := Locked(p, r, false)], lock := s.lock[r := Some(a)]);
    Take(s2, a, steps, 2, s3);
    var s4 := s3.(pc := s.pc[a := Same(p, r, false)]);
    Take(s3, a, steps, 3, s4);
    Take(s4, a, steps, 4, Holding(s, a, p, r, false));
    Done(Holding(s, a, p, r, false), a, steps);
  }

  /** And finds the right one the next time, if the task stays there. */
  lemma {:induction false} RetryRun(s: State, a: nat, p: nat, r: nat)
    requires Inv(s) && a < |s.pc| && p < |s.task| && r < |s.lock| && s.pc[a] == Locked(p, r, false)
    requires s.task[p].cpu != r && !s.task[p].onRq.Migrating? && s.lock[s.task[p].cpu].None?
    ensures After(s, AllBy(a, BackOffSteps + AgainSteps)) ==
              Holding(LetGo(s, a, p, r), a, p, s.task[p].cpu, false)
  {
    BackOffRun(s, a, p, r);
    Both(s, a, BackOffSteps, AgainSteps, LetGo(s, a, p, r));
    AgainRun(LetGo(s, a, p, r), a, p);
  }
}
