/**
 Locking the run queue a task is on, against every interleaving of wakeups, moves of queued tasks,
 load balancing and going to sleep, for any number of CPUs and tasks. Each load, store, lock and
 unlock that another CPU can observe is a step of its own; memory is sequentially consistent.
 */
module TaskRqLock {
  import opened Common

  /** p->on_rq; the actor that is migrating the task is recorded but never read by a step. */
  datatype OnRq = Off | Queued | Migrating(mover: nat)

  /** p->state; who is to finish a wakeup is recorded but never read by a step. */
  datatype Run = Running | Sleeping | Waking(place: Place)
  datatype Place = ByWaker(a: nat) | Listed(rq: nat) | Taken(a: nat)

  /** task_cpu(p), p->on_rq and p->state. */
  datatype Task = Task(cpu: nat, onRq: OnRq, run: Run)

  /** What an actor (a CPU running kernel code) is about to do. `w`: on behalf of try_to_wake_up. */
  datatype Pc =
    | Idle
    // task_rq_lock and __task_rq_lock
    | Retry(p: nat)
    | HavePi(p: nat, w: bool)
    | Read(p: nat, rq: nat, w: bool)
    | Locked(p: nat, rq: nat, w: bool)
    | Same(p: nat, rq: nat, w: bool)
    | Held(p: nat, rq: nat, w: bool)
    | Failed(p: nat, rq: nat, w: bool)
    | Backoff(p: nat)
    | Spin(p: nat, w: bool)
    | PiOnly(p: nat)
    // move_queued_task
    | Marked(p: nat, rq: nat, dst: nat)
    | Moved(p: nat, rq: nat, dst: nat)
    | Between(p: nat, dst: nat)
    | Arrived(p: nat, dst: nat)
    // load balancing
    | BalLocked(src: nat, dst: nat, ts: set<nat>)
    | BalMarked(src: nat, dst: nat, ts: set<nat>, p: nat)
    | BalBetween(dst: nat, ts: set<nat>)
    | BalAttach(dst: nat, ts: set<nat>)
    // try_to_wake_up
    | WakeEntered(p: nat)
    | WakeMatched(p: nat)
    | WakeOff(p: nat)
    | WakeWaking(p: nat)
    | WakeSet(p: nat, c: nat)
    | WakeLocked(p: nat, c: nat)
    // sched_ttwu_pending
    | PendTaken(r: nat, ps: set<nat>)
    | PendLocked(r: nat, ps: set<nat>)
    // schedule
    | SchedLocked(r: nat)

  datatype State = State(pc: seq<Pc>, task: seq<Task>, pi: seq<Option<nat>>, lock: seq<Option<nat>>,
                         wake: seq<set<nat>>) {
    ghost predicate Shaped() {
      && |pi| == |task| && |wake| == |lock|
      && (forall p :: 0 <= p < |task| ==> task[p].cpu < |lock|)
      && (forall r, p :: 0 <= r < |wake| && p in wake[r] ==> p < |task|)
      && (forall a :: 0 <= a < |pc| ==> InRange(pc[a]))
    }

    ghost predicate InRange(c: Pc) {
      match c
      case Idle => true
      case Retry(p) => p < |task|
      case HavePi(p, _) => p < |task|
      case Read(p, rq, _) => p < |task| && rq < |lock|
      case Locked(p, rq, _) => p < |task| && rq < |lock|
      case Same(p, rq, _) => p < |task| && rq < |lock|
      case Held(p, rq, _) => p < |task| && rq < |lock|
      case Failed(p, rq, _) => p < |task| && rq < |lock|
      case Backoff(p) => p < |task|
      case Spin(p, _) => p < |task|
      case PiOnly(p) => p < |task|
      case Marked(p, rq, dst) => p < |task| && rq < |lock| && dst < |lock|
      case Moved(p, rq, dst) => p < |task| && rq < |lock| && dst < |lock|
      case Between(p, dst) => p < |task| && dst < |lock|
      case Arrived(p, dst) => p < |task| && dst < |lock|
      case BalLocked(src, dst, ts) => src < |lock| && dst < |lock| && InTasks(ts)
      case BalMarked(src, dst, ts, p) => src < |lock| && dst < |lock| && InTasks(ts) && p < |task|
      case BalBetween(dst, ts) => dst < |lock| && InTasks(ts)
      case BalAttach(dst, ts) => dst < |lock| && InTasks(ts)
      case WakeEntered(p) => p < |task|
      case WakeMatched(p) => p < |task|
      case WakeOff(p) => p < |task|
      case WakeWaking(p) => p < |task|
      case WakeSet(p, c) => p < |task| && c < |lock|
      case WakeLocked(p, c) => p < |task| && c < |lock|
      case PendTaken(r, ps) => r < |lock| && InTasks(ps)
      case PendLocked(r, ps) => r < |lock| && InTasks(ps)
      case SchedLocked(r) => r < |lock|
    }

    ghost predicate InTasks(ts: set<nat>) {
      forall p :: p in ts ==> p < |task|
    }
  }

  // ----- Which locks an actor holds, and which tasks are in its hands -----

  function PiOf(c: Pc): Option<nat> {
    match c
    case HavePi(p, _) => Some(p)
    case Read(p, _, _) => Some(p)
    case Locked(p, _, _) => Some(p)
    case Same(p, _, _) => Some(p)
    case Held(p, _, _) => Some(p)
    case Failed(p, _, _) => Some(p)
    case Backoff(p) => Some(p)
    case Spin(p, w) => if w then Some(p) else None
    case PiOnly(p) => Some(p)
    case Marked(p, _, _) => Some(p)
    case Moved(p, _, _) => Some(p)
    case Between(p, _) => Some(p)
    case Arrived(p, _) => Some(p)
    case WakeEntered(p) => Some(p)
    case WakeMatched(p) => Some(p)
    case WakeOff(p) => Some(p)
    case WakeWaking(p) => Some(p)
    case WakeSet(p, _) => Some(p)
    case WakeLocked(p, _) => Some(p)
    case _ => None
  }

  function RqOf(c: Pc): Option<nat> {
    match c
    case Locked(_, rq, _) => Some(rq)
    case Same(_, rq, _) => Some(rq)
    case Held(_, rq, _) => Some(rq)
    case Failed(_, rq, _) => Some(rq)
    case Marked(_, rq, _) => Some(rq)
    case Moved(_, rq, _) => Some(rq)
    case Arrived(_, dst) => Some(dst)
    case BalLocked(src, _, _) => Some(src)
    case BalMarked(src, _, _, _) => Some(src)
    case BalAttach(dst, _) => Some(dst)
    case WakeLocked(_, c) => Some(c)
    case PendLocked(r, _) => Some(r)
    case SchedLocked(r) => Some(r)
    case _ => None
  }

  /** The tasks the actor is migrating. */
  function Moving(c: Pc): set<nat> {
    match c
    case Marked(p, _, _) => {p}
    case Moved(p, _, _) => {p}
    case Between(p, _) => {p}
    case Arrived(p, _) => {p}
    case BalLocked(_, _, ts) => ts
    case BalMarked(_, _, ts, p) => ts + {p}
    case BalBetween(_, ts) => ts
    case BalAttach(_, ts) => ts
    case _ => {}
  }

  /** The tasks whose wakeup the actor has begun and has neither finished nor left to their CPU. */
  function ToWake(c: Pc): set<nat> {
    match c
    case WakeWaking(p) => {p}
    case WakeSet(p, _) => {p}
    case WakeLocked(p, _) => {p}
    case _ => {}
  }

  /** The tasks the actor has taken off a wake list and not yet queued. */
  function ToQueue(c: Pc): set<nat> {
    match c
    case PendTaken(_, ps) => ps
    case PendLocked(_, ps) => ps
    case _ => {}
  }

  // ----- The steps -----

  datatype Step =
    | Acquire(acquire: AcquireOp) | Drop(drop: DropOp) | Move(move: MoveOp) | Pull(pull: PullOp) | Push(push: PushOp)
    | Wake(wake: WakeOp) | Place(place: PlaceOp) | Pend(pend: PendOp) | Schedule(sched: SchedOp)
    | SetOwnState(p: nat, sleep: bool)

  datatype AcquireOp = LockPi(p: nat) | LockPiAgain | ReadRq | ReadThis(rq: nat) | LockRq | CheckCpu | CheckMigrating
  datatype DropOp = UnlockFailed | UnlockPi | StopSpinning | Release
  datatype MoveOp = Mark(dst: nat) | SetCpu | UnlockOld | LockNew | Requeue
  datatype PullOp = BalLock(src: nat, dst: nat) | Detach(p: nat) | BalSetCpu | BalUnlock
  datatype PushOp = BalLockDst | Attach(p: nat) | BalDone
  datatype WakeOp = WakeLockPi(p: nat) | CheckState | LoadOnRq | SetWaking
  datatype PlaceOp = Select(c: nat) | QueueRemote | WakeLockRq | Activate
  datatype PendOp = PendTake(r: nat) | PendLock | PendActivate(p: nat) | PendDone
  datatype SchedOp = SchedLock(r: nat) | Deschedule(p: nat) | SchedUnlock

  predicate CanLock(s: State, r: nat) { r < |s.lock| && s.lock[r].None? }

  predicate CanLockPi(s: State, p: nat) { p < |s.pi| && s.pi[p].None? }

  function At(s: State, a: nat, c: Pc): State
    requires a < |s.pc|
  {
    s.(pc := s.pc[a := c])
  }

  function TakePi(s: State, a: nat, p: nat): State { if p < |s.pi| then s.(pi := s.pi[p := Some(a)]) else s }
  function DropPi(s: State, p: nat): State { if p < |s.pi| then s.(pi := s.pi[p := None]) else s }
  function TakeRq(s: State, a: nat, r: nat): State { if r < |s.lock| then s.(lock := s.lock[r := Some(a)]) else s }
  function DropRq(s: State, r: nat): State { if r < |s.lock| then s.(lock := s.lock[r := None]) else s }
  function Put(s: State, p: nat, t: Task): State { if p < |s.task| then s.(task := s.task[p := t]) else s }

  /** Taking a task's own lock and its queue's, and checking that the queue is still its. */
  function AcquireStep(s: State, a: nat, op: AcquireOp): (s': State)
    requires s.Shaped() && a < |s.pc|
    ensures |s'.pc| == |s.pc|
  {
    match (s.pc[a], op)
    case (Idle, LockPi(p)) => if CanLockPi(s, p) then At(TakePi(s, a, p), a, HavePi(p, false)) else s
    case (Retry(p), LockPiAgain) => if CanLockPi(s, p) then At(TakePi(s, a, p), a, HavePi(p, false)) else s
    case (HavePi(p, w), ReadRq) => At(s, a, Read(p, s.task[p].cpu, w))
    case (HavePi(p, w), ReadThis(rq)) => if rq < |s.lock| && !w then At(s, a, Read(p, rq, w)) else s
    case (Read(p, rq, w), LockRq) => if CanLock(s, rq) then At(TakeRq(s, a, rq), a, Locked(p, rq, w)) else s
    case (Locked(p, rq, w), CheckCpu) => At(s, a, if s.task[p].cpu == rq then Same(p, rq, w) else Failed(p, rq, w))
    case (Same(p, rq, w), CheckMigrating) =>
      At(s, a, if s.task[p].onRq.Migrating? then Failed(p, rq, w) else Held(p, rq, w))
    case _ => s
  }

  /** Backing off after a failed check, and releasing both locks. */
  function DropStep(s: State, a: nat, op: DropOp): (s': State)
    requires s.Shaped() && a < |s.pc|
    ensures |s'.pc| == |s.pc|
  {
    match (s.pc[a], op)
    case (Failed(p, rq, w), UnlockFailed) => At(DropRq(s, rq), a, if w then Spin(p, w) else Backoff(p))
    case (Backoff(p), UnlockPi) => At(DropPi(s, p), a, Spin(p, false))
    case (Spin(p, w), StopSpinning) =>
      if s.task[p].onRq.Migrating? then s else At(s, a, if w then HavePi(p, w) else Retry(p))
    case (Held(p, rq, w), Release) =>
      if !w then At(DropRq(s, rq), a, PiOnly(p))
      else if s.task[p].onRq.Queued? then At(DropRq(Put(s, p, s.task[p].(run := Running)), rq), a, PiOnly(p))
      else At(DropRq(s, rq), a, WakeOff(p))
    case (PiOnly(p), UnlockPi) => At(DropPi(s, p), a, Idle)
    case _ => s
  }

  /** move_queued_task, by the holder of both of the task's locks. */
  function MoveStep(s: State, a: nat, op: MoveOp): (s': State)
    requires s.Shaped() && a < |s.pc|
    ensures |s'.pc| == |s.pc|
  {
    match (s.pc[a], op)
    case (Held(p, rq, w), Mark(dst)) =>
      if !w && s.task[p].onRq.Queued? && dst < |s.lock|
      then At(Put(s, p, s.task[p].(onRq := Migrating(a))), a, Marked(p, rq, dst)) else s
    case (Marked(p, rq, dst), SetCpu) => At(Put(s, p, s.task[p].(cpu := dst)), a, Moved(p, rq, dst))
    case (Moved(p, rq, dst), UnlockOld) => At(DropRq(s, rq), a, Between(p, dst))
    case (Between(p, dst), LockNew) => if CanLock(s, dst) then At(TakeRq(s, a, dst), a, Arrived(p, dst)) else s
    case (Arrived(p, dst), Requeue) => At(Put(s, p, s.task[p].(onRq := Queued)), a, Held(p, dst, false))
    case _ => s
  }

  /** detach_tasks, under the source queue's lock alone. */
  function PullStep(s: State, a: nat, op: PullOp): (s': State)
    requires s.Shaped() && a < |s.pc|
    ensures |s'.pc| == |s.pc|
  {
    match (s.pc[a], op)
    case (Idle, BalLock(src, dst)) =>
      if CanLock(s, src) && dst < |s.lock| then At(TakeRq(s, a, src), a, BalLocked(src, dst, {})) else s
    case (BalLocked(src, dst, ts), Detach(p)) =>
      if p < |s.task| && s.task[p].cpu == src && s.task[p].onRq.Queued?
      then At(Put(s, p, s.task[p].(onRq := Migrating(a))), a, BalMarked(src, dst, ts, p)) else s
    case (BalMarked(src, dst, ts, p), BalSetCpu) =>
      At(Put(s, p, s.task[p].(cpu := dst)), a, BalLocked(src, dst, ts + {p}))
    case (BalLocked(src, dst, ts), BalUnlock) => At(DropRq(s, src), a, BalBetween(dst, ts))
    case _ => s
  }

  /** attach_tasks, under the destination queue's lock alone. */
  function PushStep(s: State, a: nat, op: PushOp): (s': State)
    requires s.Shaped() && a < |s.pc|
    ensures |s'.pc| == |s.pc|
  {
    match (s.pc[a], op)
    case (BalBetween(dst, ts), BalLockDst) =>
      if CanLock(s, dst) then At(TakeRq(s, a, dst), a, BalAttach(dst, ts)) else s
    case (BalAttach(dst, ts), Attach(p)) =>
      if p in ts then At(Put(s, p, s.task[p].(onRq := Queued)), a, BalAttach(dst, ts - {p})) else s
    case (BalAttach(dst, ts), BalDone) => if ts == {} then At(DropRq(s, dst), a, Idle) else s
    case _ => s
  }

  /** try_to_wake_up, under the task's own lock alone. */
  function WakeStep(s: State, a: nat, op: WakeOp): (s': State)
    requires s.Shaped() && a < |s.pc|
    ensures |s'.pc| == |s.pc|
  {
    match (s.pc[a], op)
    case (Idle, WakeLockPi(p)) => if CanLockPi(s, p) then At(TakePi(s, a, p), a, WakeEntered(p)) else s
    case (WakeEntered(p), CheckState) => At(s, a, if s.task[p].run.Sleeping? then WakeMatched(p) else PiOnly(p))
    case (WakeMatched(p), LoadOnRq) => At(s, a, if s.task[p].onRq.Off? then WakeOff(p) else HavePi(p, true))
    case (WakeOff(p), SetWaking) => At(Put(s, p, s.task[p].(run := Waking(ByWaker(a)))), a, WakeWaking(p))
    case _ => s
  }

  /** The waker chooses a CPU and queues the task there, or leaves that to the CPU. */
  function PlaceStep(s: State, a: nat, op: PlaceOp): (s': State)
    requires s.Shaped() && a < |s.pc|
    ensures |s'.pc| == |s.pc|
  {
    match (s.pc[a], op)
    case (WakeWaking(p), Select(c)) => if c < |s.lock| then At(Put(s, p, s.task[p].(cpu := c)), a, WakeSet(p, c)) else s
    case (WakeSet(p, c), QueueRemote) =>
      At(Put(s, p, s.task[p].(run := Waking(Listed(c)))).(wake := s.wake[c := s.wake[c] + {p}]), a, PiOnly(p))
    case (WakeSet(p, c), WakeLockRq) => if CanLock(s, c) then At(TakeRq(s, a, c), a, WakeLocked(p, c)) else s
    case (WakeLocked(p, c), Activate) => At(Put(s, p, Task(s.task[p].cpu, Queued, Running)), a, Held(p, c, true))
    case _ => s
  }

  function TakeAll(task: seq<Task>, ps: set<nat>, a: nat): (task': seq<Task>)
    ensures |task'| == |task|
    ensures forall p :: 0 <= p < |task| ==>
              task'[p] == if p in ps then task[p].(run := Waking(Taken(a))) else task[p]
  {
    seq(|task|, p requires 0 <= p < |task| => if p in ps then task[p].(run := Waking(Taken(a))) else task[p])
  }

  /** sched_ttwu_pending. */
  function PendStep(s: State, a: nat, op: PendOp): (s': State)
    requires s.Shaped() && a < |s.pc|
    ensures |s'.pc| == |s.pc|
  {
    match (s.pc[a], op)
    case (Idle, PendTake(r)) =>
      if r < |s.lock|
      then At(s.(task := TakeAll(s.task, s.wake[r], a), wake := s.wake[r := {}]), a, PendTaken(r, s.wake[r])) else s
    case (PendTaken(r, ps), PendLock) => if CanLock(s, r) then At(TakeRq(s, a, r), a, PendLocked(r, ps)) else s
    case (PendLocked(r, ps), PendActivate(p)) =>
      if p in ps then At(Put(s, p, Task(s.task[p].cpu, Queued, Running)), a, PendLocked(r, ps - {p})) else s
    case (PendLocked(r, ps), PendDone) => if ps == {} then At(DropRq(s, r), a, Idle) else s
    case _ => s
  }

  /** A running task setting its own state. */
  function OwnStateStep(s: State, p: nat, sleep: bool): (s': State)
    ensures |s'.pc| == |s.pc|
  {
    if p < |s.task| && s.task[p].onRq.Queued?
    then Put(s, p, s.task[p].(run := if sleep then Sleeping else Running)) else s
  }

  /** schedule, under one queue's lock. */
  function SchedStep(s: State, a: nat, op: SchedOp): (s': State)
    requires s.Shaped() && a < |s.pc|
    ensures |s'.pc| == |s.pc|
  {
    match (s.pc[a], op)
    case (Idle, SchedLock(r)) => if CanLock(s, r) then At(TakeRq(s, a, r), a, SchedLocked(r)) else s
    case (SchedLocked(r), Deschedule(p)) =>
      if p < |s.task| && s.task[p].cpu == r && s.task[p].onRq.Queued? && s.task[p].run.Sleeping?
      then Put(s, p, s.task[p].(onRq := Off)) else s
    case (SchedLocked(r), SchedUnlock) => At(DropRq(s, r), a, Idle)
    case _ => s
  }

  // ----- What every reachable state satisfies -----

  ghost predicate LocksRight(s: State, a: nat)
    requires s.Shaped() && a < |s.pc|
  {
    && (PiOf(s.pc[a]).Some? ==> s.pi[PiOf(s.pc[a]).value] == Some(a))
    && (RqOf(s.pc[a]).Some? ==> s.lock[RqOf(s.pc[a]).value] == Some(a))
  }

  ghost predicate In(s: State, p: nat, cpu: nat, onRq: OnRq)
    requires p < |s.task|
  {
    s.task[p].cpu == cpu && s.task[p].onRq == onRq
  }

  ghost predicate AllIn(s: State, ts: set<nat>, cpu: nat, onRq: OnRq)
    requires s.InTasks(ts)
  {
    forall p :: p in ts ==> In(s, p, cpu, onRq)
  }

  ghost predicate PcRight(s: State, a: nat)
    requires s.Shaped() && a < |s.pc|
  {
    match s.pc[a]
    case HavePi(p, w) => w ==> !s.task[p].run.Waking?
    case Read(p, _, w) => w ==> !s.task[p].run.Waking?
    case Locked(p, _, w) => w ==> !s.task[p].run.Waking?
    case Failed(p, _, w) => w ==> !s.task[p].run.Waking?
    case Spin(p, w) => w ==> !s.task[p].run.Waking?
    case WakeMatched(p) => !s.task[p].run.Waking?
    case Same(p, rq, w) => s.task[p].cpu == rq && (w ==> !s.task[p].run.Waking?)
    case Held(p, rq, w) => s.task[p].cpu == rq && !s.task[p].onRq.Migrating? && (w ==> !s.task[p].run.Waking?)
    case Marked(p, rq, _) => In(s, p, rq, Migrating(a))
    case Moved(p, _, dst) => In(s, p, dst, Migrating(a))
    case Between(p, dst) => In(s, p, dst, Migrating(a))
    case Arrived(p, dst) => In(s, p, dst, Migrating(a))
    case BalLocked(_, dst, ts) => AllIn(s, ts, dst, Migrating(a))
    case BalMarked(src, dst, ts, p) => AllIn(s, ts, dst, Migrating(a)) && In(s, p, src, Migrating(a)) && p !in ts
    case BalBetween(dst, ts) => AllIn(s, ts, dst, Migrating(a))
    case BalAttach(dst, ts) => AllIn(s, ts, dst, Migrating(a))
    case WakeOff(p) => s.task[p].onRq.Off? && s.task[p].run.Sleeping?
    case WakeWaking(p) => s.task[p].onRq.Off? && s.task[p].run == Waking(ByWaker(a))
    case WakeSet(p, c) => In(s, p, c, Off) && s.task[p].run == Waking(ByWaker(a))
    case WakeLocked(p, c) => In(s, p, c, Off) && s.task[p].run == Waking(ByWaker(a))
    case PendTaken(r, ps) => AllIn(s, ps, r, Off) && forall p :: p in ps ==> s.task[p].run == Waking(Taken(a))
    case PendLocked(r, ps) => AllIn(s, ps, r, Off) && forall p :: p in ps ==> s.task[p].run == Waking(Taken(a))
    case _ => true
  }

  ghost predicate TaskRight(s: State, p: nat)
    requires s.Shaped() && p < |s.task|
  {
    && (s.task[p].onRq.Migrating? ==> s.task[p].onRq.mover < |s.pc| && p in Moving(s.pc[s.task[p].onRq.mover]))
    && (s.task[p].onRq.Off? ==> !s.task[p].run.Running?)
    && (s.task[p].run.Waking? ==> s.task[p].onRq.Off? && InHand(s, p, s.task[p].run.place))
  }

  /** Whoever is to finish a wakeup has the task in hand. */
  ghost predicate InHand(s: State, p: nat, place: Place) {
    match place
    case ByWaker(a) => a < |s.pc| && p in ToWake(s.pc[a])
    case Listed(r) => r < |s.wake| && p in s.wake[r]
    case Taken(a) => a < |s.pc| && p in ToQueue(s.pc[a])
  }

  ghost predicate WakeRight(s: State, r: nat)
    requires s.Shaped() && r < |s.wake|
  {
    forall p :: p in s.wake[r] ==> In(s, p, r, Off) && s.task[p].run == Waking(Listed(r))
  }

  ghost predicate Inv(s: State) {
    && s.Shaped()
    && (forall a: nat :: a < |s.pc| ==> LocksRight(s, a))
    && (forall a: nat :: a < |s.pc| ==> PcRight(s, a))
    && (forall p: nat :: p < |s.task| ==> TaskRight(s, p))
    && (forall r: nat :: r < |s.wake| ==> WakeRight(s, r))
  }

  // ----- What an actor may do to the locks and to a task without disturbing the others -----

  ghost predicate OwnLocksOnly(s: State, s': State, a: nat) {
    && |s'.pi| == |s.pi| && |s'.lock| == |s.lock|
    && (forall p :: 0 <= p < |s.pi| ==> s'.pi[p] == s.pi[p] || s.pi[p].None? || s.pi[p] == Some(a))
    && (forall r :: 0 <= r < |s.lock| ==> s'.lock[r] == s.lock[r] || s.lock[r].None? || s.lock[r] == Some(a))
  }

  ghost predicate MayChange(s: State, a: nat, p: nat, t: Task)
    requires s.Shaped() && p < |s.task|
  {
    var was := s.task[p];
    || t == was
    || (was.onRq == Migrating(a) && t.run == was.run && (t.cpu == was.cpu || s.lock[was.cpu] == Some(a)))
    || (was.onRq.Queued? && s.lock[was.cpu] == Some(a) && !t.run.Waking?)
    || (was.onRq.Queued? && t == was.(run := t.run) && !t.run.Waking?)
    || (was.onRq.Off? && s.pi[p] == Some(a) && (was.run.Sleeping? || was.run == Waking(ByWaker(a))))
    || (was.onRq.Off? && was.run == Waking(Taken(a)) && t == Task(was.cpu, Queued, Running))
    || (was.onRq.Off? && was.run.Waking? && was.run.place.Listed? && t == was.(run := Waking(Taken(a))))
  }

  /** Every other actor's view survives. */
  lemma {:induction false} OthersKeep(s: State, s': State, a: nat, b: nat)
    requires Inv(s) && s'.Shaped() && |s.pc| == |s'.pc| && b < |s.pc| && a != b
    requires |s'.task| == |s.task| && s'.pc[b] == s.pc[b] && OwnLocksOnly(s, s', a)
    requires forall p: nat :: p < |s.task| ==> MayChange(s, a, p, s'.task[p])
    ensures LocksRight(s', b) && PcRight(s', b)
  {
    assert LocksRight(s, b) && PcRight(s, b);
    forall p: nat | p < |s.task| ensures MayChange(s, a, p, s'.task[p]) {}
  }

  /** A step that changes at most task p, and what the actor holds, keeps the invariant if it does so locally. */
  lemma {:induction false} StepKeeps(s: State, s': State, a: nat, p: nat)
    requires Inv(s) && a < |s.pc| && |s'.task| == |s.task| && |s'.wake| == |s.wake|
    requires a < |s'.pc| && s'.pc == s.pc[a := s'.pc[a]] && OwnLocksOnly(s, s', a) && s'.InRange(s'.pc[a])
    requires s'.task == s.task || (p < |s.task| && s'.task == s.task[p := s'.task[p]])
    requires p < |s.task| ==> s'.task[p].cpu < |s.lock| && MayChange(s, a, p, s'.task[p])
    requires forall r :: 0 <= r < |s.wake| ==>
               s'.wake[r] == s.wake[r] || (s'.wake[r] == s.wake[r] + {p} && p < |s.task|)
    requires s'.Shaped() ==> LocksRight(s', a) && PcRight(s', a)
    requires s'.Shaped() && p < |s.task| ==> TaskRight(s', p)
    requires s'.Shaped() ==> forall r: nat :: r < |s.wake| && p in s'.wake[r] ==>
               In(s', p, r, Off) && s'.task[p].run == Waking(Listed(r))
    requires Moving(s.pc[a]) <= Moving(s'.pc[a]) + {p} && ToWake(s.pc[a]) <= ToWake(s'.pc[a]) + {p}
    requires ToQueue(s.pc[a]) <= ToQueue(s'.pc[a]) + {p}
    ensures Inv(s')
  {
    assert s'.Shaped() by { ShapeKeeps(s, s', a, p); }
    forall b: nat | b < |s.pc| ensures LocksRight(s', b) && PcRight(s', b) {
      if b != a { OthersKeep(s, s', a, b); }
    }
    forall q: nat | q < |s.task| ensures TaskRight(s', q) {
      assert TaskRight(s, q);
    }
    forall r: nat | r < |s.wake| ensures WakeRight(s', r) {
      assert WakeRight(s, r);
    }
  }

  lemma {:induction false} ShapeKeeps(s: State, s': State, a: nat, p: nat)
    requires s.Shaped() && a < |s.pc| && |s'.task| == |s.task| && |s'.wake| == |s.wake|
    requires a < |s'.pc| && s'.pc == s.pc[a := s'.pc[a]] && OwnLocksOnly(s, s', a) && s'.InRange(s'.pc[a])
    requires s'.task == s.task || (p < |s.task| && s'.task == s.task[p := s'.task[p]])
    requires p < |s.task| ==> s'.task[p].cpu < |s.lock|
    requires forall r :: 0 <= r < |s.wake| ==>
               s'.wake[r] == s.wake[r] || (s'.wake[r] == s.wake[r] + {p} && p < |s.task|)
    ensures s'.Shaped()
  {
    forall b | 0 <= b < |s'.pc| ensures s'.InRange(s'.pc[b]) {
      if b != a { assert s.InRange(s.pc[b]); }
    }
  }

  /** Unfolds what the invariant says about actor a and task p. */
  lemma {:induction false} Look(s: State, a: nat, p: nat)
    requires Inv(s) && a < |s.pc|
    ensures LocksRight(s, a) && PcRight(s, a) && (p < |s.task| ==> TaskRight(s, p))
    ensures forall r: nat :: r < |s.wake| && p in s.wake[r] ==> In(s, p, r, Off) && s.task[p].run == Waking(Listed(r))
  {
    forall r: nat | r < |s.wake| && p in s.wake[r] ensures In(s, p, r, Off) && s.task[p].run == Waking(Listed(r)) {
      assert WakeRight(s, r);
    }
  }

  /** The same for a step that leaves the wake lists alone. */
  lemma {:induction false} LocalStep(s: State, s': State, a: nat, p: nat)
    requires Inv(s) && a < |s.pc| && |s'.task| == |s.task| && s'.wake == s.wake
    requires a < |s'.pc| && s'.pc == s.pc[a := s'.pc[a]] && OwnLocksOnly(s, s', a) && s'.InRange(s'.pc[a])
    requires s'.task == s.task || (p < |s.task| && s'.task == s.task[p := s'.task[p]])
    requires p < |s.task| ==> s'.task[p].cpu < |s.lock| && MayChange(s, a, p, s'.task[p])
    requires p < |s.task| && s'.task[p] != s.task[p] ==> !(s.task[p].run.Waking? && s.task[p].run.place.Listed?)
    requires s'.Shaped() ==> LocksRight(s', a) && PcRight(s', a)
    requires s'.Shaped() && p < |s.task| ==> TaskRight(s', p)
    requires Moving(s.pc[a]) <= Moving(s'.pc[a]) + {p} && ToWake(s.pc[a]) <= ToWake(s'.pc[a]) + {p}
    requires ToQueue(s.pc[a]) <= ToQueue(s'.pc[a]) + {p}
    ensures Inv(s')
  {
    Look(s, a, p);
    StepKeeps(s, s', a, p);
  }

  lemma {:induction false} AcquireStepKeeps(s: State, a: nat, op: AcquireOp)
    requires Inv(s) && a < |s.pc|
    ensures Inv(AcquireStep(s, a, op))
  {
    var s' := AcquireStep(s, a, op);
    if s' != s {
      var p := if s.pc[a].Idle? then op.p else s.pc[a].p;
      Look(s, a, p);
      LocalStep(s, s', a, p);
    }
  }

  lemma {:induction false} DropStepKeeps(s: State, a: nat, op: DropOp)
    requires Inv(s) && a < |s.pc|
    ensures Inv(DropStep(s, a, op))
  {
    var s' := DropStep(s, a, op);
    if s' != s {
      var p := s.pc[a].p;
      Look(s, a, p);
      LocalStep(s, s', a, p);
    }
  }

  lemma {:induction false} MoveStepKeeps(s: State, a: nat, op: MoveOp)
    requires Inv(s) && a < |s.pc|
    ensures Inv(MoveStep(s, a, op))
  {
    var s' := MoveStep(s, a, op);
    if s' != s {
      var p := s.pc[a].p;
      Look(s, a, p);
      LocalStep(s, s', a, p);
    }
  }

  lemma {:induction false} DetachKeeps(s: State, a: nat, p: nat)
    requires Inv(s) && a < |s.pc|
    ensures Inv(PullStep(s, a, Detach(p)))
  {
    var s' := PullStep(s, a, Detach(p));
    if s' != s {
      Look(s, a, p);
      LocalStep(s, s', a, p);
    }
  }

  lemma {:induction false} BalSetCpuKeeps(s: State, a: nat)
    requires Inv(s) && a < |s.pc|
    ensures Inv(PullStep(s, a, BalSetCpu))
  {
    var s' := PullStep(s, a, BalSetCpu);
    if s' != s {
      Look(s, a, s.pc[a].p);
      LocalStep(s, s', a, s.pc[a].p);
    }
  }

  lemma {:induction false} PullStepKeeps(s: State, a: nat, op: PullOp)
    requires Inv(s) && a < |s.pc|
    ensures Inv(PullStep(s, a, op))
  {
    match op
    case Detach(p) => DetachKeeps(s, a, p);
    case BalSetCpu => BalSetCpuKeeps(s, a);
    case _ =>
      var s' := PullStep(s, a, op);
      if s' != s {
        Look(s, a, |s.task|);
        LocalStep(s, s', a, |s.task|);
      }
  }

  lemma {:induction false} PushStepKeeps(s: State, a: nat, op: PushOp)
    requires Inv(s) && a < |s.pc|
    ensures Inv(PushStep(s, a, op))
  {
    var s' := PushStep(s, a, op);
    if s' != s {
      var p := if op.Attach? then op.p else |s.task|;
      Look(s, a, p);
      LocalStep(s, s', a, p);
    }
  }

  lemma {:induction false} WakeStepKeeps(s: State, a: nat, op: WakeOp)
    requires Inv(s) && a < |s.pc|
    ensures Inv(WakeStep(s, a, op))
  {
    var s' := WakeStep(s, a, op);
    if s' != s {
      var p := if s.pc[a].Idle? then op.p else s.pc[a].p;
      Look(s, a, p);
      LocalStep(s, s', a, p);
    }
  }

  lemma {:induction false} PlaceStepKeeps(s: State, a: nat, op: PlaceOp)
    requires Inv(s) && a < |s.pc|
    ensures Inv(PlaceStep(s, a, op))
  {
    var s' := PlaceStep(s, a, op);
    if s' != s {
      var p := s.pc[a].p;
      Look(s, a, p);
      if op.QueueRemote? { StepKeeps(s, s', a, p); } else { LocalStep(s, s', a, p); }
    }
  }

  lemma {:induction false} PendStepKeeps(s: State, a: nat, op: PendOp)
    requires Inv(s) && a < |s.pc|
    ensures Inv(PendStep(s, a, op))
  {
    var s' := PendStep(s, a, op);
    if s' != s {
      if op.PendTake? {
        PendTakeKeeps(s, a, op.r);
      } else {
        var p := if op.PendActivate? then op.p else |s.task|;
        Look(s, a, p);
        LocalStep(s, s', a, p);
      }
    }
  }

  lemma {:induction false} SchedStepKeeps(s: State, a: nat, op: SchedOp)
    requires Inv(s) && a < |s.pc|
    ensures Inv(SchedStep(s, a, op))
  {
    var s' := SchedStep(s, a, op);
    if s' != s {
      var p := if op.Deschedule? then op.p else |s.task|;
      Look(s, a, p);
      LocalStep(s, s', a, p);
    }
  }

  lemma {:induction false} OwnStateKeeps(s: State, p: nat, sleep: bool)
    requires Inv(s)
    ensures Inv(OwnStateStep(s, p, sleep))
  {
    var s' := OwnStateStep(s, p, sleep);
    assert s'.Shaped() by {
      forall b | 0 <= b < |s'.pc| ensures s'.InRange(s'.pc[b]) { assert s.InRange(s.pc[b]); }
    }
    forall b: nat | b < |s.pc| ensures LocksRight(s', b) && PcRight(s', b) { OthersKeep(s, s', |s.pc|, b); }
    forall q: nat | q < |s.task| ensures TaskRight(s', q) { assert TaskRight(s, q); }
    forall r: nat | r < |s.wake| ensures WakeRight(s', r) { assert WakeRight(s, r); }
  }

  lemma {:induction false} PendTakeKeeps(s: State, a: nat, r: nat)
    requires Inv(s) && a < |s.pc| && s.pc[a].Idle? && r < |s.lock|
    ensures Inv(PendStep(s, a, PendTake(r)))
  {
    var s' := PendStep(s, a, PendTake(r));
    assert WakeRight(s, r);
    assert s'.Shaped() by {
      forall b | 0 <= b < |s'.pc| ensures s'.InRange(s'.pc[b]) {
        if b != a { assert s.InRange(s.pc[b]); }
      }
    }
    forall b: nat | b < |s.pc| ensures LocksRight(s', b) && PcRight(s', b) {
      if b != a { OthersKeep(s, s', a, b); }
    }
    forall q: nat | q < |s.task| ensures TaskRight(s', q) { TakenRight(s, a, r, q); }
    forall r': nat | r' < |s.wake| ensures WakeRight(s', r') {
      assert WakeRight(s, r');
    }
  }

  lemma {:induction false} TakenRight(s: State, a: nat, r: nat, q: nat)
    requires Inv(s) && a < |s.pc| && s.pc[a].Idle? && r < |s.lock| && q < |s.task|
    requires PendStep(s, a, PendTake(r)).Shaped()
    ensures TaskRight(PendStep(s, a, PendTake(r)), q)
  {
    assert TaskRight(s, q) && WakeRight(s, r);
  }

  // ----- Runs -----

  function Next(s: State, a: nat, step: Step): (s': State)
    requires s.Shaped() && a < |s.pc|
    ensures |s'.pc| == |s.pc|
  {
    match step
    case Acquire(op) => AcquireStep(s, a, op)
    case Drop(op) => DropStep(s, a, op)
    case Move(op) => MoveStep(s, a, op)
    case Pull(op) => PullStep(s, a, op)
    case Push(op) => PushStep(s, a, op)
    case Wake(op) => WakeStep(s, a, op)
    case Place(op) => PlaceStep(s, a, op)
    case Pend(op) => PendStep(s, a, op)
    case Schedule(op) => SchedStep(s, a, op)
    case SetOwnState(p, sleep) => OwnStateStep(s, p, sleep)
  }

  lemma {:induction false} NextKeeps(s: State, a: nat, step: Step)
    requires Inv(s) && a < |s.pc|
    ensures Inv(Next(s, a, step))
  {
    match step
    case Acquire(op) => AcquireStepKeeps(s, a, op);
    case Drop(op) => DropStepKeeps(s, a, op);
    case Move(op) => MoveStepKeeps(s, a, op);
    case Pull(op) => PullStepKeeps(s, a, op);
    case Push(op) => PushStepKeeps(s, a, op);
    case Wake(op) => WakeStepKeeps(s, a, op);
    case Place(op) => PlaceStepKeeps(s, a, op);
    case Pend(op) => PendStepKeeps(s, a, op);
    case Schedule(op) => SchedStepKeeps(s, a, op);
    case SetOwnState(p, sleep) => OwnStateKeeps(s, p, sleep);
  }

  ghost predicate QueuedOrAsleep(t: Task) {
    t == Task(t.cpu, Queued, Running) || t == Task(t.cpu, Off, Sleeping)
  }

  /** Any number of actors with nothing to do; tasks asleep or queued somewhere; no lock taken. */
  ghost predicate Initial(s: State) {
    && |s.pi| == |s.task| && |s.wake| == |s.lock|
    && (forall a :: 0 <= a < |s.pc| ==> s.pc[a].Idle?)
    && (forall p :: 0 <= p < |s.task| ==> s.task[p].cpu < |s.lock| && QueuedOrAsleep(s.task[p]))
    && (forall p :: 0 <= p < |s.pi| ==> s.pi[p].None?)
    && (forall r :: 0 <= r < |s.lock| ==> s.lock[r].None? && s.wake[r] == {})
  }

  /** The state after a run: in each pair, an actor and the step it takes (or cannot take, and waits). */
  ghost function After(s: State, run: seq<(nat, Step)>): (s': State)
    requires Inv(s)
    ensures Inv(s')
    decreases |run|
  {
    if run == [] then s
    else if run[0].0 >= |s.pc| then After(s, run[1..])
    else
      NextKeeps(s, run[0].0, run[0].1);
      After(Next(s, run[0].0, run[0].1), run[1..])
  }

  /**
   Once task_rq_lock or __task_rq_lock has returned queue rq for task p, until the holder releases the
   lock or moves the task, the holder holds both locks, rq is p's queue and p is not being migrated.
   */
  lemma {:induction false} HeldMeansTaskIsHere(s: State, run: seq<(nat, Step)>, a: nat)
    requires Initial(s)
    ensures Inv(s)
    ensures var s' := After(s, run);
            a < |s'.pc| && s'.pc[a].Held? ==>
              var p, rq := s'.pc[a].p, s'.pc[a].rq;
              && s'.task[p].cpu == rq && !s'.task[p].onRq.Migrating?
              && s'.lock[rq] == Some(a) && s'.pi[p] == Some(a)
  {
    InitialInv(s);
    var s' := After(s, run);
    if a < |s'.pc| { Look(s', a, 0); }
  }

  lemma {:induction false} InitialInv(s: State)
    requires Initial(s)
    ensures Inv(s)
  {
  }

  /** Only the holder's own steps end that, by releasing the queue or starting to move the task. */
  lemma {:induction false} OthersCannotEndHolding(s: State, a: nat, b: nat, step: Step)
    requires Inv(s) && a < |s.pc| && b < |s.pc| && s.pc[a].Held?
    ensures b != a ==> Next(s, b, step).pc[a] == s.pc[a]
    ensures b == a && Next(s, a, step).pc[a] != s.pc[a] ==> step == Drop(Release) || (step.Move? && step.move.Mark?)
  {
  }

  /** A task that has been moved arrives where it was sent: move_queued_task's and attach_task's checks hold. */
  lemma {:induction false} ArrivesWhereSent(s: State, run: seq<(nat, Step)>, a: nat)
    requires Initial(s)
    ensures Inv(s)
    ensures var s' := After(s, run);
            && (a < |s'.pc| && s'.pc[a].Arrived? ==> s'.task[s'.pc[a].p].cpu == s'.pc[a].dst)
            && (a < |s'.pc| && s'.pc[a].BalAttach? ==> forall p :: p in s'.pc[a].ts ==> s'.task[p].cpu == s'.pc[a].dst)
  {
    InitialInv(s);
    var s' := After(s, run);
    if a < |s'.pc| { Look(s', a, 0); }
  }

  /** Whoever spins on a migrating task waits for an actor that has the task in hand. */
  lemma {:induction false} MigratingHasMover(s: State, run: seq<(nat, Step)>, p: nat)
    requires Initial(s)
    ensures Inv(s)
    ensures var s' := After(s, run);
            p < |s'.task| && s'.task[p].onRq.Migrating? ==> exists m: nat :: m < |s'.pc| && p in Moving(s'.pc[m])
  {
    InitialInv(s);
    var s' := After(s, run);
    if p < |s'.task| { assert TaskRight(s', p); }
  }

  // ----- What becomes of a wakeup -----

  /** The task whose wakeup try_to_wake_up has not finished yet. */
  function WakerOf(c: Pc): Option<nat> {
    match c
    case HavePi(p, w) => if w then Some(p) else None
    case Read(p, _, w) => if w then Some(p) else None
    case Locked(p, _, w) => if w then Some(p) else None
    case Same(p, _, w) => if w then Some(p) else None
    case Held(p, _, w) => if w then Some(p) else None
    case Failed(p, _, w) => if w then Some(p) else None
    case Spin(p, w) => if w then Some(p) else None
    case WakeEntered(p) => Some(p)
    case WakeMatched(p) => Some(p)
    case WakeOff(p) => Some(p)
    case WakeWaking(p) => Some(p)
    case WakeSet(p, _) => Some(p)
    case WakeLocked(p, _) => Some(p)
    case _ => None
  }

  /** A waking task stops waking only by being queued where it is, and running. */
  lemma {:induction false} WakingEndsQueued(s: State, a: nat, step: Step, p: nat)
    requires Inv(s) && a < |s.pc| && p < |s.task| && s.task[p].run.Waking?
    ensures var s' := Next(s, a, step);
            p < |s'.task| && (s'.task[p].run.Waking? || s'.task[p] == Task(s.task[p].cpu, Queued, Running))
  {
    Look(s, a, p);
  }

  /** How a wakeup ends: the task runs, or waits on its CPU's wake list, or was not asleep to begin with. */
  ghost predicate WokenUp(s: State, s': State, a: nat, p: nat)
    requires a < |s.pc| && p < |s.task| == |s'.task|
  {
    || (s'.task[p].onRq.Queued? && s'.task[p].run.Running?)
    || (s'.task[p].cpu < |s'.wake| && p in s'.wake[s'.task[p].cpu])
    || (s.pc[a] == WakeEntered(p) && !s.task[p].run.Sleeping? && s'.task == s.task)
  }

  /** Releasing the queue: after ttwu_remote has set the state, or to go on with a task that is off its queue. */
  lemma {:induction false} WakerDrops(s: State, a: nat, op: DropOp, p: nat)
    requires Inv(s) && a < |s.pc| && p < |s.task| && WakerOf(s.pc[a]) == Some(p)
    ensures var s' := DropStep(s, a, op);
            && |s'.task| == |s.task|
            && (WakerOf(s'.pc[a]) == Some(p) || (s'.pc[a] == PiOnly(p) && WokenUp(s, s', a, p)))
  {
    Look(s, a, p);
  }

  lemma {:induction false} WakerPlaces(s: State, a: nat, op: PlaceOp, p: nat)
    requires Inv(s) && a < |s.pc| && p < |s.task| && WakerOf(s.pc[a]) == Some(p)
    ensures var s' := PlaceStep(s, a, op);
            && |s'.task| == |s.task|
            && (WakerOf(s'.pc[a]) == Some(p) || (s'.pc[a] == PiOnly(p) && WokenUp(s, s', a, p)))
  {
    Look(s, a, p);
  }

  lemma {:induction false} WakerEnds(s: State, a: nat, step: Step, p: nat)
    requires Inv(s) && a < |s.pc| && p < |s.task| && WakerOf(s.pc[a]) == Some(p)
    ensures var s' := Next(s, a, step);
            && |s'.task| == |s.task|
            && (WakerOf(s'.pc[a]) == Some(p) || (s'.pc[a] == PiOnly(p) && WokenUp(s, s', a, p)))
  {
    match step
    case Drop(op) => WakerDrops(s, a, op, p);
    case Place(op) => WakerPlaces(s, a, op, p);
    case _ =>
  }

  lemma {:induction false} AfterOneMore(s: State, run: seq<(nat, Step)>, a: nat, step: Step)
    requires Inv(s)
    ensures var s1 := After(s, run);
            After(s, run + [(a, step)]) == if a < |s1.pc| then Next(s1, a, step) else s1
    decreases |run|
  {
    var more := run + [(a, step)];
    if run == [] {
      assert more[1..] == [];
      if a < |s.pc| { NextKeeps(s, a, step); }
    } else {
      assert more[1..] == run[1..] + [(a, step)];
      if run[0].0 < |s.pc| {
        NextKeeps(s, run[0].0, run[0].1);
        AfterOneMore(Next(s, run[0].0, run[0].1), run[1..], a, step);
      } else {
        AfterOneMore(s, run[1..], a, step);
      }
    }
  }

  /**
   In every step of every run: a task that stops waking is then queued, on the CPU it was waking on, and running;
   and an actor that has done with waking a task leaves it so, or on that CPU's wake list, or found it not asleep.
   */
  lemma {:induction false} WakeupsFinish(s: State, run: seq<(nat, Step)>, a: nat, step: Step, p: nat, b: nat)
    requires Initial(s)
    ensures Inv(s)
    ensures var s1, s2 := After(s, run), After(s, run + [(a, step)]);
            && |s2.task| == |s1.task| && |s2.pc| == |s1.pc|
            && (p < |s1.task| && s1.task[p].run.Waking? && !s2.task[p].run.Waking? ==>
                  s2.task[p] == Task(s1.task[p].cpu, Queued, Running))
            && (b < |s1.pc| && p < |s1.task| && WakerOf(s1.pc[b]) == Some(p) && WakerOf(s2.pc[b]) != Some(p) ==>
                  b == a && s2.pc[b] == PiOnly(p) && WokenUp(s1, s2, b, p))
  {
    InitialInv(s);
    AfterOneMore(s, run, a, step);
    var s1 := After(s, run);
    if a < |s1.pc| {
      KeepsSizes(s1, a, step);
      if p < |s1.task| && s1.task[p].run.Waking? { WakingEndsQueued(s1, a, step, p); }
      if p < |s1.task| && b < |s1.pc| && WakerOf(s1.pc[b]) == Some(p) && b == a { WakerEnds(s1, a, step, p); }
    }
  }

  /** A step moves only the actor that takes it. */
  lemma {:induction false} KeepsSizes(s: State, a: nat, step: Step)
    requires Inv(s) && a < |s.pc|
    ensures var s' := Next(s, a, step);
            |s'.task| == |s.task| && |s'.pc| == |s.pc| && forall b :: 0 <= b < |s.pc| && b != a ==> s'.pc[b] == s.pc[b]
  {
    match step
    case Acquire(op) =>
    case Drop(op) =>
    case _ =>
  }

  /** After any run a waking task is in its waker's hands, on its CPU's wake list, or taken off it to be queued. */
  lemma {:induction false} NoWakeupLost(s: State, run: seq<(nat, Step)>, p: nat)
    requires Initial(s)
    ensures Inv(s)
    ensures var s' := After(s, run);
            p < |s'.task| && s'.task[p].run.Waking? ==>
              || (exists b: nat :: b < |s'.pc| && p in ToWake(s'.pc[b]) && s'.pi[p] == Some(b))
              || (s'.task[p].cpu < |s'.wake| && p in s'.wake[s'.task[p].cpu])
              || (exists b: nat :: b < |s'.pc| && p in ToQueue(s'.pc[b]) && s'.pc[b].r == s'.task[p].cpu)
  {
    InitialInv(s);
    var s' := After(s, run);
    if p < |s'.task| && s'.task[p].run.Waking? {
      assert TaskRight(s', p);
      match s'.task[p].run.place {
        case ByWaker(b) => assert LocksRight(s', b);
        case Listed(r) => assert WakeRight(s', r);
        case Taken(b) => assert PcRight(s', b);
      }
    }
  }
}
