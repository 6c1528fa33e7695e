/**
 Taking two run-queue locks: double_rq_lock and both forms of double_lock_balance, mixed by any number
 of CPUs in any order. Queues are ordered by their number, as the kernel orders them by address.
 */
module DoubleLock {
  import opened Common

  /** What a CPU holds and, when it is in a lock operation, what it waits for. */
  datatype Cpu =
    | Free
    | Wants(first: nat, after: Option<nat>)   // holds nothing; waits for first, then for after
    | Has(rq: nat)
    | HasWants(rq: nat, next: nat)            // holds rq; waits for next
    | HasBoth(rq1: nat, rq2: nat)

  function Waits(c: Cpu): Option<nat> {
    match c
    case Wants(first, _) => Some(first)
    case HasWants(_, next) => Some(next)
    case _ => None
  }

  function Holds(c: Cpu): set<nat> {
    match c
    case Has(rq) => {rq}
    case HasWants(rq, _) => {rq}
    case HasBoth(rq1, rq2) => {rq1, rq2}
    case _ => {}
  }

  datatype State = State(cpu: seq<Cpu>, lock: seq<Option<nat>>)

  datatype Step =
    | RqLock(rq: nat)
    | DoubleRqLock(rq1: nat, rq2: nat)
    | Get                                      // the lock waited for is free and is taken
    | DoubleLockBalance(busiest: nat)
    | Unlock(rq: nat)                          // of double_rq_unlock, double_unlock_balance, rq_unlock

  function Set(s: State, a: nat, c: Cpu): State
    requires a < |s.cpu|
  {
    s.(cpu := s.cpu[a := c])
  }

  /** double_rq_lock: the lower queue first; the same queue only once. */
  function Ordered(rq1: nat, rq2: nat): Cpu {
    if rq1 == rq2 then Wants(rq1, None)
    else if rq1 < rq2 then Wants(rq1, Some(rq2))
    else Wants(rq2, Some(rq1))
  }

  function Take(s: State, a: nat): State
    requires a < |s.cpu|
  {
    match s.cpu[a]
    case Wants(first, after) =>
      if first < |s.lock| && s.lock[first].None?
      then
        var c := if after.None? then Has(first) else HasWants(first, after.value);
        Set(s.(lock := s.lock[first := Some(a)]), a, c)
      else s
    case HasWants(rq, next) =>
      if next < |s.lock| && s.lock[next].None?
      then Set(s.(lock := s.lock[next := Some(a)]), a, HasBoth(rq, next)) else s
    case _ => s
  }

  /**
   With CONFIG_PREEMPT the held lock is always dropped and both are taken in order. Without it the
   second lock is tried first; only if that fails and the order is wrong is the first one dropped. Called
   with the queue that is held already, it therefore waits for itself.
   */
  function Balance(s: State, a: nat, preempt: bool, busiest: nat): State
    requires a < |s.cpu|
  {
    match s.cpu[a]
    case Has(this_) =>
      if this_ >= |s.lock| || busiest >= |s.lock| then s
      else if preempt then Set(s.(lock := s.lock[this_ := None]), a, Ordered(this_, busiest))
      else if s.lock[busiest].None? then Set(s.(lock := s.lock[busiest := Some(a)]), a, HasBoth(this_, busiest))
      else if busiest < this_ then Set(s.(lock := s.lock[this_ := None]), a, Wants(busiest, Some(this_)))
      else Set(s, a, HasWants(this_, busiest))
    case _ => s
  }

  function Release(s: State, a: nat, rq: nat): State
    requires a < |s.cpu|
  {
    if rq >= |s.lock| then s
    else
      var s' := s.(lock := s.lock[rq := None]);
      match s.cpu[a]
      case Has(r) => if r == rq then Set(s', a, Free) else s
      case HasBoth(r1, r2) => if r1 == rq then Set(s', a, Has(r2)) else if r2 == rq then Set(s', a, Has(r1)) else s
      case _ => s
  }

  function Next(s: State, preempt: bool, a: nat, step: Step): (s': State)
    ensures |s'.cpu| == |s.cpu| && |s'.lock| == |s.lock|
  {
    if a >= |s.cpu| then s
    else match step
      case RqLock(rq) => if s.cpu[a].Free? && rq < |s.lock| then Set(s, a, Wants(rq, None)) else s
      case DoubleRqLock(rq1, rq2) =>
        if s.cpu[a].Free? && rq1 < |s.lock| && rq2 < |s.lock| then Set(s, a, Ordered(rq1, rq2)) else s
      case Get => Take(s, a)
      case DoubleLockBalance(busiest) => Balance(s, a, preempt, busiest)
      case Unlock(rq) => Release(s, a, rq)
  }

  /** Held locks are owned; what comes next is above what is held, or will be held by then. */
  ghost predicate Ascending(s: State, a: nat)
    requires a < |s.cpu|
  {
    && (forall r :: r in Holds(s.cpu[a]) ==> r < |s.lock| && s.lock[r] == Some(a))
    && match s.cpu[a]
       case Wants(first, after) => first < |s.lock| && (after.Some? ==> first < after.value < |s.lock|)
       case HasWants(rq, next) => rq < next < |s.lock|
       case HasBoth(rq1, rq2) => rq1 != rq2
       case _ => true
  }

  ghost predicate Inv(s: State) {
    && (forall a: nat :: a < |s.cpu| ==> Ascending(s, a))
    && (forall r :: 0 <= r < |s.lock| && s.lock[r].Some? ==>
          s.lock[r].value < |s.cpu| && r in Holds(s.cpu[s.lock[r].value]))
  }

  /** A step that changes one CPU and only locks of its own keeps the invariant if that CPU stays ascending. */
  lemma {:induction false} StepKeeps(s: State, s': State, a: nat)
    requires Inv(s) && a < |s.cpu| == |s'.cpu| && |s'.lock| == |s.lock| && s'.cpu == s.cpu[a := s'.cpu[a]]
    requires forall r :: r in Holds(s'.cpu[a]) ==> r < |s.lock| && (s.lock[r].None? || s.lock[r] == Some(a))
    requires forall r :: 0 <= r < |s.lock| ==>
               s'.lock[r] == if r in Holds(s'.cpu[a]) then Some(a) else if s.lock[r] == Some(a) then None else s.lock[r]
    requires Ascending(s', a)
    ensures Inv(s')
  {
    forall b: nat | b < |s.cpu| ensures Ascending(s', b) {
      assert Ascending(s, b);
    }
  }

  /** The locks a CPU owns are the ones it holds. */
  lemma {:induction false} Owns(s: State, a: nat)
    requires Inv(s) && a < |s.cpu|
    ensures Ascending(s, a)
    ensures forall r :: 0 <= r < |s.lock| ==> (s.lock[r] == Some(a) <==> r in Holds(s.cpu[a]))
  {
    assert Ascending(s, a);
  }

  lemma {:induction false} TakeKeeps(s: State, a: nat)
    requires Inv(s) && a < |s.cpu|
    ensures Inv(Take(s, a))
  {
    Owns(s, a);
    var s' := Take(s, a);
    if s' != s {
      assert Holds(s'.cpu[a]) == Holds(s.cpu[a]) + {Waits(s.cpu[a]).value};
      StepKeeps(s, s', a);
    }
  }

  /** The one call that must not be made: without CONFIG_PREEMPT, double_lock_balance of a queue with itself. */
  ghost predicate Proper(s: State, preempt: bool, a: nat, step: Step) {
    step.DoubleLockBalance? && !preempt && a < |s.cpu| ==> s.cpu[a] != Has(step.busiest)
  }

  lemma {:induction false} ProperBalanceKeeps(s: State, a: nat, preempt: bool, busiest: nat)
    requires Inv(s) && a < |s.cpu| && Proper(s, preempt, a, DoubleLockBalance(busiest))
    ensures Inv(Balance(s, a, preempt, busiest))
  {
    Owns(s, a);
    if Balance(s, a, preempt, busiest) != s {
      var this_ := s.cpu[a].rq;
      assert Holds(s.cpu[a]) == {this_};
      StepKeeps(s, Balance(s, a, preempt, busiest), a);
    }
  }

  /** The locks stay in order exactly if the two queues differ. */
  lemma {:induction false} BalanceKeeps(s: State, a: nat, preempt: bool, busiest: nat)
    requires Inv(s) && a < |s.cpu|
    ensures Inv(Balance(s, a, preempt, busiest)) <==> Proper(s, preempt, a, DoubleLockBalance(busiest))
  {
    if Proper(s, preempt, a, DoubleLockBalance(busiest)) {
      ProperBalanceKeeps(s, a, preempt, busiest);
    } else {
      Owns(s, a);
      assert !Ascending(Balance(s, a, preempt, busiest), a);
    }
  }

  lemma {:induction false} ReleaseKeeps(s: State, a: nat, rq: nat)
    requires Inv(s) && a < |s.cpu|
    ensures Inv(Release(s, a, rq))
  {
    Owns(s, a);
    var s' := Release(s, a, rq);
    if s' != s {
      assert Holds(s'.cpu[a]) == Holds(s.cpu[a]) - {rq} && rq in Holds(s.cpu[a]);
      StepKeeps(s, s', a);
    }
  }

  lemma {:induction false} NextKeeps(s: State, preempt: bool, a: nat, step: Step)
    requires Inv(s) && Proper(s, preempt, a, step)
    ensures Inv(Next(s, preempt, a, step))
  {
    if a < |s.cpu| {
      match step
      case Get => TakeKeeps(s, a);
      case DoubleLockBalance(busiest) => BalanceKeeps(s, a, preempt, busiest);
      case Unlock(rq) => ReleaseKeeps(s, a, rq);
      case _ =>
        Owns(s, a);
        var s' := Next(s, preempt, a, step);
        if s' != s { StepKeeps(s, s', a); }
    }
  }

  function After(s: State, preempt: bool, run: seq<(nat, Step)>): State
    decreases |run|
  {
    if run == [] then s else After(Next(s, preempt, run[0].0, run[0].1), preempt, run[1..])
  }

  ghost predicate Initial(s: State) {
    (forall a :: 0 <= a < |s.cpu| ==> s.cpu[a].Free?) && (forall r :: 0 <= r < |s.lock| ==> s.lock[r].None?)
  }

  /** No step of the run balances a queue with itself. */
  ghost predicate ProperRun(s: State, preempt: bool, run: seq<(nat, Step)>)
    decreases |run|
  {
    run == [] || (&& Proper(s, preempt, run[0].0, run[0].1)
                  && ProperRun(Next(s, preempt, run[0].0, run[0].1), preempt, run[1..]))
  }

  lemma {:induction false} RunKeeps(s: State, preempt: bool, run: seq<(nat, Step)>)
    requires Inv(s) && ProperRun(s, preempt, run)
    ensures Inv(After(s, preempt, run))
    decreases |run|
  {
    if run != [] {
      NextKeeps(s, preempt, run[0].0, run[0].1);
      RunKeeps(Next(s, preempt, run[0].0, run[0].1), preempt, run[1..]);
    }
  }

  /** In every reachable state a CPU waits only for a queue lock above every one it holds. */
  lemma {:induction false} BlocksUpwardsOnly(s: State, preempt: bool, run: seq<(nat, Step)>, a: nat, r: nat)
    requires Initial(s) && ProperRun(s, preempt, run)
    ensures var s' := After(s, preempt, run);
            a < |s'.cpu| && Waits(s'.cpu[a]).Some? && r in Holds(s'.cpu[a]) ==> r < Waits(s'.cpu[a]).value
  {
    RunKeeps(s, preempt, run);
    var s' := After(s, preempt, run);
    if a < |s'.cpu| { assert Ascending(s', a); }
  }

  /** a waits for a lock that b holds. */
  ghost predicate WaitsFor(s: State, a: nat, b: nat) {
    && a < |s.cpu| && b < |s.cpu| && Waits(s.cpu[a]).Some?
    && Waits(s.cpu[a]).value < |s.lock| && s.lock[Waits(s.cpu[a]).value] == Some(b)
  }

  function Wanted(s: State, a: nat): int {
    if a < |s.cpu| && Waits(s.cpu[a]).Some? then Waits(s.cpu[a]).value else -1
  }

  /** Along a chain of waiting CPUs the locks waited for go up; the last CPU may not be waiting. */
  lemma {:induction false} ChainClimbs(s: State, chain: seq<nat>, k: nat)
    requires Inv(s) && k < |chain| && forall i :: 0 <= i < |chain| - 1 ==> WaitsFor(s, chain[i], chain[i + 1])
    ensures k < |chain| - 1 ==> Wanted(s, chain[k]) >= 0
    ensures Wanted(s, chain[k]) == -1 || Wanted(s, chain[0]) + k <= Wanted(s, chain[k])
    ensures |chain| > 1 ==> Wanted(s, chain[0]) >= 0
    decreases k
  {
    if |chain| > 1 { assert WaitsFor(s, chain[0], chain[1]); }
    if k < |chain| - 1 { assert WaitsFor(s, chain[k], chain[k + 1]); }
    if k > 0 {
      ChainClimbs(s, chain, k - 1);
      assert WaitsFor(s, chain[k - 1], chain[k]) && Ascending(s, chain[k]);
    }
  }

  ghost predicate CyclicWait(s: State, ring: seq<nat>) {
    && |ring| >= 2 && ring[0] == ring[|ring| - 1]
    && forall i :: 0 <= i < |ring| - 1 ==> WaitsFor(s, ring[i], ring[i + 1])
  }

  /** No reachable state has a ring of CPUs each waiting for a lock the next one holds. */
  lemma {:induction false} NoCyclicWait(s: State, preempt: bool, run: seq<(nat, Step)>, ring: seq<nat>)
    requires Initial(s) && ProperRun(s, preempt, run)
    ensures !CyclicWait(After(s, preempt, run), ring)
  {
    RunKeeps(s, preempt, run);
    var s' := After(s, preempt, run);
    if CyclicWait(s', ring) {
      ChainClimbs(s', ring, |ring| - 1);
    }
  }

  lemma {:induction false} ProperPrefix(s: State, preempt: bool, run: seq<(nat, Step)>, k: nat)
    requires ProperRun(s, preempt, run) && k <= |run|
    ensures ProperRun(s, preempt, run[..k])
    decreases |run|
  {
    if k > 0 {
      assert run[..k][1..] == run[1..][..k - 1];
      ProperPrefix(Next(s, preempt, run[0].0, run[0].1), preempt, run[1..], k - 1);
    }
  }

  /** The first such call leaves a CPU waiting for itself. */
  lemma {:induction false} ImproperHangs(s: State, preempt: bool, run: seq<(nat, Step)>) returns (k: nat, a: nat)
    requires Inv(s) && !ProperRun(s, preempt, run)
    ensures k <= |run| && CyclicWait(After(s, preempt, run[..k]), [a, a])
    decreases |run|
  {
    var s' := Next(s, preempt, run[0].0, run[0].1);
    if Proper(s, preempt, run[0].0, run[0].1) {
      NextKeeps(s, preempt, run[0].0, run[0].1);
      k, a := ImproperHangs(s', preempt, run[1..]);
      assert run[..k + 1][1..] == run[1..][..k];
      k := k + 1;
    } else {
      k, a := 1, run[0].0;
      Owns(s, a);
      assert run[..1][1..] == [];
      assert After(s, preempt, run[..1]) == s';
      assert WaitsFor(s', a, a);
    }
  }

  /** After k steps of the run the CPUs of the ring wait for each other. */
  ghost predicate HangsAt(s: State, preempt: bool, run: seq<(nat, Step)>, k: nat, ring: seq<nat>) {
    k <= |run| && CyclicWait(After(s, preempt, run[..k]), ring)
  }

  /** A run has no cyclic wait at any point exactly if it never balances a queue with itself. */
  lemma {:induction false} NoCyclicWaitIff(s: State, preempt: bool, run: seq<(nat, Step)>)
    requires Initial(s)
    ensures ProperRun(s, preempt, run) <==>
            forall k: nat, ring :: k <= |run| ==> !HangsAt(s, preempt, run, k, ring)
  {
    if ProperRun(s, preempt, run) {
      forall k: nat, ring | k <= |run| ensures !HangsAt(s, preempt, run, k, ring) {
        ProperPrefix(s, preempt, run, k);
        NoCyclicWait(s, preempt, run[..k], ring);
      }
    } else {
      var k, a := ImproperHangs(s, preempt, run);
      assert HangsAt(s, preempt, run, k, [a, a]);
    }
  }

  ghost predicate CanGoOn(s: State, b: nat) {
    b < |s.cpu| && forall c: nat :: !WaitsFor(s, b, c)
  }

  /** From any waiting CPU the chain of waiting leads to one that can go on. */
  lemma {:induction false} SomeoneCanGoOn(s: State, a: nat) returns (b: nat)
    requires Inv(s) && a < |s.cpu|
    ensures CanGoOn(s, b)
    decreases if Waits(s.cpu[a]).Some? then |s.lock| - Waits(s.cpu[a]).value else 0
  {
    assert Ascending(s, a);
    if Waits(s.cpu[a]).Some? && s.lock[Waits(s.cpu[a]).value].Some? {
      var owner := s.lock[Waits(s.cpu[a]).value].value;
      assert Ascending(s, owner);
      b := SomeoneCanGoOn(s, owner);
    } else {
      b := a;
    }
  }

  /** No reachable state is stuck: someone does not wait for anybody. */
  lemma {:induction false} NeverStuck(s: State, preempt: bool, run: seq<(nat, Step)>)
    requires Initial(s) && |s.cpu| > 0 && ProperRun(s, preempt, run)
    ensures var s' := After(s, preempt, run);
            exists b :: CanGoOn(s', b)
  {
    RunKeeps(s, preempt, run);
    RunLength(s, preempt, run);
    var b := SomeoneCanGoOn(After(s, preempt, run), 0);
  }

  lemma {:induction false} RunLength(s: State, preempt: bool, run: seq<(nat, Step)>)
    ensures |After(s, preempt, run).cpu| == |s.cpu|
    decreases |run|
  {
    if run != [] { RunLength(Next(s, preempt, run[0].0, run[0].1), preempt, run[1..]); }
  }

  // ----- What each operation is for -----

  /** The locks a CPU will hold once it no longer waits. */
  function Asked(c: Cpu): set<nat> {
    match c
    case Wants(first, after) => if after.Some? then {first, after.value} else {first}
    case HasWants(rq, next) => {rq, next}
    case _ => Holds(c)
  }

  /** A CPU that does not wait holds exactly what it asked for. */
  lemma {:induction false} HoldsWhatItAsked(c: Cpu)
    ensures Holds(c) <= Asked(c)
    ensures Waits(c).None? ==> Holds(c) == Asked(c)
    ensures Waits(c).Some? ==> Waits(c).value in Asked(c)
  {
  }

  /** What a step is to mean for the CPU that takes it. */
  ghost predicate Meant(s: State, preempt: bool, a: nat, step: Step, s': State)
    requires a < |s.cpu| == |s'.cpu| && |s'.lock| == |s.lock|
  {
    var c, c' := s.cpu[a], s'.cpu[a];
    match step
    case RqLock(rq) => c.Free? && rq < |s.lock| ==> Asked(c') == {rq}
    case DoubleRqLock(rq1, rq2) => c.Free? && rq1 < |s.lock| && rq2 < |s.lock| ==> Asked(c') == {rq1, rq2}
    case Get =>
      Asked(c') == Asked(c) &&
      (Waits(c).Some? && Waits(c).value < |s.lock| && s.lock[Waits(c).value].None? ==>
         Holds(c') == Holds(c) + {Waits(c).value})
    case DoubleLockBalance(busiest) =>
      c.Has? && busiest < |s.lock| ==>
        && Asked(c') == {c.rq, busiest}
        && (!preempt && s.lock[busiest].None? ==> Holds(c') == {c.rq, busiest})
        && (!preempt && c.rq < busiest ==> c.rq in Holds(c'))
    case Unlock(rq) =>
      Waits(c).None? && rq in Holds(c) && rq < |s.lock| ==> Holds(c') == Holds(c) - {rq} && s'.lock[rq].None?
  }

  /** Every operation asks for what it is called with, takes a free lock it waits for, and keeps to that. */
  lemma {:induction false} StepsMean(s: State, preempt: bool, a: nat, step: Step)
    requires Inv(s) && a < |s.cpu|
    ensures Meant(s, preempt, a, step, Next(s, preempt, a, step))
  {
    assert Ascending(s, a);
    var c, c' := s.cpu[a], Next(s, preempt, a, step).cpu[a];
    match step
    case Unlock(rq) =>
      if c.HasBoth? && rq in Holds(c) {
        assert Holds(c') == Holds(c) - {rq};
      }
    case _ =>
  }

  /** Nobody's locks or wishes change by what others do. */
  lemma {:induction false} OthersUntouched(s: State, preempt: bool, a: nat, b: nat, step: Step)
    requires Inv(s) && Proper(s, preempt, b, step) && a < |s.cpu| && a != b
    ensures var s' := Next(s, preempt, b, step);
            s'.cpu[a] == s.cpu[a] && forall r :: r in Holds(s.cpu[a]) ==> r < |s.lock| && s'.lock[r] == Some(a)
  {
    NextKeeps(s, preempt, b, step);
    assert Ascending(Next(s, preempt, b, step), a);
  }

  /** With both queues free, double_rq_lock and double_rq_unlock lead through holding both back to where they began. */
  lemma {:induction false} LockAndUnlock(s: State, preempt: bool, a: nat, rq1: nat, rq2: nat)
    requires Inv(s) && a < |s.cpu| && s.cpu[a].Free? && rq1 < |s.lock| && rq2 < |s.lock| && rq1 != rq2
    requires s.lock[rq1].None? && s.lock[rq2].None?
    ensures var held := Take(Take(Next(s, preempt, a, DoubleRqLock(rq1, rq2)), a), a);
            && held.lock == s.lock[rq1 := Some(a)][rq2 := Some(a)] && Waits(held.cpu[a]).None?
            && Holds(held.cpu[a]) == {rq1, rq2}
            && Release(Release(held, a, rq1), a, rq2) == s
  {
    var held := Take(Take(Next(s, preempt, a, DoubleRqLock(rq1, rq2)), a), a);
    assert held.lock == s.lock[rq1 := Some(a)][rq2 := Some(a)];
    var out := Release(Release(held, a, rq1), a, rq2);
    assert out.lock == s.lock && out.cpu == s.cpu;
  }
}
