/**
 Runtime lending between the RT run queues of one root domain (without CONFIG_RT_GROUP_SCHED):
 borrowing from neighbours, reclaiming what was lent when a CPU goes offline, and the reset when it
 comes back. RT_RUNTIME_SHARE is on and the configured runtime and period do not change.
 */
module RtLending {

  const U64: nat := 0x1_0000_0000_0000_0000
  const RUNTIME_INF: nat := 0xFFFF_FFFF_FFFF_FFFF

  /** rt_runtime (RUNTIME_INF once disabled), rt_time and rt_throttled. */
  datatype RtRq = RtRq(runtime: nat, time: nat, throttled: bool) {
    predicate Enabled() { runtime != RUNTIME_INF }
  }

  function Min(a: int, b: int): int { if a < b then a else b }

  // ----- What the enabled queues hold together -----

  function Held(q: RtRq): nat {
    if q.Enabled() then q.runtime else 0
  }

  function Sum(rq: seq<RtRq>): nat {
    if rq == [] then 0 else Sum(rq[..|rq| - 1]) + Held(rq[|rq| - 1])
  }

  function NrEnabled(rq: seq<RtRq>): nat {
    if rq == [] then 0 else NrEnabled(rq[..|rq| - 1]) + if rq[|rq| - 1].Enabled() then 1 else 0
  }

  lemma {:induction false} SumUpdate(rq: seq<RtRq>, i: nat, q: RtRq)
    requires i < |rq|
    ensures Sum(rq[i := q]) == Sum(rq) - Held(rq[i]) + Held(q)
    ensures Held(rq[i]) <= Sum(rq)
    ensures NrEnabled(rq[i := q]) ==
              NrEnabled(rq) - (if rq[i].Enabled() then 1 else 0) + if q.Enabled() then 1 else 0
    decreases |rq|
  {
    var k := |rq| - 1;
    if i == k {
      assert rq[i := q][..k] == rq[..k];
    } else {
      SumUpdate(rq[..k], i, q);
      assert rq[i := q][..k] == rq[..k][i := q];
    }
  }

  lemma {:induction false} TwoHeld(rq: seq<RtRq>, i: nat, j: nat)
    requires i < |rq| && j < |rq| && i != j
    ensures Held(rq[i]) + Held(rq[j]) <= Sum(rq)
  {
    SumUpdate(rq, i, RtRq(0, 0, false));
    SumUpdate(rq[i := RtRq(0, 0, false)], j, RtRq(0, 0, false));
  }

  lemma {:induction false} NoneEnabled(rq: seq<RtRq>)
    requires forall i :: 0 <= i < |rq| ==> !rq[i].Enabled()
    ensures Sum(rq) == 0 && NrEnabled(rq) == 0
    decreases |rq|
  {
    if rq != [] { NoneEnabled(rq[..|rq| - 1]); }
  }

  lemma {:induction false} EnabledAtMost(rq: seq<RtRq>)
    ensures NrEnabled(rq) <= |rq|
    decreases |rq|
  {
    if rq != [] { EnabledAtMost(rq[..|rq| - 1]); }
  }

  // ----- Borrowing -----

  /** Takes 1/n of the spare time of each queue from the i-th on, until the borrower holds a period. */
  function Borrow(rq: seq<RtRq>, period: nat, me: nat, i: nat): (rq': seq<RtRq>)
    requires me < |rq| && i <= |rq|
    decreases |rq| - i
  {
    if i == |rq| then rq
    else if i == me || !rq[i].Enabled() || rq[i].runtime <= rq[i].time then Borrow(rq, period, me, i + 1)
    else
      var rq' := BorrowOne(rq, period, me, i);
      if rq'[me].runtime == period then rq' else Borrow(rq', period, me, i + 1)
  }

  function Spare(rq: seq<RtRq>, period: nat, me: nat, i: nat): (diff: int)
    requires me < |rq| && i < |rq| && rq[i].runtime > rq[i].time
    ensures diff <= rq[i].runtime - rq[i].time && diff + rq[me].runtime >= 0
    ensures rq[me].runtime <= period ==> 0 <= diff <= period - rq[me].runtime
  {
    DivShrinks(rq[i].runtime - rq[i].time, |rq|);
    var diff := (rq[i].runtime - rq[i].time) / |rq|;
    if rq[me].runtime + diff > period then period - rq[me].runtime else diff
  }

  lemma {:induction false} DivShrinks(x: nat, n: nat)
    requires n > 0
    ensures 0 <= x / n <= x
  {
    assert x == n * (x / n) + x % n;
    MulAtMost(1, n, x / n, x / n);
  }

  function BorrowOne(rq: seq<RtRq>, period: nat, me: nat, i: nat): (rq': seq<RtRq>)
    requires me < |rq| && i < |rq| && i != me && rq[i].runtime > rq[i].time
    ensures |rq'| == |rq|
  {
    var diff := Spare(rq, period, me, i);
    rq[i := rq[i].(runtime := rq[i].runtime - diff)][me := rq[me].(runtime := rq[me].runtime + diff)]
  }

  /** A queue after its neighbour has borrowed: it keeps its own time, and has not lent below it. */
  ghost predicate LentFairly(before: RtRq, after: RtRq) {
    && after.time == before.time && after.throttled == before.throttled
    && (after.Enabled() <==> before.Enabled())
    && (before.Enabled() && before.runtime > before.time ==> after.runtime >= after.time)
    && (before.Enabled() && before.runtime <= before.time ==> after == before)
  }

  lemma {:induction false} BorrowOneConserves(rq: seq<RtRq>, period: nat, me: nat, i: nat)
    requires me < |rq| && i < |rq| && i != me && rq[i].runtime > rq[i].time
    requires rq[me].Enabled() && rq[i].Enabled() && Sum(rq) < RUNTIME_INF && period < RUNTIME_INF
    ensures var rq' := BorrowOne(rq, period, me, i);
            && Sum(rq') == Sum(rq) && NrEnabled(rq') == NrEnabled(rq)
            && rq'[me].Enabled() && rq'[me] == rq[me].(runtime := rq'[me].runtime) && LentFairly(rq[i], rq'[i])
            && (rq[me].runtime <= period ==> rq[me].runtime <= rq'[me].runtime <= period)
            && forall k :: 0 <= k < |rq| && k != me && k != i ==> rq'[k] == rq[k]
  {
    TwoHeld(rq, i, me);
    var diff := Spare(rq, period, me, i);
    var lender := rq[i].(runtime := rq[i].runtime - diff);
    var borrower := rq[me].(runtime := rq[me].runtime + diff);
    SumUpdate(rq, i, lender);
    SumUpdate(rq[i := lender], me, borrower);
  }

  /** Borrowing moves runtime between enabled queues and takes no lender below its own rt_time. */
  lemma {:induction false} BorrowConserves(rq: seq<RtRq>, period: nat, me: nat, i: nat)
    requires me < |rq| && i <= |rq| && rq[me].Enabled() && Sum(rq) < RUNTIME_INF && period < RUNTIME_INF
    ensures var rq' := Borrow(rq, period, me, i);
            && |rq'| == |rq| && Sum(rq') == Sum(rq) && NrEnabled(rq') == NrEnabled(rq)
            && rq'[me].Enabled() && rq'[me] == rq[me].(runtime := rq'[me].runtime)
            && (rq[me].runtime <= period ==> rq[me].runtime <= rq'[me].runtime <= period)
            && (forall k :: 0 <= k < i && k != me ==> rq'[k] == rq[k])
            && (forall k :: i <= k < |rq| && k != me ==> LentFairly(rq[k], rq'[k]))
    decreases |rq| - i
  {
    if i < |rq| {
      if i == me || !rq[i].Enabled() || rq[i].runtime <= rq[i].time {
        BorrowConserves(rq, period, me, i + 1);
      } else {
        BorrowOneConserves(rq, period, me, i);
        var rq' := BorrowOne(rq, period, me, i);
        if rq'[me].runtime != period { BorrowConserves(rq', period, me, i + 1); }
      }
    }
  }

  ghost predicate SameTime(q: RtRq, r: RtRq) { r.time == q.time && r.throttled == q.throttled }

  /** Borrowing changes nobody's time or throttled flag. */
  lemma {:induction false} BorrowKeepsTimes(rq: seq<RtRq>, period: nat, me: nat, i: nat, j: nat)
    requires me < |rq| && i <= |rq| && j < |rq|
    ensures |Borrow(rq, period, me, i)| == |rq| && SameTime(rq[j], Borrow(rq, period, me, i)[j])
    decreases |rq| - i
  {
    if i < |rq| {
      if i == me || !rq[i].Enabled() || rq[i].runtime <= rq[i].time {
        BorrowKeepsTimes(rq, period, me, i + 1, j);
      } else {
        BorrowKeepsTimes(BorrowOne(rq, period, me, i), period, me, i + 1, j);
      }
    }
  }

  /** What one of n queues has to lend: its part of the time it has to spare. */
  function Lendable(q: RtRq, n: nat): nat
    requires n > 0
  {
    if q.Enabled() && q.runtime > q.time then (q.runtime - q.time) / n else 0
  }

  ghost predicate Lent(before: RtRq, after: RtRq, n: nat)
    requires n > 0
  {
    after.runtime == before.runtime - Lendable(before, n)
  }

  /**
   The borrower goes round the others in turn. Each lends its part in full before the next is asked, the last
   one only what is missing to a period; unless the borrower then holds a period, all have lent their part.
   */
  ghost predicate BorrowedInTurn(rq: seq<RtRq>, rq': seq<RtRq>, period: nat, me: nat, i: nat)
    requires me < |rq| == |rq'|
  {
    && (forall k :: i <= k < |rq| && k != me ==>
          0 <= rq[k].runtime - rq'[k].runtime <= Lendable(rq[k], |rq|))
    && (forall j, k :: i <= j < k < |rq| && j != me && k != me && rq'[k] != rq[k] ==> Lent(rq[j], rq'[j], |rq|))
    && (rq'[me].runtime != period ==> forall k :: i <= k < |rq| && k != me ==> Lent(rq[k], rq'[k], |rq|))
  }

  lemma {:induction false} OneMoreLender(rq: seq<RtRq>, rq1: seq<RtRq>, rq': seq<RtRq>, period: nat, me: nat, i: nat)
    requires me < |rq| == |rq1| == |rq'| && i < |rq|
    requires forall k :: i < k < |rq| && k != me ==> rq1[k] == rq[k]
    requires i != me ==> rq'[i].runtime == rq1[i].runtime && Lent(rq[i], rq1[i], |rq|)
    requires BorrowedInTurn(rq1, rq', period, me, i + 1)
    ensures BorrowedInTurn(rq, rq', period, me, i)
  {
    assert i != me ==> Lent(rq[i], rq'[i], |rq|);
    forall k | i < k < |rq| && k != me ensures 0 <= rq[k].runtime - rq'[k].runtime <= Lendable(rq[k], |rq|) {
      assert rq1[k] == rq[k];
    }
  }

  /** What one lender gives: its part, or what is missing to a period if that is less. */
  lemma {:induction false} OneLends(rq: seq<RtRq>, period: nat, me: nat, i: nat)
    requires me < |rq| && i < |rq| && i != me && rq[i].Enabled() && rq[i].runtime > rq[i].time
    requires rq[me].runtime < period
    ensures var rq' := BorrowOne(rq, period, me, i);
            && 0 <= rq[i].runtime - rq'[i].runtime <= Lendable(rq[i], |rq|)
            && (rq'[me].runtime != period ==> Lent(rq[i], rq'[i], |rq|)) && rq'[me].runtime <= period
  {
    DivShrinks(rq[i].runtime - rq[i].time, |rq|);
  }

  lemma {:induction false} BorrowLater(rq: seq<RtRq>, period: nat, me: nat, i: nat, k: nat)
    requires me < |rq| && k < i <= |rq| && k != me
    ensures |Borrow(rq, period, me, i)| == |rq| && Borrow(rq, period, me, i)[k] == rq[k]
    decreases |rq| - i
  {
    if i < |rq| {
      if i == me || !rq[i].Enabled() || rq[i].runtime <= rq[i].time {
        BorrowLater(rq, period, me, i + 1, k);
      } else {
        BorrowLater(BorrowOne(rq, period, me, i), period, me, i + 1, k);
      }
    }
  }

  lemma {:induction false} BorrowTakesParts(rq: seq<RtRq>, period: nat, me: nat, i: nat)
    requires me < |rq| && i <= |rq| && rq[me].runtime < period
    ensures var rq' := Borrow(rq, period, me, i); |rq'| == |rq| && BorrowedInTurn(rq, rq', period, me, i)
    decreases |rq| - i
  {
    BorrowLength(rq, period, me, i);
    if i < |rq| {
      if i == me || !rq[i].Enabled() || rq[i].runtime <= rq[i].time {
        BorrowTakesParts(rq, period, me, i + 1);
        if i != me { BorrowLater(rq, period, me, i + 1, i); }
        OneMoreLender(rq, rq, Borrow(rq, period, me, i + 1), period, me, i);
      } else {
        OneLends(rq, period, me, i);
        var rq1 := BorrowOne(rq, period, me, i);
        if rq1[me].runtime == period {
          LastLender(rq, rq1, period, me, i);
        } else {
          BorrowTakesParts(rq1, period, me, i + 1);
          BorrowLater(rq1, period, me, i + 1, i);
          OneMoreLender(rq, rq1, Borrow(rq1, period, me, i + 1), period, me, i);
        }
      }
    }
  }

  lemma {:induction false} LastLender(rq: seq<RtRq>, rq': seq<RtRq>, period: nat, me: nat, i: nat)
    requires me < |rq| == |rq'| && i < |rq| && rq'[me].runtime == period
    requires 0 <= rq[i].runtime - rq'[i].runtime <= Lendable(rq[i], |rq|)
    requires forall k :: i < k < |rq| && k != me ==> rq'[k] == rq[k]
    ensures BorrowedInTurn(rq, rq', period, me, i)
  {
    forall k | i <= k < |rq| && k != me ensures 0 <= rq[k].runtime - rq'[k].runtime <= Lendable(rq[k], |rq|) {
      DivShrinks(if rq[k].runtime > rq[k].time then rq[k].runtime - rq[k].time else 0, |rq|);
    }
  }

  // ----- Reclaiming -----

  /** Takes `want` back from the queues from the i-th on, or hands a surplus to the first of them. */
  function Reclaim(rq: seq<RtRq>, me: nat, want: int, i: nat): (r: (seq<RtRq>, int))
    requires me < |rq| && i <= |rq|
    ensures |r.0| == |rq|
    decreases |rq| - i
  {
    if i == |rq| then (rq, want)
    else if i == me || !rq[i].Enabled() then Reclaim(rq, me, want, i + 1)
    else
      var diff := if want > 0 && rq[i].runtime < want then rq[i].runtime else want;
      var rq' := rq[i := rq[i].(runtime := rq[i].runtime - diff)];
      if want - diff == 0 then (rq', 0) else Reclaim(rq', me, want - diff, i + 1)
  }

  /** What the queues from the i-th on hold, the reclaiming one aside. */
  function Others(rq: seq<RtRq>, me: nat, i: nat): nat
    requires i <= |rq|
    decreases |rq| - i
  {
    if i == |rq| then 0 else (if i == me then 0 else Held(rq[i])) + Others(rq, me, i + 1)
  }

  lemma {:induction false} OthersUnchanged(rq: seq<RtRq>, me: nat, i: nat, k: nat, q: RtRq)
    requires k < i <= |rq|
    ensures Others(rq[k := q], me, i) == Others(rq, me, i)
    decreases |rq| - i
  {
    if i < |rq| { OthersUnchanged(rq, me, i + 1, k, q); }
  }

  lemma {:induction false} OthersIsRest(rq: seq<RtRq>, me: nat)
    requires me < |rq|
    ensures Others(rq, me, 0) == Sum(rq) - Held(rq[me])
  {
    SumUpdate(rq, me, RtRq(0, 0, false));
    var z := rq[me := RtRq(0, 0, false)];
    OthersIsSum(z, me, 0);
    OthersOwn(rq, me, 0, RtRq(0, 0, false));
  }

  lemma {:induction false} OthersOwn(rq: seq<RtRq>, me: nat, i: nat, q: RtRq)
    requires me < |rq| && i <= |rq|
    ensures Others(rq[me := q], me, i) == Others(rq, me, i)
    decreases |rq| - i
  {
    if i < |rq| { OthersOwn(rq, me, i + 1, q); }
  }

  lemma {:induction false} OthersIsSum(rq: seq<RtRq>, me: nat, i: nat)
    requires me < |rq| && i <= |rq| && Held(rq[me]) == 0
    ensures Sum(rq[..i]) + Others(rq, me, i) == Sum(rq)
    decreases |rq| - i
  {
    if i == |rq| {
      assert rq[..i] == rq;
    } else {
      OthersIsSum(rq, me, i + 1);
      assert rq[..i + 1][..i] == rq[..i];
    }
  }

  ghost predicate SomeOther(rq: seq<RtRq>, me: nat, i: nat) {
    exists k :: i <= k < |rq| && k != me && rq[k].Enabled()
  }

  /** The same queues are enabled and nothing but their runtimes has changed. */
  ghost predicate OnlyRuntime(rq: seq<RtRq>, rq': seq<RtRq>) {
    |rq'| == |rq| && forall k :: 0 <= k < |rq| ==>
      rq'[k] == rq[k].(runtime := rq'[k].runtime) && (rq'[k].Enabled() <==> rq[k].Enabled())
  }

  /** Nothing is left wanting when the others hold enough to give, or one of them is there to take. */
  lemma {:induction false} ReclaimSucceeds(rq: seq<RtRq>, me: nat, want: int, i: nat)
    requires me < |rq| && i <= |rq| && want != 0 && Sum(rq) - want < RUNTIME_INF
    requires want > 0 ==> Others(rq, me, i) >= want
    requires want < 0 ==> SomeOther(rq, me, i)
    ensures var (rq', left) := Reclaim(rq, me, want, i);
            && left == 0 && |rq'| == |rq| && Sum(rq') == Sum(rq) - want && NrEnabled(rq') == NrEnabled(rq)
            && rq'[me] == rq[me] && OnlyRuntime(rq, rq')
    decreases |rq| - i
  {
    if i < |rq| {
      if i == me || !rq[i].Enabled() {
        ReclaimSucceeds(rq, me, want, i + 1);
      } else {
        var diff := if want > 0 && rq[i].runtime < want then rq[i].runtime else want;
        var q := rq[i].(runtime := rq[i].runtime - diff);
        SumUpdate(rq, i, q);
        OthersUnchanged(rq, me, i + 1, i, q);
        if want - diff != 0 { ReclaimSucceeds(rq[i := q], me, want - diff, i + 1); }
      }
    }
  }

  /** What queue k keeps when `want` is taken back: it gives what those before it could not. */
  function Left(rq: seq<RtRq>, me: nat, want: int, i: nat, k: nat): int
    requires i <= k < |rq|
  {
    var missing := want - (Others(rq, me, i) - Others(rq, me, k));
    if missing <= 0 then rq[k].runtime else if missing < rq[k].runtime then rq[k].runtime - missing else 0
  }

  lemma {:induction false} OthersFewer(rq: seq<RtRq>, me: nat, i: nat, k: nat)
    requires i <= k <= |rq|
    ensures Others(rq, me, k) <= Others(rq, me, i)
    decreases k - i
  {
    if i < k { OthersFewer(rq, me, i + 1, k); }
  }

  lemma {:induction false} ReclaimLater(rq: seq<RtRq>, me: nat, want: int, i: nat, k: nat)
    requires me < |rq| && k < i <= |rq|
    ensures Reclaim(rq, me, want, i).0[k] == rq[k]
    decreases |rq| - i
  {
    if i < |rq| {
      var diff := if want > 0 && rq[i].runtime < want then rq[i].runtime else want;
      ReclaimLater(rq, me, want, i + 1, k);
      ReclaimLater(rq[i := rq[i].(runtime := rq[i].runtime - diff)], me, want - diff, i + 1, k);
    }
  }

  /** Who gives how much. */
  lemma {:induction false} ReclaimAmounts(rq: seq<RtRq>, me: nat, want: int, i: nat, k: nat)
    requires me < |rq| && i <= k < |rq| && k != me && rq[k].Enabled() && want > 0
    ensures Reclaim(rq, me, want, i).0[k].runtime == Left(rq, me, want, i, k)
    decreases |rq| - i
  {
    var diff := if rq[i].runtime < want then rq[i].runtime else want;
    var q := rq[i].(runtime := rq[i].runtime - diff);
    if i == k {
      ReclaimLater(rq[i := q], me, want - diff, i + 1, k);
    } else if i == me || !rq[i].Enabled() {
      ReclaimAmounts(rq, me, want, i + 1, k);
    } else if want == diff {
      OthersFewer(rq, me, i + 1, k);
    } else {
      ReclaimAmounts(rq[i := q], me, want - diff, i + 1, k);
      OthersUnchanged(rq, me, i + 1, i, q);
      OthersUnchanged(rq, me, k, i, q);
    }
  }

  /** A surplus goes to the first queue that can take it, and to no other. */
  lemma {:induction false} SurplusToFirst(rq: seq<RtRq>, me: nat, want: int, i: nat, j: nat, k: nat)
    requires me < |rq| && i <= j < |rq| && j != me && rq[j].Enabled() && want < 0 && k < |rq| && k != j
    requires forall l :: i <= l < j ==> l == me || !rq[l].Enabled()
    ensures var rq' := Reclaim(rq, me, want, i).0; rq'[j].runtime == rq[j].runtime - want && rq'[k] == rq[k]
    decreases j - i
  {
    if i < j { SurplusToFirst(rq, me, want, i + 1, j, k); }
  }

  // ----- The root domain -----

  /** n times the configured runtime. */
  function Shares(n: nat, runtime: nat): nat {
    if n == 0 then 0 else Shares(n - 1, runtime) + runtime
  }

  lemma {:induction false} SharesIsProduct(n: nat, runtime: nat)
    ensures Shares(n, runtime) == n * runtime
    decreases n
  {
    if n > 0 { SharesIsProduct(n - 1, runtime); }
  }

  /** The configured runtime and period are within what 64-bit sums over all CPUs can hold. */
  ghost predicate Conserved(rq: seq<RtRq>, runtime: nat, period: nat) {
    && |rq| > 0 && (forall i :: 0 <= i < |rq| ==> rq[i].time < U64)
    && runtime <= period && |rq| * period < 0x8000_0000_0000_0000
    && Sum(rq) == Shares(NrEnabled(rq), runtime)
  }

  lemma {:induction false} ConservedBounds(rq: seq<RtRq>, runtime: nat, period: nat)
    requires Conserved(rq, runtime, period)
    ensures period < 0x8000_0000_0000_0000 && Sum(rq) < 0x8000_0000_0000_0000
  {
    EnabledAtMost(rq);
    SharesIsProduct(NrEnabled(rq), runtime);
    MulAtMost(NrEnabled(rq), |rq|, runtime, period);
    MulAtMost(1, |rq|, period, period);
  }

  lemma {:induction false} MulAtMost(a: nat, b: nat, x: nat, y: nat)
    requires a <= b && x <= y
    ensures a * x <= b * y
  {
    assert a * x <= a * y;
    assert b * y == a * y + (b - a) * y;
  }

  /** What a queue that has more or less than its share must take back can always be found. */
  lemma {:induction false} NothingLeaks(rq: seq<RtRq>, runtime: nat, period: nat, me: nat)
    requires Conserved(rq, runtime, period) && me < |rq| && rq[me].Enabled() && rq[me].runtime != runtime
    ensures var (rq', left) := Reclaim(rq, me, runtime - rq[me].runtime, 0);
            && left == 0 && |rq'| == |rq| && rq'[me] == rq[me] && Sum(rq') == Sum(rq) - (runtime - rq[me].runtime)
            && NrEnabled(rq') == NrEnabled(rq) && OnlyRuntime(rq, rq')
  {
    ConservedBounds(rq, runtime, period);
    OthersIsRest(rq, me);
    SumUpdate(rq, me, RtRq(RUNTIME_INF, 0, false));
    var z := rq[me := RtRq(RUNTIME_INF, 0, false)];
    assert Shares(1, runtime) == runtime;
    if !SomeOther(rq, me, 0) {
      NoneEnabled(z);
    }
    assert SomeOther(rq, me, 0);
    ReclaimSucceeds(rq, me, runtime - rq[me].runtime, 0);
  }

  /** Resetting a queue to its share keeps the books exactly when it is disabled or holds its share. */
  lemma {:induction false} ResetKeepsBooks(rq: seq<RtRq>, runtime: nat, period: nat, me: nat)
    requires Conserved(rq, runtime, period) && me < |rq|
    ensures Conserved(rq[me := RtRq(runtime, 0, false)], runtime, period) <==>
              !rq[me].Enabled() || rq[me].runtime == runtime
  {
    ConservedBounds(rq, runtime, period);
    SumUpdate(rq, me, RtRq(runtime, 0, false));
  }

  /** The queues once `me` has taken back what it lent and is disabled. */
  function Disabled(rq: seq<RtRq>, runtime: nat, me: nat): (rq': seq<RtRq>)
    requires me < |rq|
  {
    var back := if !rq[me].Enabled() || rq[me].runtime == runtime then rq
                else Reclaim(rq, me, runtime - rq[me].runtime, 0).0;
    back[me := back[me].(runtime := RUNTIME_INF, throttled := false)]
  }

  lemma {:induction false} DisableKeepsBooks(rq: seq<RtRq>, runtime: nat, period: nat, me: nat)
    requires Conserved(rq, runtime, period) && me < |rq|
    ensures Conserved(Disabled(rq, runtime, me), runtime, period)
    ensures Disabled(rq, runtime, me)[me] == RtRq(RUNTIME_INF, rq[me].time, false)
  {
    if rq[me].Enabled() && rq[me].runtime != runtime { NothingLeaks(rq, runtime, period, me); }
    var back := if !rq[me].Enabled() || rq[me].runtime == runtime then rq
                else Reclaim(rq, me, runtime - rq[me].runtime, 0).0;
    SumUpdate(back, me, back[me].(runtime := RUNTIME_INF, throttled := false));
  }

  // ----- Whole runs -----

  /** Borrows when the queue has run longer than it holds. */
  function Balanced(rq: seq<RtRq>, period: nat, me: nat): (rq': seq<RtRq>)
    requires me < |rq|
  {
    if rq[me].time > rq[me].runtime then Borrow(rq, period, me, 0) else rq
  }

  /** sched_rt_runtime_exceeded: borrow, then throttle a queue that is still over. */
  function Exceeded(rq: seq<RtRq>, runtime: nat, period: nat, me: nat): (rq': seq<RtRq>)
    requires me < |rq|
    ensures |rq'| == |rq|
  {
    if rq[me].throttled || rq[me].runtime >= period then rq
    else
      BorrowLength(rq, period, me, 0);
      var rq' := Balanced(rq, period, me);
      if rq'[me].Enabled() && rq'[me].time > rq'[me].runtime then
        rq'[me := if runtime != 0 then rq'[me].(throttled := true) else rq'[me].(time := 0)]
      else rq'
  }

  lemma {:induction false} BorrowLength(rq: seq<RtRq>, period: nat, me: nat, i: nat)
    requires me < |rq| && i <= |rq|
    ensures |Borrow(rq, period, me, i)| == |rq|
    decreases |rq| - i
  {
    if i < |rq| {
      if i == me || !rq[i].Enabled() || rq[i].runtime <= rq[i].time {
        BorrowLength(rq, period, me, i + 1);
      } else {
        BorrowLength(BorrowOne(rq, period, me, i), period, me, i + 1);
      }
    }
  }

  /** update_curr_rt: a disabled queue is not charged. */
  function Charged(rq: seq<RtRq>, runtime: nat, period: nat, me: nat, delta: nat): (rq': seq<RtRq>)
    requires me < |rq|
    ensures |rq'| == |rq|
  {
    if !rq[me].Enabled() then rq
    else Exceeded(rq[me := rq[me].(time := (rq[me].time + delta) % U64)], runtime, period, me)
  }

  function Earned(overrun: nat, runtime: nat): nat {
    (overrun * runtime) % U64
  }

  /** One CPU's turn of do_sched_rt_period_timer: what has been earned is taken off, and may unthrottle. */
  function Refreshed(rq: seq<RtRq>, period: nat, overrun: nat, i: nat): (rq': seq<RtRq>)
    requires i < |rq|
    ensures |rq'| == |rq|
  {
    if rq[i].time == 0 then rq
    else
      BorrowLength(rq, period, i, 0);
      var rq' := if rq[i].throttled then Balanced(rq, period, i) else rq;
      var earned := Earned(overrun, rq'[i].runtime);
      var time := if rq'[i].time < earned then 0 else rq'[i].time - earned;
      rq'[i := rq'[i].(time := time, throttled := rq'[i].throttled && time >= rq'[i].runtime)]
  }

  function RefreshedFrom(rq: seq<RtRq>, period: nat, overrun: nat, online: set<nat>, i: nat): (rq': seq<RtRq>)
    requires i <= |rq|
    ensures |rq'| == |rq|
    decreases |rq| - i
  {
    if i == |rq| then rq
    else RefreshedFrom(if i in online then Refreshed(rq, period, overrun, i) else rq, period, overrun, online, i + 1)
  }

  datatype Op =
    | Account(cpu: nat, delta: nat)
    | Timer(overrun: nat, online: set<nat>, running: set<nat>)
    | Offline(cpu: nat)
    | Online(cpu: nat)

  function Next(rq: seq<RtRq>, runtime: nat, period: nat, op: Op): (rq': seq<RtRq>)
    ensures |rq'| == |rq|
  {
    match op
    case Account(cpu, delta) => if cpu < |rq| then Charged(rq, runtime, period, cpu, delta) else rq
    case Timer(overrun, online, _) => RefreshedFrom(rq, period, overrun, online, 0)
    case Offline(cpu) => if cpu < |rq| then Disabled(rq, runtime, cpu) else rq
    case Online(cpu) =>
      if cpu < |rq| && (!rq[cpu].Enabled() || rq[cpu].runtime == runtime)
      then rq[cpu := RtRq(runtime, 0, false)] else rq
  }

  function RunAll(rq: seq<RtRq>, runtime: nat, period: nat, ops: seq<Op>): seq<RtRq>
    decreases |ops|
  {
    if ops == [] then rq else RunAll(Next(rq, runtime, period, ops[0]), runtime, period, ops[1..])
  }

  lemma {:induction false} BalancedKeepsBooks(rq: seq<RtRq>, runtime: nat, period: nat, me: nat)
    requires Conserved(rq, runtime, period) && me < |rq|
    ensures Conserved(Balanced(rq, period, me), runtime, period)
    ensures rq[me].time > rq[me].runtime ==> rq[me].Enabled()
  {
    if rq[me].time > rq[me].runtime {
      ConservedBounds(rq, runtime, period);
      BorrowConserves(rq, period, me, 0);
    }
  }

  lemma {:induction false} SettingKeepsBooks(rq: seq<RtRq>, runtime: nat, period: nat, i: nat, q: RtRq)
    requires Conserved(rq, runtime, period) && i < |rq| && q.runtime == rq[i].runtime && q.time < U64
    ensures Conserved(rq[i := q], runtime, period)
  {
    SumUpdate(rq, i, q);
  }

  lemma {:induction false} ExceededKeepsBooks(rq: seq<RtRq>, runtime: nat, period: nat, me: nat)
    requires Conserved(rq, runtime, period) && me < |rq|
    ensures Conserved(Exceeded(rq, runtime, period, me), runtime, period)
  {
    BalancedKeepsBooks(rq, runtime, period, me);
    BorrowLength(rq, period, me, 0);
    var rq' := Balanced(rq, period, me);
    SettingKeepsBooks(rq', runtime, period, me, rq'[me].(throttled := true));
    SettingKeepsBooks(rq', runtime, period, me, rq'[me].(time := 0));
  }

  lemma {:induction false} RefreshedKeepsBooks(rq: seq<RtRq>, runtime: nat, period: nat, overrun: nat, i: nat)
    requires Conserved(rq, runtime, period) && i < |rq|
    ensures Conserved(Refreshed(rq, period, overrun, i), runtime, period)
  {
    BalancedKeepsBooks(rq, runtime, period, i);
    BorrowLength(rq, period, i, 0);
    var rq', q := if rq[i].throttled then Balanced(rq, period, i) else rq, Refreshed(rq, period, overrun, i)[i];
    SettingKeepsBooks(rq', runtime, period, i, q);
  }

  lemma {:induction false} RefreshedFromKeepsBooks(rq: seq<RtRq>, runtime: nat, period: nat, overrun: nat,
                                                   online: set<nat>, i: nat)
    requires Conserved(rq, runtime, period) && i <= |rq|
    ensures Conserved(RefreshedFrom(rq, period, overrun, online, i), runtime, period)
    decreases |rq| - i
  {
    if i < |rq| {
      RefreshedKeepsBooks(rq, runtime, period, overrun, i);
      var rq' := if i in online then Refreshed(rq, period, overrun, i) else rq;
      RefreshedFromKeepsBooks(rq', runtime, period, overrun, online, i + 1);
    }
  }

  lemma {:induction false} NextKeepsBooks(rq: seq<RtRq>, runtime: nat, period: nat, op: Op)
    requires Conserved(rq, runtime, period)
    ensures Conserved(Next(rq, runtime, period, op), runtime, period)
  {
    match op
    case Account(cpu, delta) =>
      if cpu < |rq| && rq[cpu].Enabled() {
        var q := rq[cpu].(time := (rq[cpu].time + delta) % U64);
        SettingKeepsBooks(rq, runtime, period, cpu, q);
        ExceededKeepsBooks(rq[cpu := q], runtime, period, cpu);
      }
    case Timer(overrun, online, _) => RefreshedFromKeepsBooks(rq, runtime, period, overrun, online, 0);
    case Offline(cpu) => if cpu < |rq| { DisableKeepsBooks(rq, runtime, period, cpu); }
    case Online(cpu) => if cpu < |rq| { ResetKeepsBooks(rq, runtime, period, cpu); }
  }

  /** In every run the enabled queues together hold exactly their number times the configured runtime. */
  lemma {:induction false} RunConserves(rq: seq<RtRq>, runtime: nat, period: nat, ops: seq<Op>)
    requires Conserved(rq, runtime, period)
    ensures var rq' := RunAll(rq, runtime, period, ops);
            Conserved(rq', runtime, period) && Sum(rq') == NrEnabled(rq') * runtime
    decreases |ops|
  {
    if ops == [] {
      SharesIsProduct(NrEnabled(rq), runtime);
    } else {
      NextKeepsBooks(rq, runtime, period, ops[0]);
      RunConserves(Next(rq, runtime, period, ops[0]), runtime, period, ops[1..]);
    }
  }

  // ----- Throttling -----

  /** What sched_rt_runtime_exceeded leaves of a limited queue that was not throttled. */
  ghost predicate Judged(runtime: nat, before: RtRq, after: RtRq) {
    && (after.throttled <==> runtime != 0 && after.time > after.runtime)
    && after.time == (if runtime == 0 && before.time > after.runtime then 0 else before.time)
    && before.runtime <= after.runtime && (before.time <= before.runtime ==> after == before)
  }

  ghost predicate OthersSameTime(rq: seq<RtRq>, rq': seq<RtRq>, me: nat) {
    |rq'| == |rq| && forall j :: 0 <= j < |rq| && j != me ==> SameTime(rq[j], rq'[j])
  }

  /** A queue is throttled exactly if it has run longer than it holds after borrowing; nobody else's time changes. */
  lemma {:induction false} ExceededMeans(rq: seq<RtRq>, runtime: nat, period: nat, me: nat)
    requires Conserved(rq, runtime, period) && me < |rq|
    ensures var rq' := Exceeded(rq, runtime, period, me);
            && OthersSameTime(rq, rq', me)
            && (if rq[me].throttled || rq[me].runtime >= period then rq' == rq else Judged(runtime, rq[me], rq'[me]))
  {
    forall j | 0 <= j < |rq| && j != me ensures SameTime(rq[j], Exceeded(rq, runtime, period, me)[j]) {
      BorrowKeepsTimes(rq, period, me, 0, j);
    }
    if rq[me].time > rq[me].runtime {
      ConservedBounds(rq, runtime, period);
      if rq[me].Enabled() { BorrowConserves(rq, period, me, 0); }
    }
  }

  /** A queue that is neither throttled nor free to run all the time has not run longer than it holds. */
  ghost predicate Within(q: RtRq, period: nat) {
    q.Enabled() && !q.throttled && q.runtime < period ==> q.time <= q.runtime
  }

  ghost predicate AllWithin(rq: seq<RtRq>, period: nat) {
    forall i :: 0 <= i < |rq| ==> Within(rq[i], period)
  }

  ghost predicate OthersWithin(rq: seq<RtRq>, period: nat, me: nat) {
    forall i :: 0 <= i < |rq| && i != me ==> Within(rq[i], period)
  }

  lemma {:induction false} BalancedWithin(rq: seq<RtRq>, runtime: nat, period: nat, me: nat)
    requires Conserved(rq, runtime, period) && me < |rq| && OthersWithin(rq, period, me)
    ensures |Balanced(rq, period, me)| == |rq| && OthersWithin(Balanced(rq, period, me), period, me)
  {
    if rq[me].time > rq[me].runtime {
      BalancedKeepsBooks(rq, runtime, period, me);
      ConservedBounds(rq, runtime, period);
      BorrowConserves(rq, period, me, 0);
      var rq' := Borrow(rq, period, me, 0);
      forall k | 0 <= k < |rq| && k != me ensures Within(rq'[k], period) {
        assert LentFairly(rq[k], rq'[k]) && Within(rq[k], period);
      }
    }
  }

  lemma {:induction false} ExceededWithin(rq: seq<RtRq>, runtime: nat, period: nat, me: nat)
    requires Conserved(rq, runtime, period) && me < |rq| && OthersWithin(rq, period, me)
    ensures AllWithin(Exceeded(rq, runtime, period, me), period)
  {
    ExceededMeans(rq, runtime, period, me);
    BalancedWithin(rq, runtime, period, me);
    var rq', b := Exceeded(rq, runtime, period, me), Balanced(rq, period, me);
    forall k | 0 <= k < |rq| && k != me ensures Within(rq'[k], period) {
      assert Within(b[k], period) && Within(rq[k], period);
    }
  }

  // ----- The period timer -----

  /** One period's turn of a queue that held r: its time is worked off, and it may run again once it is below r. */
  ghost predicate WorkedOff(before: RtRq, after: RtRq, overrun: nat, r: nat) {
    && after.time == before.time - Min(before.time, (overrun * r) % U64)
    && (after.throttled <==> before.throttled && (before.time == 0 || after.time >= r))
  }

  lemma {:induction false} RefreshedMeans(rq: seq<RtRq>, runtime: nat, period: nat, overrun: nat, i: nat)
    requires Conserved(rq, runtime, period) && i < |rq|
    ensures var rq' := Refreshed(rq, period, overrun, i);
            && OthersSameTime(rq, rq', i) && WorkedOff(rq[i], rq'[i], overrun, rq'[i].runtime)
            && (rq[i].runtime <= period ==> rq[i].runtime <= rq'[i].runtime <= period)
            && (!rq[i].throttled || rq[i].time <= rq[i].runtime ==> rq' == rq[i := rq'[i]])
  {
    BalancedKeepsTimes(rq, runtime, period, i);
    var b := if rq[i].throttled then Balanced(rq, period, i) else rq;
    var rq' := Refreshed(rq, period, overrun, i);
    if rq[i].time != 0 {
      assert rq' == b[i := rq'[i]] && rq'[i].runtime == b[i].runtime && SameTime(rq[i], b[i]);
      assert Earned(overrun, b[i].runtime) == (overrun * b[i].runtime) % U64;
    }
  }

  lemma {:induction false} BalancedKeepsTimes(rq: seq<RtRq>, runtime: nat, period: nat, me: nat)
    requires Conserved(rq, runtime, period) && me < |rq|
    ensures var rq' := Balanced(rq, period, me);
            && |rq'| == |rq| && (forall j :: 0 <= j < |rq| ==> SameTime(rq[j], rq'[j]))
            && (rq[me].runtime <= period ==> rq[me].runtime <= rq'[me].runtime <= period)
            && (rq[me].time <= rq[me].runtime ==> rq' == rq)
            && (rq'[me].Enabled() <==> rq[me].Enabled())
  {
    if rq[me].time > rq[me].runtime {
      assert rq[me].Enabled() by { BalancedKeepsBooks(rq, runtime, period, me); }
      assert period < RUNTIME_INF && Sum(rq) < RUNTIME_INF by { ConservedBounds(rq, runtime, period); }
      BorrowKeepsAllTimes(rq, period, me);
    }
  }

  lemma {:induction false} BorrowKeepsAllTimes(rq: seq<RtRq>, period: nat, me: nat)
    requires me < |rq| && rq[me].Enabled() && Sum(rq) < RUNTIME_INF && period < RUNTIME_INF
    ensures var rq' := Borrow(rq, period, me, 0);
            && |rq'| == |rq| && (forall j :: 0 <= j < |rq| ==> SameTime(rq[j], rq'[j]))
            && (rq[me].runtime <= period ==> rq[me].runtime <= rq'[me].runtime <= period) && rq'[me].Enabled()
  {
    BorrowConserves(rq, period, me, 0);
    var rq' := Borrow(rq, period, me, 0);
    forall j | 0 <= j < |rq| ensures SameTime(rq[j], rq'[j]) {
      BorrowKeepsTimes(rq, period, me, 0, j);
    }
  }

  lemma {:induction false} RefreshedWithin(rq: seq<RtRq>, runtime: nat, period: nat, overrun: nat, i: nat)
    requires Conserved(rq, runtime, period) && i < |rq| && AllWithin(rq, period)
    ensures AllWithin(Refreshed(rq, period, overrun, i), period)
  {
    RefreshedMeans(rq, runtime, period, overrun, i);
    BalancedWithin(rq, runtime, period, i);
    var rq', b := Refreshed(rq, period, overrun, i), Balanced(rq, period, i);
    forall k | 0 <= k < |rq| && k != i ensures Within(rq'[k], period) {
      assert Within(b[k], period) && Within(rq[k], period);
    }
    assert Within(rq[i], period);
  }

  lemma {:induction false} RefreshedFromWithin(rq: seq<RtRq>, runtime: nat, period: nat, overrun: nat,
                                               online: set<nat>, i: nat)
    requires Conserved(rq, runtime, period) && i <= |rq| && AllWithin(rq, period)
    ensures AllWithin(RefreshedFrom(rq, period, overrun, online, i), period)
    decreases |rq| - i
  {
    if i < |rq| {
      RefreshedKeepsBooks(rq, runtime, period, overrun, i);
      RefreshedWithin(rq, runtime, period, overrun, i);
      var rq' := if i in online then Refreshed(rq, period, overrun, i) else rq;
      RefreshedFromWithin(rq', runtime, period, overrun, online, i + 1);
    }
  }

  /** What queue j held at its turn: the earlier turns may have borrowed from it, and its own from others. */
  ghost predicate TurnOf(before: RtRq, after: RtRq, overrun: nat) {
    exists r: nat :: WorkedOff(before, after, overrun, r)
  }

  /** Over all CPUs: an offline queue keeps its time and flag, an online one has had its turn. */
  lemma {:induction false} RefreshedFromMeans(rq: seq<RtRq>, runtime: nat, period: nat, overrun: nat,
                                              online: set<nat>, i: nat, j: nat)
    requires Conserved(rq, runtime, period) && i <= |rq| && j < |rq|
    ensures var q := RefreshedFrom(rq, period, overrun, online, i)[j];
            if i <= j && j in online then TurnOf(rq[j], q, overrun) else SameTime(rq[j], q)
    decreases |rq| - i
  {
    if i < |rq| {
      RefreshedKeepsBooks(rq, runtime, period, overrun, i);
      RefreshedMeans(rq, runtime, period, overrun, i);
      var rq' := if i in online then Refreshed(rq, period, overrun, i) else rq;
      RefreshedFromMeans(rq', runtime, period, overrun, online, i + 1, j);
      TurnsAddUp(rq[j], rq'[j], RefreshedFrom(rq', period, overrun, online, i + 1)[j], overrun);
    }
  }

  /** A queue that keeps its time and flag before or after its turn has had its turn. */
  lemma {:induction false} TurnsAddUp(q0: RtRq, q1: RtRq, q2: RtRq, overrun: nat)
    ensures SameTime(q0, q1) && TurnOf(q1, q2, overrun) ==> TurnOf(q0, q2, overrun)
    ensures WorkedOff(q0, q1, overrun, q1.runtime) && SameTime(q1, q2) ==> TurnOf(q0, q2, overrun)
  {
    if SameTime(q0, q1) && TurnOf(q1, q2, overrun) {
      var r: nat :| WorkedOff(q1, q2, overrun, r);
      assert WorkedOff(q0, q2, overrun, r);
    }
    if WorkedOff(q0, q1, overrun, q1.runtime) && SameTime(q1, q2) {
      assert WorkedOff(q0, q2, overrun, q1.runtime);
    }
  }

  // ----- Runs -----

  /** A CPU going offline takes back only what the others can spare. */
  ghost predicate Spared(rq: seq<RtRq>, runtime: nat, period: nat, op: Op) {
    op.Offline? && op.cpu < |rq| && rq[op.cpu].runtime < runtime ==>
      forall k :: 0 <= k < |rq| ==> CanSpare(rq, runtime, period, op.cpu, k)
  }

  lemma {:induction false} NextWithin(rq: seq<RtRq>, runtime: nat, period: nat, op: Op)
    requires Conserved(rq, runtime, period) && AllWithin(rq, period)
    ensures AllWithin(Next(rq, runtime, period, op), period) <==> Spared(rq, runtime, period, op)
  {
    match op
    case Account(cpu, delta) =>
      if cpu < |rq| && rq[cpu].Enabled() {
        var q := rq[cpu].(time := (rq[cpu].time + delta) % U64);
        SettingKeepsBooks(rq, runtime, period, cpu, q);
        ExceededWithin(rq[cpu := q], runtime, period, cpu);
      }
    case Timer(overrun, online, _) => RefreshedFromWithin(rq, runtime, period, overrun, online, 0);
    case Offline(cpu) =>
      if cpu < |rq| {
        ConservedBounds(rq, runtime, period);
        if rq[cpu].runtime < runtime {
          TakingBackWithinIff(rq, runtime, period, cpu);
        } else {
          DisabledWithin(rq, runtime, period, cpu);
        }
      }
    case Online(cpu) =>
  }

  /** What queue k holds once `me` is disabled is at least what it held, if nothing is taken back. */
  lemma {:induction false} DisabledWithin(rq: seq<RtRq>, runtime: nat, period: nat, me: nat)
    requires Conserved(rq, runtime, period) && me < |rq| && AllWithin(rq, period)
    requires !rq[me].Enabled() || rq[me].runtime >= runtime
    ensures AllWithin(Disabled(rq, runtime, me), period)
  {
    var want, rq' := runtime - rq[me].runtime, Disabled(rq, runtime, me);
    if rq[me].Enabled() && want != 0 {
      NothingLeaks(rq, runtime, period, me);
      SurplusOnlyAdds(rq, me, want, 0);
    }
    forall k | 0 <= k < |rq| ensures Within(rq'[k], period) { assert Within(rq[k], period); }
  }

  lemma {:induction false} SurplusOnlyAdds(rq: seq<RtRq>, me: nat, want: int, i: nat)
    requires me < |rq| && i <= |rq| && want < 0
    ensures forall k :: 0 <= k < |rq| ==> Reclaim(rq, me, want, i).0[k].runtime >= rq[k].runtime
    decreases |rq| - i
  {
    if i < |rq| && (i == me || !rq[i].Enabled()) { SurplusOnlyAdds(rq, me, want, i + 1); }
  }

  /** Queue k can spare what it is asked for: it is throttled anyway, or is left with its time or a whole period. */
  predicate CanSpare(rq: seq<RtRq>, runtime: nat, period: nat, me: nat, k: nat)
    requires k < |rq| && me < |rq|
  {
    var want := runtime - rq[me].runtime;
    k == me || !rq[k].Enabled() || rq[k].throttled ||
    Left(rq, me, want, 0, k) >= period || rq[k].time <= Left(rq, me, want, 0, k)
  }

  /** Where something is taken back, that is so exactly if all others can spare what they are asked for. */
  lemma {:induction false} TakingBackWithinIff(rq: seq<RtRq>, runtime: nat, period: nat, me: nat)
    requires Conserved(rq, runtime, period) && me < |rq| && rq[me].runtime < runtime
    ensures AllWithin(Disabled(rq, runtime, me), period) <==>
              forall k :: 0 <= k < |rq| ==> CanSpare(rq, runtime, period, me, k)
  {
    var want, rq' := runtime - rq[me].runtime, Disabled(rq, runtime, me);
    ConservedBounds(rq, runtime, period);
    NothingLeaks(rq, runtime, period, me);
    forall k | 0 <= k < |rq| ensures Within(rq'[k], period) <==> CanSpare(rq, runtime, period, me, k) {
      if k != me && rq[k].Enabled() { ReclaimAmounts(rq, me, want, 0, k); }
    }
  }

  ghost predicate AllSpared(rq: seq<RtRq>, runtime: nat, period: nat, ops: seq<Op>)
    decreases |ops|
  {
    ops != [] ==>
      Spared(rq, runtime, period, ops[0]) && AllSpared(Next(rq, runtime, period, ops[0]), runtime, period, ops[1..])
  }

  ghost predicate AlwaysWithin(rq: seq<RtRq>, runtime: nat, period: nat, ops: seq<Op>)
    decreases |ops|
  {
    AllWithin(rq, period) && (ops != [] ==> AlwaysWithin(Next(rq, runtime, period, ops[0]), runtime, period, ops[1..]))
  }

  /**
   At every point of a run a queue that has run longer than it holds is throttled or holds a whole period, exactly
   if no CPU going offline takes back more than the others can spare.
   */
  lemma {:induction false} RunWithinIff(rq: seq<RtRq>, runtime: nat, period: nat, ops: seq<Op>)
    requires Conserved(rq, runtime, period) && AllWithin(rq, period)
    ensures AlwaysWithin(rq, runtime, period, ops) <==> AllSpared(rq, runtime, period, ops)
    decreases |ops|
  {
    if ops != [] {
      NextKeepsBooks(rq, runtime, period, ops[0]);
      NextWithin(rq, runtime, period, ops[0]);
      if Spared(rq, runtime, period, ops[0]) {
        RunWithinIff(Next(rq, runtime, period, ops[0]), runtime, period, ops[1..]);
      }
    }
  }

  /** Where one does, a borrower is left over its runtime and not throttled. */
  lemma {:induction false} TakingBackLeavesOver()
    ensures var rq := [RtRq(5, 0, false), RtRq(15, 15, false)];
            && Next([RtRq(10, 0, false), RtRq(10, 0, false)], 10, 100, Account(1, 15)) == rq && AllWithin(rq, 100)
            && Next(rq, 10, 100, Offline(0)) == [RtRq(RUNTIME_INF, 0, false), RtRq(10, 15, false)]
            && !AllWithin(Next(rq, 10, 100, Offline(0)), 100)
  {
    BorrowsFive();
    var rq := [RtRq(5, 0, false), RtRq(15, 15, false)];
    assert rq[1 := RtRq(10, 15, false)] == [RtRq(5, 0, false), RtRq(10, 15, false)];
    assert Reclaim(rq, 0, 5, 1) == ([RtRq(5, 0, false), RtRq(10, 15, false)], 0);
    assert Reclaim(rq, 0, 5, 0) == ([RtRq(5, 0, false), RtRq(10, 15, false)], 0);
    var r := Next(rq, 10, 100, Offline(0));
    assert r == [RtRq(RUNTIME_INF, 0, false), RtRq(10, 15, false)];
    assert !Within(r[1], 100);
  }

  // ----- When the period timer may stop -----

  ghost predicate TimesKept(rq: seq<RtRq>, rq': seq<RtRq>, i: nat) {
    |rq'| == |rq| && forall j :: i <= j < |rq| ==> SameTime(rq[j], rq'[j])
  }

  ghost predicate QuietAt(rq: seq<RtRq>, online: set<nat>, running: set<nat>, j: nat)
    requires j < |rq|
  {
    j in online ==> rq[j].time == 0 && j !in running
  }

  ghost predicate Quiet(rq: seq<RtRq>, online: set<nat>, running: set<nat>) {
    forall j :: 0 <= j < |rq| ==> QuietAt(rq, online, running, j)
  }

  ghost predicate NotThrottledAt(rq0: seq<RtRq>, rq: seq<RtRq>, online: set<nat>, running: set<nat>, j: nat)
    requires j < |rq| == |rq0|
  {
    j in online && (rq0[j].time != 0 || j in running) ==> !rq[j].throttled
  }

  ghost predicate NoneThrottled(rq0: seq<RtRq>, rq: seq<RtRq>, online: set<nat>, running: set<nat>)
    requires |rq| == |rq0|
  {
    forall j :: 0 <= j < |rq| ==> NotThrottledAt(rq0, rq, online, running, j)
  }

  /** What the flags of the loop say after the first i CPUs. */
  ghost predicate SoFar(rq0: seq<RtRq>, rq: seq<RtRq>, online: set<nat>, running: set<nat>, i: nat, idle: bool,
                        throttled: bool) {
    && TimesKept(rq0, rq, i) && i <= |rq|
    && (idle <==> forall j :: 0 <= j < i ==> QuietAt(rq, online, running, j))
    && (!throttled <==> forall j :: 0 <= j < i ==> NotThrottledAt(rq0, rq, online, running, j))
  }

  lemma {:induction false} OneTurnFurther(rq0: seq<RtRq>, rq: seq<RtRq>, rq': seq<RtRq>, online: set<nat>,
                                          running: set<nat>, i: nat, idle: bool, throttled: bool)
    requires SoFar(rq0, rq, online, running, i, idle, throttled) && i < |rq| == |rq'|
    requires forall j :: 0 <= j < |rq| && j != i ==> SameTime(rq[j], rq'[j])
    ensures SoFar(rq0, rq', online, running, i + 1, idle && QuietAt(rq', online, running, i),
                  throttled || !NotThrottledAt(rq0, rq', online, running, i))
  {
    forall j | 0 <= j < i
      ensures QuietAt(rq', online, running, j) == QuietAt(rq, online, running, j)
      ensures NotThrottledAt(rq0, rq', online, running, j) == NotThrottledAt(rq0, rq, online, running, j)
    {
      assert SameTime(rq[j], rq'[j]);
    }
    forall j | i + 1 <= j < |rq| ensures SameTime(rq0[j], rq'[j]) { assert SameTime(rq[j], rq'[j]); }
  }

  lemma {:induction false} RefreshedElsewhere(rq: seq<RtRq>, period: nat, overrun: nat, i: nat, j: nat)
    requires i < |rq| && j < |rq| && i != j
    ensures SameTime(rq[j], Refreshed(rq, period, overrun, i)[j])
  {
    BorrowKeepsTimes(rq, period, i, 0, j);
  }

  /**
   Two CPUs with 10 in 100 each. CPU 1 runs for 15 and borrows 5 from CPU 0; the books are balanced. Enabling
   CPU 0, which is enabled, gives it back the 5 that CPU 1 still holds.
   */
  lemma {:induction false} ReenableLeaks()
    ensures var rq := Next([RtRq(10, 0, false), RtRq(10, 0, false)], 10, 100, Account(1, 15));
            && rq == [RtRq(5, 0, false), RtRq(15, 15, false)]
            && Conserved([RtRq(10, 0, false), RtRq(10, 0, false)], 10, 100) && Conserved(rq, 10, 100)
            && rq[0].Enabled() && !Conserved(rq[0 := RtRq(10, 0, false)], 10, 100)
  {
    var start, q := [RtRq(10, 0, false), RtRq(10, 0, false)], RtRq(10, 0, false);
    assert seq(2, _ => q) == start;
    FreshBooks(2, 10);
    NextKeepsBooks(start, 10, 100, Account(1, 15));
    BorrowsFive();
    ResetKeepsBooks([RtRq(5, 0, false), RtRq(15, 15, false)], 10, 100, 0);
  }

  lemma {:induction false} BorrowsFive()
    ensures Charged([RtRq(10, 0, false), RtRq(10, 0, false)], 10, 100, 1, 15) ==
            [RtRq(5, 0, false), RtRq(15, 15, false)]
  {
    var rq := [RtRq(10, 0, false), RtRq(10, 15, false)];
    assert [RtRq(10, 0, false), RtRq(10, 0, false)][1 := RtRq(10, 15, false)] == rq;
    var r := BorrowOne(rq, 100, 1, 0);
    assert r == [RtRq(5, 0, false), RtRq(15, 15, false)];
    assert Borrow(r, 100, 1, 2) == r;
    assert Borrow(r, 100, 1, 1) == r;
    assert Borrow(rq, 100, 1, 0) == r;
  }

  class RootDomain {
    const runtime: nat     // def_rt_bandwidth.rt_runtime
    const period: nat      // def_rt_bandwidth.rt_period
    var rq: seq<RtRq>

    ghost predicate Valid()
      reads this
    {
      Conserved(rq, runtime, period)
    }

    constructor (cpus: nat, runtime: nat, period: nat)
      requires cpus > 0 && runtime <= period && cpus * period < 0x8000_0000_0000_0000
      ensures Valid() && this.runtime == runtime && this.period == period
      ensures rq == seq(cpus, _ => RtRq(runtime, 0, false))
    {
      this.runtime, this.period := runtime, period;
      rq := seq(cpus, _ => RtRq(runtime, 0, false));
      new;
      MulAtMost(1, cpus, period, period);
      FreshBooks(cpus, runtime);
    }

    /** Runs with the queue's own lock dropped and the domain's lock held. */
    method DoBalanceRuntime(me: nat)
      requires Valid() && me < |rq| && rq[me].Enabled()
      modifies this
      ensures Valid() && rq == Borrow(old(rq), period, me, 0)
      ensures old(rq)[me].runtime < period ==> |rq| == |old(rq)| && BorrowedInTurn(old(rq), rq, period, me, 0)
    {
      ghost var rq0, goal := rq, Borrow(rq, period, me, 0);
      var weight := |rq|;
      var i := 0;
      while i < |rq|
        invariant i <= |rq| == weight == |rq0|
        invariant Borrow(rq, period, me, i) == goal
      {
        if i != me && rq[i].runtime != RUNTIME_INF {
          if rq[i].runtime > rq[i].time {
            BorrowFrom(me, i, weight);
            if rq[me].runtime == period { break; }
          }
        }
        i := i + 1;
      }
      assert Valid() by {
        ConservedBounds(rq0, runtime, period);
        BorrowConserves(rq0, period, me, 0);
      }
      if rq0[me].runtime < period { BorrowTakesParts(rq0, period, me, 0); }
    }

    /** The body of the loop for a queue with time to spare. */
    method BorrowFrom(me: nat, i: nat, weight: nat)
      requires me < |rq| && i < |rq| == weight && i != me && rq[i].runtime > rq[i].time
      modifies this
      ensures rq == BorrowOne(old(rq), period, me, i)
    {
      var diff := rq[i].runtime - rq[i].time;
      DivShrinks(diff, weight);
      diff := diff / weight;
      if rq[me].runtime + diff > period {
        diff := period - rq[me].runtime;
      }
      assert diff == Spare(rq, period, me, i);
      rq := rq[i := rq[i].(runtime := rq[i].runtime - diff)];
      rq := rq[me := rq[me].(runtime := rq[me].runtime + diff)];
    }

    /** balance_runtime: borrows when the queue has run longer than it holds. */
    method BalanceRuntime(me: nat)
      requires Valid() && me < |rq|
      modifies this
      ensures Valid() && rq == Balanced(old(rq), period, me) && |rq| == |old(rq)|
    {
      BorrowLength(rq, period, me, 0);
      if rq[me].time > rq[me].runtime { DoBalanceRuntime(me); }
    }

    /** The greedy loop of __disable_runtime. */
    method ReclaimAll(me: nat, first: int) returns (want: int)
      requires me < |rq| && first != 0
      modifies this
      ensures (rq, want) == Reclaim(old(rq), me, first, 0)
    {
      want := first;
      ghost var goal, n := Reclaim(rq, me, want, 0), |rq|;
      var i := 0;
      while i < |rq|
        invariant i <= |rq| == n && want != 0
        invariant Reclaim(rq, me, want, i) == goal
      {
        if i != me && rq[i].runtime != RUNTIME_INF {
          if want > 0 {
            var diff := if rq[i].runtime < want then rq[i].runtime else want;
            rq := rq[i := rq[i].(runtime := rq[i].runtime - diff)];
            want := want - diff;
          } else {
            rq := rq[i := rq[i].(runtime := rq[i].runtime - want)];
            want := want - want;
          }
          if want == 0 { break; }
        }
        i := i + 1;
      }
    }

    /** CPU offline. The claim that nothing is left wanting is an assertion here, not a crash. */
    method DisableRuntime(me: nat)
      requires Valid() && me < |rq|
      modifies this
      ensures Valid() && rq == Disabled(old(rq), runtime, me)
    {
      ghost var rq0 := rq;
      DisableKeepsBooks(rq, runtime, period, me);
      if rq[me].runtime != RUNTIME_INF && rq[me].runtime != runtime {
        var want := ReclaimAll(me, runtime - rq[me].runtime);
        assert want == 0 by { NothingLeaks(rq0, runtime, period, me); }  // BUG_ON(want)
      }
      rq := rq[me := rq[me].(runtime := RUNTIME_INF, throttled := false)];
    }

    /** CPU online: the books stay balanced exactly if the queue was disabled or held its own share. */
    method EnableRuntime(me: nat)
      requires Valid() && me < |rq|
      modifies this
      ensures rq == old(rq)[me := RtRq(runtime, 0, false)]
      ensures Valid() <==> !old(rq)[me].Enabled() || old(rq)[me].runtime == runtime
    {
      ResetKeepsBooks(rq, runtime, period, me);
      rq := rq[me := RtRq(runtime, 0, false)];
    }

    method SchedRtRuntimeExceeded(me: nat) returns (exceeded: bool)
      requires Valid() && me < |rq|
      modifies this
      ensures Valid() && rq == Exceeded(old(rq), runtime, period, me)
      ensures OthersSameTime(old(rq), rq, me) && (exceeded <==> rq[me].throttled)
      ensures var q := old(rq)[me];
              q.Enabled() && !q.throttled && q.runtime < period ==>
                && (rq[me].throttled <==> runtime != 0 && rq[me].time > rq[me].runtime)
                && rq[me].time == if runtime == 0 && q.time > rq[me].runtime then 0 else q.time
      ensures old(rq)[me].throttled || old(rq)[me].runtime >= period ==> rq == old(rq)
    {
      ExceededKeepsBooks(rq, runtime, period, me);
      ExceededMeans(rq, runtime, period, me);
      if rq[me].throttled { return true; }
      if rq[me].runtime >= period { return false; }
      BalanceRuntime(me);
      if rq[me].runtime == RUNTIME_INF { return false; }
      if rq[me].time > rq[me].runtime {
        if runtime != 0 {
          rq := rq[me := rq[me].(throttled := true)];
        } else {
          rq := rq[me := rq[me].(time := 0)];
        }
        if rq[me].throttled { return true; }
      }
      return false;
    }

    method UpdateCurrRt(me: nat, delta: nat)
      requires Valid() && me < |rq|
      modifies this
      ensures Valid() && rq == Charged(old(rq), runtime, period, me, delta)
      ensures OthersSameTime(old(rq), rq, me) && (!old(rq)[me].Enabled() ==> rq == old(rq))
      ensures var q, time := old(rq)[me], (old(rq)[me].time + delta) % U64;
              && (q.Enabled() && !q.throttled && q.runtime < period ==>
                    && (rq[me].throttled <==> runtime != 0 && rq[me].time > rq[me].runtime)
                    && rq[me].time == if runtime == 0 && time > rq[me].runtime then 0 else time)
              && (q.Enabled() && (q.throttled || q.runtime >= period) ==> rq == old(rq)[me := q.(time := time)])
    {
      if rq[me].runtime != RUNTIME_INF {
        SettingKeepsBooks(rq, runtime, period, me, rq[me].(time := (rq[me].time + delta) % U64));
        rq := rq[me := rq[me].(time := (rq[me].time + delta) % U64)];
        var exceeded := SchedRtRuntimeExceeded(me);
      }
    }

    /**
     * The period timer. It may stop if no online CPU has time to work off or RT tasks; with the limit switched
     * off also if none of those is throttled.
     */
    method DoSchedRtPeriodTimer(overrun: nat, online: set<nat>, running: set<nat>, limited: bool) returns (stop: bool)
      requires Valid()
      modifies this
      ensures Valid() && rq == RefreshedFrom(old(rq), period, overrun, online, 0)
      ensures forall j :: 0 <= j < |rq| ==>
                if j in online then TurnOf(old(rq)[j], rq[j], overrun) else SameTime(old(rq)[j], rq[j])
      ensures stop <==> Quiet(rq, online, running) || (!limited && NoneThrottled(old(rq), rq, online, running))
    {
      ghost var rq0, goal, n := rq, RefreshedFrom(rq, period, overrun, online, 0), |rq|;
      var idle, throttled := true, false;
      for i := 0 to |rq|
        invariant |rq| == n && Valid() && RefreshedFrom(rq, period, overrun, online, i) == goal
        invariant SoFar(rq0, rq, online, running, i, idle, throttled)
      {
        if i in online {
          idle, throttled := RefreshTurn(overrun, i, rq0, online, running, idle, throttled);
        }
      }
      forall j | 0 <= j < |rq|
        ensures if j in online then TurnOf(old(rq)[j], rq[j], overrun) else SameTime(old(rq)[j], rq[j])
      {
        RefreshedFromMeans(rq0, runtime, period, overrun, online, 0, j);
      }
      return (!throttled && !limited) || idle;
    }

    /** The body of the loop for an online CPU. */
    method RefreshTurn(overrun: nat, i: nat, ghost rq0: seq<RtRq>, ghost online: set<nat>, running: set<nat>,
                       idle: bool, throttled: bool)
      returns (idle': bool, throttled': bool)
      requires Valid() && i < |rq| && i in online && SoFar(rq0, rq, online, running, i, idle, throttled)
      modifies this
      ensures Valid() && rq == Refreshed(old(rq), period, overrun, i)
      ensures SoFar(rq0, rq, online, running, i + 1, idle', throttled')
    {
      idle', throttled' := idle, throttled;
      var skip := rq[i].time == 0 && i !in running;
      RefreshOne(overrun, i);
      if !skip {
        if rq[i].time != 0 || i in running { idle' := false; }
        if rq[i].throttled { throttled' := true; }
      }
      forall j | 0 <= j < |rq| && j != i ensures SameTime(old(rq)[j], rq[j]) {
        RefreshedElsewhere(old(rq), period, overrun, i, j);
      }
      OneTurnFurther(rq0, old(rq), rq, online, running, i, idle, throttled);
    }

    /** What the queue has earned is taken off its time; it may run again exactly if it is then below its runtime. */
    method RefreshOne(overrun: nat, i: nat)
      requires Valid() && i < |rq|
      modifies this
      ensures Valid() && rq == Refreshed(old(rq), period, overrun, i)
      ensures OthersSameTime(old(rq), rq, i) && WorkedOff(old(rq)[i], rq[i], overrun, rq[i].runtime)
    {
      ghost var rq0 := rq;
      RefreshedMeans(rq, runtime, period, overrun, i);
      RefreshedKeepsBooks(rq, runtime, period, overrun, i);
      if rq[i].time != 0 {
        if rq[i].throttled { BalanceRuntime(i); }
        var earned := Earned(overrun, rq[i].runtime);
        var time := rq[i].time - if rq[i].time < earned then rq[i].time else earned;
        rq := rq[i := rq[i].(time := time)];
        if rq[i].throttled && rq[i].time < rq[i].runtime {
          rq := rq[i := rq[i].(throttled := false)];
        }
        assert rq == Refreshed(rq0, period, overrun, i);
      }
    }

    method Run(ops: seq<Op>)
      requires Valid()
      modifies this
      ensures Valid() && rq == RunAll(old(rq), runtime, period, ops)
    {
      ghost var goal := RunAll(rq, runtime, period, ops);
      for k := 0 to |ops|
        invariant Valid() && RunAll(rq, runtime, period, ops[k..]) == goal
      {
        assert ops[k..][1..] == ops[k + 1..];
        match ops[k] {
          case Account(cpu, delta) => if cpu < |rq| { UpdateCurrRt(cpu, delta); }
          case Timer(overrun, online, running) => var stop := DoSchedRtPeriodTimer(overrun, online, running, true);
          case Offline(cpu) => if cpu < |rq| { DisableRuntime(cpu); }
          case Online(cpu) =>
            if cpu < |rq| && (rq[cpu].runtime == RUNTIME_INF || rq[cpu].runtime == runtime) { EnableRuntime(cpu); }
        }
      }
    }
  }

  lemma {:induction false} FreshBooks(n: nat, runtime: nat)
    requires runtime < RUNTIME_INF
    ensures var rq := seq(n, _ => RtRq(runtime, 0, false));
            NrEnabled(rq) == n && Sum(rq) == Shares(n, runtime)
    decreases n
  {
    var rq := seq(n, _ => RtRq(runtime, 0, false));
    if n > 0 {
      FreshBooks(n - 1, runtime);
      assert rq[..n - 1] == seq(n - 1, _ => RtRq(runtime, 0, false));
    }
  }
}
