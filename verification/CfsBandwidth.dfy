/**
 The runtime ledger of one bandwidth-controlled task group: the global pool, the local pools of its
 per-CPU run queues and the time consumed. The quota is finite and does not change, no CPU is
 hotplugged and a distribution is one step. Nanosecond counts do not overflow 64 signed bits; the
 one place where the code relies on unsigned wrap-around is written out.
 */
module CfsBandwidth {

  const U64: int := 0x1_0000_0000_0000_0000
  const S64_MIN: int := -0x8000_0000_0000_0000
  const MIN_CFS_RQ_RUNTIME: int := 1_000_000

  /** runtime_remaining, runtime_expires, expires_seq and throttled. */
  datatype CfsRq = CfsRq(remaining: int, expires: int, seqno: nat, throttled: bool)

  /** cfs_b->runtime, runtime_expires, expires_seq and idle. */
  datatype Pool = Pool(runtime: nat, expires: int, seqno: nat, idle: bool)

  function Min(a: int, b: int): int { if a < b then a else b }

  /** A non-negative balance past its deadline: extended while its period is still the pool's, else void. */
  function Expired(q: CfsRq, b: Pool, tick: nat, clock: int): CfsRq {
    if clock < q.expires || q.remaining < 0 then q
    else if q.seqno == b.seqno then q.(expires := q.expires + tick)
    else q.(remaining := 0)
  }

  /** As much of the pool as brings the queue a slice ahead, and the pool's deadline if the period is new. */
  function Assigned(q: CfsRq, b: Pool, slice: nat): (r: (CfsRq, Pool))
    requires q.remaining <= 0
    ensures r.0.remaining + r.1.runtime == q.remaining + b.runtime
    ensures r.0.remaining <= slice && (r.0.remaining == slice || r.1.runtime == 0)
  {
    var amount := Min(b.runtime, slice - q.remaining);
    (CfsRq(q.remaining + amount, if q.seqno == b.seqno then q.expires else b.expires, b.seqno, q.throttled),
     b.(runtime := b.runtime - amount, idle := b.idle && b.runtime == 0))
  }

  // ----- Sums over the local pools -----

  function Sum(rq: seq<CfsRq>): int {
    if rq == [] then 0 else Sum(rq[..|rq| - 1]) + rq[|rq| - 1].remaining
  }

  lemma {:induction false} SumUpdate(rq: seq<CfsRq>, i: nat, q: CfsRq)
    requires i < |rq|
    ensures Sum(rq[i := q]) == Sum(rq) - rq[i].remaining + q.remaining
    decreases |rq|
  {
    var k := |rq| - 1;
    if i == k {
      assert rq[i := q][..k] == rq[..k];
    } else {
      SumUpdate(rq[..k], i, q);
      assert rq[i := q][..k] == rq[..k][i := q];
    }
  }

  // ----- Distribution -----

  /** What one throttled queue is given: enough to be 1 ns ahead, as 64-bit unsigned, or all there is. */
  function Gift(remaining: int, left: nat): (g: nat)
    ensures g <= left
  {
    Min((1 - remaining) % U64, left)
  }

  /** A throttled queue with a gift added: unthrottled once it has runtime. */
  function Given(q: CfsRq, gift: nat, expires: int): CfsRq {
    CfsRq(q.remaining + gift, expires, q.seqno, q.throttled && q.remaining + gift <= 0)
  }

  /** The queues of the list in turn, until nothing is left: queues, those still throttled, what is left. */
  function Distribute(rq: seq<CfsRq>, list: seq<nat>, left: nat, expires: int): (r: (seq<CfsRq>, seq<nat>, nat))
    requires forall k :: 0 <= k < |list| ==> list[k] < |rq|
    ensures |r.0| == |rq| && r.2 <= left && forall k :: 0 <= k < |r.1| ==> r.1[k] < |rq|
    decreases |list|
  {
    if list == [] then (rq, [], left)
    else
      var i, gift := list[0], Gift(rq[list[0]].remaining, left);
      var q := Given(rq[i], gift, expires);
      var still := if q.remaining > 0 then [] else [i];
      if left - gift == 0 then (rq[i := q], still + list[1..], 0)
      else
        var r := Distribute(rq[i := q], list[1..], left - gift, expires);
        (r.0, still + r.1, r.2)
  }

  /** Exactly the throttled queues are on the list, each once. */
  ghost predicate Listed(rq: seq<CfsRq>, list: seq<nat>) {
    && (forall k :: 0 <= k < |list| ==> list[k] < |rq| && rq[list[k]].throttled)
    && (forall i: nat :: i < |rq| && rq[i].throttled ==> i in list)
    && (forall j, k :: 0 <= j < k < |list| ==> list[j] != list[k])
  }

  ghost predicate InRange(rq: seq<CfsRq>) {
    forall i :: 0 <= i < |rq| ==> S64_MIN <= rq[i].remaining
  }

  /** Nothing is created or lost; everyone is unthrottled unless the pool runs dry. */
  lemma {:induction false} DistributeConserves(rq: seq<CfsRq>, list: seq<nat>, left: nat, expires: int)
    requires forall k :: 0 <= k < |list| ==> list[k] < |rq|
    requires left > 0 && InRange(rq)
    ensures var (rq', list', left') := Distribute(rq, list, left, expires);
            && Sum(rq') + left' == Sum(rq) + left && InRange(rq')
            && (left' == 0 || list' == [])
            && |list'| <= |list| && (list != [] ==> left' + |list'| < left + |list|)
    decreases |list|
  {
    if list != [] {
      var i, gift := list[0], Gift(rq[list[0]].remaining, left);
      var q := Given(rq[i], gift, expires);
      SumUpdate(rq, i, q);
      GiftSuffices(rq[i].remaining, left);
      if left - gift != 0 { DistributeConserves(rq[i := q], list[1..], left - gift, expires); }
    }
  }

  /** A gift that leaves something in the pool has put the queue ahead. */
  lemma {:induction false} GiftSuffices(remaining: int, left: nat)
    requires S64_MIN <= remaining
    ensures Gift(remaining, left) < left ==> remaining + Gift(remaining, left) > 0
  {
    var g := (1 - remaining) % U64;
    if remaining > 1 { assert g >= 0; }
    else { assert g == 1 - remaining; }
  }

  /** What a queue needs to be 1 ns ahead. */
  function Needed(remaining: int): nat { if remaining > 1 then 0 else 1 - remaining }

  /**
   The gift is what the queue needs, or all there is, exactly when it holds at most 1 ns. One that holds more
   takes the whole pool, because the amount is an unsigned difference.
   */
  lemma {:induction false} GiftIsNeeded(remaining: int, left: nat)
    requires S64_MIN <= remaining < -S64_MIN && left < -S64_MIN
    ensures Gift(remaining, left) == Min(Needed(remaining), left) <==> remaining <= 1 || left == 0
    ensures remaining > 1 ==> Gift(remaining, left) == left
  {
    if remaining > 1 {
      assert (1 - remaining) % U64 == U64 + 1 - remaining;
    } else {
      assert (1 - remaining) % U64 == 1 - remaining;
    }
  }

  lemma {:induction false} DistributeLists(rq: seq<CfsRq>, list: seq<nat>, left: nat, expires: int)
    requires forall k :: 0 <= k < |list| ==> list[k] < |rq| && rq[list[k]].throttled
    requires forall j, k :: 0 <= j < k < |list| ==> list[j] != list[k]
    ensures var (rq', list', left') := Distribute(rq, list, left, expires);
            && (forall k :: 0 <= k < |list'| ==> list'[k] in list && list'[k] < |rq| && rq'[list'[k]].throttled)
            && (forall j, k :: 0 <= j < k < |list'| ==> list'[j] != list'[k])
            && (forall i: nat :: i < |rq| && i !in list ==> rq'[i] == rq[i])
            && (forall i: nat :: i in list && rq'[i].throttled ==> i in list')
    decreases |list|
  {
    if list != [] {
      var i, gift := list[0], Gift(rq[list[0]].remaining, left);
      var q := Given(rq[i], gift, expires);
      var rest := list[1..];
      assert i !in rest;
      assert forall x: nat :: x in list <==> x == i || x in rest;
      if left - gift != 0 { DistributeLists(rq[i := q], rest, left - gift, expires); }
    }
  }

  lemma {:induction false} DistributeKeepsList(rq: seq<CfsRq>, list: seq<nat>, left: nat, expires: int)
    requires Listed(rq, list)
    ensures var r := Distribute(rq, list, left, expires); Listed(r.0, r.1)
  {
    DistributeLists(rq, list, left, expires);
  }

  /** The result of the rest of the list, after the queues already found still throttled. */
  function Onwards(still: seq<nat>, r: (seq<CfsRq>, seq<nat>, nat)): (seq<CfsRq>, seq<nat>, nat) {
    (r.0, still + r.1, r.2)
  }

  lemma {:induction false} DistributeStep(still: seq<nat>, rq: seq<CfsRq>, todo: seq<nat>, left: nat, expires: int)
    requires todo != [] && forall k :: 0 <= k < |todo| ==> todo[k] < |rq|
    ensures var i, gift := todo[0], Gift(rq[todo[0]].remaining, left);
            var q := Given(rq[i], gift, expires);
            var still' := if q.remaining > 0 then still else still + [i];
            Onwards(still, Distribute(rq, todo, left, expires)) ==
              if left - gift == 0 then (rq[i := q], still' + todo[1..], 0)
              else Onwards(still', Distribute(rq[i := q], todo[1..], left - gift, expires))
  {
    var i, gift := todo[0], Gift(rq[todo[0]].remaining, left);
    var q := Given(rq[i], gift, expires);
    var r := Distribute(rq[i := q], todo[1..], left - gift, expires);
    assert still + ([i] + r.1) == (still + [i]) + r.1;
    assert still + ([i] + todo[1..]) == (still + [i]) + todo[1..];
    assert still + ([] + r.1) == still + r.1;
    assert still + ([] + todo[1..]) == still + todo[1..];
  }

  // ----- The reference run -----

  /** The group's settings: sched_cfs_bandwidth_slice() and TICK_NSEC are the last two. */
  datatype Settings = Settings(quota: nat, period: nat, slice: nat, tick: nat)

  /** What there was at the start, what has run, how often the pool was refilled, and what has lapsed. */
  datatype Ledger = Ledger(start: int, consumed: nat, refills: nat, lapsed: nat)

  /** The pool, the queues, throttled_cfs_rq, and the books kept on them. */
  datatype State = State(b: Pool, rq: seq<CfsRq>, list: seq<nat>, ledger: Ledger)

  ghost predicate Indexed(s: State) { forall k :: 0 <= k < |s.list| ==> s.list[k] < |s.rq| }

  ghost predicate Balanced(c: Settings, s: State) {
    var l := s.ledger;
    l.consumed + Sum(s.rq) + s.b.runtime + l.lapsed == l.start + c.quota * l.refills
  }

  ghost predicate Right(c: Settings, s: State) {
    InRange(s.rq) && Listed(s.rq, s.list) && Balanced(c, s)
  }

  /** Execution is charged, what is out of date lapses, and a queue that is out asks for more. */
  function Accounted(c: Settings, s: State, i: nat, delta: nat, clock: int): State
    requires i < |s.rq|
  {
    var q := s.rq[i].(remaining := s.rq[i].remaining - delta);
    var e := Expired(q, s.b, c.tick, clock);
    var lapsed := s.ledger.lapsed + Lapsed(q, s.b, c.tick, clock);
    var l := s.ledger.(consumed := s.ledger.consumed + delta, lapsed := lapsed);
    if e.remaining > 0 then s.(rq := s.rq[i := e], ledger := l)
    else
      var r := Assigned(e, s.b, c.slice);
      State(r.1, s.rq[i := r.0], s.list, l)
  }

  /** What a queue loses when its runtime is out of date. */
  function Lapsed(q: CfsRq, b: Pool, tick: nat, clock: int): nat {
    if Expired(q, b, tick, clock).remaining == 0 < q.remaining then q.remaining else 0
  }

  /** What a queue without tasks need not keep. */
  function Slack(q: CfsRq): nat {
    if q.remaining > MIN_CFS_RQ_RUNTIME then q.remaining - MIN_CFS_RQ_RUNTIME else 0
  }

  /** It goes back to the pool if its deadline is the pool's, and lapses if not. */
  function Returned(s: State, i: nat): State
    requires i < |s.rq|
  {
    var slack, valid := Slack(s.rq[i]), s.rq[i].expires == s.b.expires;
    State(if valid then s.b.(runtime := s.b.runtime + slack) else s.b,
          s.rq[i := s.rq[i].(remaining := s.rq[i].remaining - slack)], s.list,
          if valid then s.ledger else s.ledger.(lapsed := s.ledger.lapsed + slack))
  }

  function Throttled(s: State, i: nat): State
    requires i < |s.rq|
  {
    s.(rq := s.rq[i := s.rq[i].(throttled := true)], list := s.list + [i])
  }

  /** The pool is the quota again, and what was left of it lapses. */
  function Refilled(c: Settings, s: State, now: int): State {
    s.(b := s.b.(runtime := c.quota, expires := now + c.period, seqno := s.b.seqno + 1),
       ledger := s.ledger.(refills := s.ledger.refills + 1, lapsed := s.ledger.lapsed + s.b.runtime))
  }

  /** The whole pool is handed out to the throttled queues. */
  ghost function HandedOut(s: State): State
    requires Indexed(s)
  {
    var r := Distribute(s.rq, s.list, s.b.runtime, s.b.expires);
    s.(b := s.b.(runtime := r.2), rq := r.0, list := r.1)
  }

  /** The period timer goes idle after a period without throttled queues, and stops after another. */
  ghost function PeriodOver(c: Settings, s: State, now: int): State
    requires Indexed(s)
  {
    if s.list == [] then
      if s.b.idle then s else var r := Refilled(c, s, now); r.(b := r.b.(idle := true))
    else
      var r := Refilled(c, s, now);
      var h := if c.quota > 0 then HandedOut(r) else r;
      h.(b := h.b.(idle := false))
  }

  /** The slack timer hands out what has been returned, unless a refill is near or it is less than a slice. */
  ghost function SlackOver(c: Settings, s: State, soon: bool): State
    requires Indexed(s)
  {
    if soon || s.b.runtime <= c.slice then s else HandedOut(s)
  }

  datatype Op =
    | Account(i: nat, delta: nat, clock: int)
    | Return(i: nat)
    | Throttle(i: nat)
    | PeriodTimer(now: int)
    | SlackTimer(soon: bool)

  /** One operation. A charge that would not fit 64 bits is not performed; only a queue that is out is throttled. */
  ghost function Next(c: Settings, s: State, op: Op): State
    requires Indexed(s)
  {
    match op
    case Account(i, delta, clock) =>
      if i < |s.rq| && s.rq[i].remaining - delta >= S64_MIN then Accounted(c, s, i, delta, clock) else s
    case Return(i) => if i < |s.rq| then Returned(s, i) else s
    case Throttle(i) =>
      if i < |s.rq| && !s.rq[i].throttled && s.rq[i].remaining <= 0 then Throttled(s, i) else s
    case PeriodTimer(now) => PeriodOver(c, s, now)
    case SlackTimer(soon) => SlackOver(c, s, soon)
  }

  lemma {:induction false} NextIndexed(c: Settings, s: State, op: Op)
    requires Indexed(s)
    ensures Indexed(Next(c, s, op)) && |Next(c, s, op).rq| == |s.rq|
  {
  }

  ghost function RunAll(c: Settings, s: State, ops: seq<Op>): State
    requires Indexed(s)
    decreases |ops|
  {
    if ops == [] then s else (NextIndexed(c, s, ops[0]); RunAll(c, Next(c, s, ops[0]), ops[1..]))
  }

  // ----- What a charge means for the queue that is charged -----

  /** Runtime of a period that is over, by the queue's clock and by the pool's count of periods. */
  ghost predicate Stale(q: CfsRq, b: Pool, clock: int) { clock >= q.expires && q.seqno != b.seqno }

  /**
   What a queue holds after a charge. A stale balance is void and is replaced from the pool; any other is kept
   if something is left of it and otherwise topped up to a slice, as far as the pool reaches.
   */
  ghost function HeldAfter(c: Settings, b: Pool, q: CfsRq, delta: nat, clock: int): int {
    var left := q.remaining - delta;
    if left >= 0 && Stale(q, b, clock) then Min(c.slice, b.runtime)
    else if left > 0 then left
    else Min(c.slice, left + b.runtime)
  }

  /** What is void after a charge. */
  ghost function VoidAfter(b: Pool, q: CfsRq, delta: nat, clock: int): nat {
    var left := q.remaining - delta;
    if left >= 0 && Stale(q, b, clock) then left else 0
  }

  /**
   The deadline after a charge: the pool's if the queue had to ask for more under an old one; a deadline of the
   pool's own period is put off by a tick once it has passed.
   */
  ghost function DueAfter(c: Settings, b: Pool, q: CfsRq, delta: nat, clock: int): int {
    var left := q.remaining - delta;
    if q.seqno == b.seqno then q.expires + (if left >= 0 && clock >= q.expires then c.tick else 0)
    else if left > 0 && clock < q.expires then q.expires
    else b.expires
  }

  /** One charge, from the old pool and queue to the new. */
  ghost predicate ChargedTo(c: Settings, s: State, i: nat, delta: nat, clock: int, s': State)
    requires i < |s.rq|
  {
    var b, q, lost := s.b, s.rq[i], VoidAfter(s.b, s.rq[i], delta, clock);
    && |s'.rq| == |s.rq| && s'.list == s.list
    && s'.rq == s.rq[i := s'.rq[i]] && s'.rq[i].throttled == q.throttled
    && s'.rq[i].remaining == HeldAfter(c, b, q, delta, clock)
    && s'.rq[i].expires == DueAfter(c, b, q, delta, clock)
    && s'.rq[i].remaining + s'.b.runtime == q.remaining - delta - lost + b.runtime
    && s'.ledger == s.ledger.(consumed := s.ledger.consumed + delta, lapsed := s.ledger.lapsed + lost)
  }

  lemma {:induction false} AccountedMeans(c: Settings, s: State, i: nat, delta: nat, clock: int)
    requires i < |s.rq|
    ensures ChargedTo(c, s, i, delta, clock, Accounted(c, s, i, delta, clock))
  {
  }

  // ----- The books -----

  lemma {:induction false} AccountedRight(c: Settings, s: State, i: nat, delta: nat, clock: int)
    requires Right(c, s) && i < |s.rq| && s.rq[i].remaining - delta >= S64_MIN
    ensures Right(c, Accounted(c, s, i, delta, clock))
  {
    SumUpdate(s.rq, i, Accounted(c, s, i, delta, clock).rq[i]);
  }

  lemma {:induction false} ReturnedRight(c: Settings, s: State, i: nat)
    requires Right(c, s) && i < |s.rq|
    ensures Right(c, Returned(s, i))
  {
    SumUpdate(s.rq, i, Returned(s, i).rq[i]);
  }

  lemma {:induction false} ThrottledRight(c: Settings, s: State, i: nat)
    requires Right(c, s) && i < |s.rq| && !s.rq[i].throttled
    ensures Right(c, Throttled(s, i))
  {
    SumUpdate(s.rq, i, s.rq[i].(throttled := true));
  }

  lemma {:induction false} RefilledRight(c: Settings, s: State, now: int)
    requires Right(c, s)
    ensures Right(c, Refilled(c, s, now))
  {
    assert c.quota * (s.ledger.refills + 1) == c.quota * s.ledger.refills + c.quota;
  }

  /** Handing out empties the pool or the list. */
  lemma {:induction false} HandedOutRight(c: Settings, s: State)
    requires Right(c, s) && s.b.runtime > 0
    ensures var r := HandedOut(s); Right(c, r) && (r.b.runtime == 0 || r.list == [])
  {
    DistributeConserves(s.rq, s.list, s.b.runtime, s.b.expires);
    DistributeKeepsList(s.rq, s.list, s.b.runtime, s.b.expires);
  }

  lemma {:induction false} PeriodRight(c: Settings, s: State, now: int)
    requires Right(c, s)
    ensures Right(c, PeriodOver(c, s, now))
  {
    RefilledRight(c, s, now);
    if c.quota > 0 { HandedOutRight(c, Refilled(c, s, now)); }
  }

  /** What the period brings is in the pool or with the queues, and nothing else is. */
  lemma {:induction false} PeriodHandsOutQuota(c: Settings, s: State, now: int)
    requires Right(c, s)
    ensures var t := PeriodOver(c, s, now);
            Refills(s, PeriodTimer(now)) ==> Sum(t.rq) + t.b.runtime == Sum(s.rq) + c.quota
  {
    if c.quota > 0 { DistributeConserves(s.rq, s.list, c.quota, now + c.period); }
  }

  lemma {:induction false} NextRight(c: Settings, s: State, op: Op)
    requires Right(c, s)
    ensures Right(c, Next(c, s, op))
  {
    match op
    case Account(i, delta, clock) =>
      if i < |s.rq| && s.rq[i].remaining - delta >= S64_MIN { AccountedRight(c, s, i, delta, clock); }
    case Return(i) => if i < |s.rq| { ReturnedRight(c, s, i); }
    case Throttle(i) =>
      if i < |s.rq| && !s.rq[i].throttled && s.rq[i].remaining <= 0 { ThrottledRight(c, s, i); }
    case PeriodTimer(now) => PeriodRight(c, s, now);
    case SlackTimer(soon) => if !soon && s.b.runtime > c.slice { HandedOutRight(c, s); }
  }

  /** What is charged by an operation that is performed. */
  function Charge(s: State, op: Op): nat {
    if op.Account? && op.i < |s.rq| && s.rq[op.i].remaining - op.delta >= S64_MIN then op.delta else 0
  }

  /** Whether the operation refills the pool. */
  predicate Refills(s: State, op: Op) { op.PeriodTimer? && (s.list != [] || !s.b.idle) }

  ghost function Charges(c: Settings, s: State, ops: seq<Op>): nat
    requires Indexed(s)
    decreases |ops|
  {
    if ops == [] then 0
    else (NextIndexed(c, s, ops[0]); Charge(s, ops[0]) + Charges(c, Next(c, s, ops[0]), ops[1..]))
  }

  ghost function NrRefills(c: Settings, s: State, ops: seq<Op>): nat
    requires Indexed(s)
    decreases |ops|
  {
    if ops == [] then 0
    else (NextIndexed(c, s, ops[0]); (if Refills(s, ops[0]) then 1 else 0) + NrRefills(c, Next(c, s, ops[0]), ops[1..]))
  }

  lemma {:induction false} NextBooks(c: Settings, s: State, op: Op)
    requires Indexed(s)
    ensures var l := Next(c, s, op).ledger;
            && l.start == s.ledger.start && l.consumed == s.ledger.consumed + Charge(s, op)
            && l.refills == s.ledger.refills + (if Refills(s, op) then 1 else 0) && l.lapsed >= s.ledger.lapsed
  {
  }

  lemma {:induction false} RunBooks(c: Settings, s: State, ops: seq<Op>)
    requires Right(c, s)
    ensures var r := RunAll(c, s, ops);
            && Right(c, r) && r.ledger.start == s.ledger.start && r.ledger.lapsed >= s.ledger.lapsed
            && r.ledger.consumed == s.ledger.consumed + Charges(c, s, ops)
            && r.ledger.refills == s.ledger.refills + NrRefills(c, s, ops)
    decreases |ops|
  {
    if ops != [] {
      NextRight(c, s, ops[0]);
      NextBooks(c, s, ops[0]);
      RunBooks(c, Next(c, s, ops[0]), ops[1..]);
    }
  }

  /** In every run, what is charged and what is then held is at most what was held and one quota per refill. */
  lemma {:induction false} NothingFromNothing(c: Settings, s: State, ops: seq<Op>)
    requires Right(c, s)
    ensures var r := RunAll(c, s, ops);
            Charges(c, s, ops) + Sum(r.rq) + r.b.runtime <= Sum(s.rq) + s.b.runtime + c.quota * NrRefills(c, s, ops)
  {
    RunBooks(c, s, ops);
    Distributes(c.quota, s.ledger.refills, NrRefills(c, s, ops));
  }

  lemma {:induction false} Distributes(q: nat, a: nat, b: nat)
    ensures q * (a + b) == q * a + q * b
  {
  }

  // ----- Whose runtime is of an earlier period -----

  /** No queue is ahead of the pool in counting periods. */
  ghost predicate SeqnosBehind(s: State) {
    forall i :: 0 <= i < |s.rq| ==> s.rq[i].seqno <= s.b.seqno
  }

  /** Distribution gives the pool's deadline but not its count. */
  lemma {:induction false} DistributeDeadlines(rq: seq<CfsRq>, list: seq<nat>, left: nat, expires: int, i: nat)
    requires (forall k :: 0 <= k < |list| ==> list[k] < |rq|) && i < |rq|
    ensures var r := Distribute(rq, list, left, expires).0;
            r[i].seqno == rq[i].seqno && (r[i] == rq[i] || r[i].expires == expires)
    decreases |list|
  {
    if list != [] {
      var gift := Gift(rq[list[0]].remaining, left);
      var q := Given(rq[list[0]], gift, expires);
      if left - gift != 0 { DistributeDeadlines(rq[list[0] := q], list[1..], left - gift, expires, i); }
    }
  }

  lemma {:induction false} NextBehind(c: Settings, s: State, op: Op)
    requires Indexed(s) && SeqnosBehind(s)
    ensures SeqnosBehind(Next(c, s, op))
  {
    var t := Next(c, s, op);
    forall i | 0 <= i < |s.rq| ensures |t.rq| == |s.rq| && t.rq[i].seqno <= t.b.seqno {
      match op
      case PeriodTimer(now) => DistributeDeadlines(s.rq, s.list, c.quota, now + c.period, i);
      case SlackTimer(_) => DistributeDeadlines(s.rq, s.list, s.b.runtime, s.b.expires, i);
      case _ =>
    }
  }

  /** In every run from a fresh group a queue whose count is not the pool's is of an earlier period. */
  lemma {:induction false} RunBehind(c: Settings, s: State, ops: seq<Op>)
    requires Indexed(s) && SeqnosBehind(s)
    ensures SeqnosBehind(RunAll(c, s, ops))
    decreases |ops|
  {
    if ops != [] {
      NextIndexed(c, s, ops[0]);
      NextBehind(c, s, ops[0]);
      RunBehind(c, Next(c, s, ops[0]), ops[1..]);
    }
  }

  /**
   A queue that the period timer has just unthrottled has the pool's deadline but an old count. So from that
   deadline on its balance is void at the first charge, although the pool has not been refilled since.
   */
  lemma {:induction false} GiftsLapseEarly(c: Settings, s: State, now: int, i: nat, delta: nat, clock: int)
    requires Indexed(s) && SeqnosBehind(s) && i < |s.rq| && s.rq[i].throttled
    requires !PeriodOver(c, s, now).rq[i].throttled && clock >= now + c.period
    ensures var t := PeriodOver(c, s, now);
            && t.rq[i].expires == t.b.expires == now + c.period && t.rq[i].seqno < t.b.seqno
            && (delta <= t.rq[i].remaining ==>
                  VoidAfter(t.b, t.rq[i], delta, clock) == t.rq[i].remaining - delta)
  {
    DistributeDeadlines(s.rq, s.list, c.quota, now + c.period, i);
  }

  // ----- A queue that takes all -----

  function Fresh(c: Settings, cpus: nat, now: int): State {
    State(Pool(c.quota, now + c.period, 1, false), seq(cpus, _ => CfsRq(0, 0, 0, false)), [], Ledger(0, 0, 1, 0))
  }

  lemma {:induction false} FreshRight(c: Settings, cpus: nat, now: int)
    ensures Right(c, Fresh(c, cpus, now))
  {
    EmptyPools(cpus);
  }

  /** 20 ms in 100 ms, in slices of 5 ms. */
  function Twenty(): Settings { Settings(20_000_000, 100_000_000, 5_000_000, 4_000_000) }

  /**
   Of three CPUs, CPU 2 is assigned a slice; CPUs 0 and 1 run out and are throttled, 1 ns short each; CPU 2
   returns what it does not need.
   */
  function Scene(): seq<Op> {
    [Account(2, 1, 1), Account(0, 15_000_000, 2), Throttle(0), Account(1, 1, 3), Throttle(1), Return(2)]
  }

  /** A queue of this period that holds so much. */
  function Holding(remaining: int, throttled: bool): CfsRq { CfsRq(remaining, 100_000_000, 1, throttled) }

  function Holds(runtime: nat, rq: seq<CfsRq>, list: seq<nat>, consumed: nat): State {
    State(Pool(runtime, 100_000_000, 1, false), rq, list, Ledger(0, consumed, 1, 0))
  }

  /** Where the scene leaves the group. */
  function Crowded(): State {
    Holds(4_000_000, [Holding(-1, true), Holding(-1, true), Holding(1_000_000, false)], [0, 1], 15_000_002)
  }

  /** A charge that the pool can or cannot make up for. */
  lemma {:induction false} ChargeAndAssign(s: State, i: nat, delta: nat, clock: int)
    requires i < |s.rq| && s.rq[i].remaining < delta && s.b.seqno == 1 && s.b.expires == 100_000_000 && !s.b.idle
    requires s.rq[i].seqno == 1 ==> s.rq[i].expires == 100_000_000
    ensures var amount := Min(s.b.runtime, 5_000_000 - s.rq[i].remaining + delta);
            Accounted(Twenty(), s, i, delta, clock) ==
              State(s.b.(runtime := s.b.runtime - amount),
                    s.rq[i := Holding(s.rq[i].remaining - delta + amount, s.rq[i].throttled)], s.list,
                    s.ledger.(consumed := s.ledger.consumed + delta))
  {
  }

  lemma {:induction false} RunStep(c: Settings, s: State, ops: seq<Op>, t: State)
    requires Indexed(s) && ops != [] && Next(c, s, ops[0]) == t
    ensures Indexed(t) && RunAll(c, s, ops) == RunAll(c, t, ops[1..])
  {
    NextIndexed(c, s, ops[0]);
  }

  /** The first two charges: CPU 2 gets a slice, CPU 0 the rest of the pool. */
  lemma {:induction false} SceneCharges(s: State, ops: seq<Op>)
    requires s == Fresh(Twenty(), 3, 0) && |ops| >= 2
    requires ops[0] == Account(2, 1, 1) && ops[1] == Account(0, 15_000_000, 2)
    ensures Indexed(s)
    ensures var t := Holds(0, [Holding(-1, false), CfsRq(0, 0, 0, false), Holding(5_000_000, false)], [], 15_000_001);
            Indexed(t) && RunAll(Twenty(), s, ops) == RunAll(Twenty(), t, ops[2..])
  {
    var c, q := Twenty(), CfsRq(0, 0, 0, false);
    assert s == Holds(20_000_000, [q, q, q], [], 0);
    ChargeAndAssign(s, 2, 1, 1);
    var t := Holds(14_999_999, [q, q, Holding(5_000_000, false)], [], 1);
    assert s.rq[2 := Holding(5_000_000, false)] == t.rq;
    RunStep(c, s, ops, t);
    ChargeAndAssign(t, 0, 15_000_000, 2);
    assert t.rq[0 := Holding(-1, false)] == [Holding(-1, false), q, Holding(5_000_000, false)];
    RunStep(c, t, ops[1..], Holds(0, [Holding(-1, false), q, Holding(5_000_000, false)], [], 15_000_001));
    assert ops[1..][1..] == ops[2..];
  }

  lemma {:induction false} ThrottleStep(c: Settings, s: State, ops: seq<Op>, i: nat)
    requires Indexed(s) && ops != [] && ops[0] == Throttle(i) && i < |s.rq|
    requires !s.rq[i].throttled && s.rq[i].remaining <= 0
    ensures Indexed(Throttled(s, i)) && RunAll(c, s, ops) == RunAll(c, Throttled(s, i), ops[1..])
  {
    RunStep(c, s, ops, Throttled(s, i));
  }

  /** CPU 0 is throttled. */
  lemma {:induction false} SceneThrottles(s: State, ops: seq<Op>)
    requires s == Holds(0, [Holding(-1, false), CfsRq(0, 0, 0, false), Holding(5_000_000, false)], [], 15_000_001)
    requires Indexed(s) && ops != [] && ops[0] == Throttle(0)
    ensures var t := Holds(0, [Holding(-1, true), CfsRq(0, 0, 0, false), Holding(5_000_000, false)], [0], 15_000_001);
            Indexed(t) && RunAll(Twenty(), s, ops) == RunAll(Twenty(), t, ops[1..])
  {
    ThrottleStep(Twenty(), s, ops, 0);
    var t := Holds(0, [Holding(-1, true), CfsRq(0, 0, 0, false), Holding(5_000_000, false)], [0], 15_000_001);
    assert s.rq[0 := Holding(-1, true)] == t.rq && s.list + [0] == t.list;
  }

  /** CPU 1 finds the pool empty. */
  lemma {:induction false} SceneRunsOut(s: State, ops: seq<Op>)
    requires s == Holds(0, [Holding(-1, true), CfsRq(0, 0, 0, false), Holding(5_000_000, false)], [0], 15_000_001)
    requires Indexed(s) && ops != [] && ops[0] == Account(1, 1, 3)
    ensures var t := Holds(0, [Holding(-1, true), Holding(-1, false), Holding(5_000_000, false)], [0], 15_000_002);
            Indexed(t) && RunAll(Twenty(), s, ops) == RunAll(Twenty(), t, ops[1..])
  {
    var t := Holds(0, [Holding(-1, true), Holding(-1, false), Holding(5_000_000, false)], [0], 15_000_002);
    Middle(Holding(-1, true), CfsRq(0, 0, 0, false), Holding(5_000_000, false), Holding(-1, false));
    assert Next(Twenty(), s, ops[0]) == t by { ChargeAndAssign(s, 1, 1, 3); }
    RunStep(Twenty(), s, ops, t);
  }

  lemma {:induction false} Middle(a: CfsRq, b: CfsRq, c: CfsRq, x: CfsRq)
    ensures [a, b, c][1 := x] == [a, x, c]
  {
  }

  /** CPU 1 is throttled too, and CPU 2 hands back what it does not need. */
  lemma {:induction false} SceneReturns(s: State, ops: seq<Op>)
    requires s == Holds(0, [Holding(-1, true), Holding(-1, false), Holding(5_000_000, false)], [0], 15_000_002)
    requires Indexed(s) && |ops| >= 2 && ops[0] == Throttle(1) && ops[1] == Return(2)
    ensures Indexed(Crowded()) && RunAll(Twenty(), s, ops) == RunAll(Twenty(), Crowded(), ops[2..])
  {
    var c := Twenty();
    var t := Holds(0, [Holding(-1, true), Holding(-1, true), Holding(5_000_000, false)], [0, 1], 15_000_002);
    ThrottleStep(c, s, ops, 1);
    assert s.rq[1 := Holding(-1, true)] == t.rq && s.list + [1] == t.list;
    assert t.rq[2 := Holding(1_000_000, false)] == Crowded().rq;
    RunStep(c, t, ops[1..], Crowded());
    assert ops[1..][1..] == ops[2..];
  }

  lemma {:induction false} SceneLeads(ops: seq<Op>)
    requires ops == Scene()
    ensures Indexed(Fresh(Twenty(), 3, 0)) && Indexed(Crowded())
    ensures RunAll(Twenty(), Fresh(Twenty(), 3, 0), ops) == Crowded()
  {
    SceneCharges(Fresh(Twenty(), 3, 0), ops);
    var t := Holds(0, [Holding(-1, false), CfsRq(0, 0, 0, false), Holding(5_000_000, false)], [], 15_000_001);
    SceneThrottles(t, ops[2..]);
    var u := Holds(0, [Holding(-1, true), CfsRq(0, 0, 0, false), Holding(5_000_000, false)], [0], 15_000_001);
    SceneRunsOut(u, ops[2..][1..]);
    var v := Holds(0, [Holding(-1, true), Holding(-1, false), Holding(5_000_000, false)], [0], 15_000_002);
    SceneReturns(v, ops[2..][1..][1..]);
    assert ops[2..][1..][1..][2..] == [];
  }

  /** A throttled queue that holds more than 1 ns when the period is over takes the whole quota if it is first. */
  lemma {:induction false} FirstTakesQuota(c: Settings, s: State, now: int)
    requires s.list != [] && Indexed(s)
    requires 1 < s.rq[s.list[0]].remaining < -S64_MIN && 0 < c.quota < -S64_MIN
    ensures var t, i, q := PeriodOver(c, s, now), s.list[0], s.rq[s.list[0]];
            && t.rq == s.rq[i := CfsRq(q.remaining + c.quota, now + c.period, q.seqno, false)]
            && t.list == s.list[1..] && t.b.runtime == 0
  {
    GiftIsNeeded(s.rq[s.list[0]].remaining, c.quota);
    assert [] + s.list[1..] == s.list[1..];
  }

  /**
   The throttled queue 0, charged once more while still running, is assigned all 4 ms of the pool; the next
   period then gives it the whole quota, and queue 1 stays throttled for want of 2 ns.
   */
  lemma {:induction false} OneTakesAll(ops: seq<Op>)
    requires ops == Scene()
    ensures Indexed(Fresh(Twenty(), 3, 0)) && RunAll(Twenty(), Fresh(Twenty(), 3, 0), ops) == Crowded()
    ensures var r := Accounted(Twenty(), Crowded(), 0, 1, 4);
            && Next(Twenty(), Crowded(), Account(0, 1, 4)) == r
            && r.rq[0] == Holding(3_999_998, true) && r.list == [0, 1]
            && var t := PeriodOver(Twenty(), r, 100_000_000);
               && t.rq[0].remaining == 3_999_998 + Twenty().quota && t.b.runtime == 0
               && t.rq[1] == Holding(-1, true) && t.list == [1]
  {
    SceneLeads(ops);
    ChargedWhileThrottled();
    var r := Accounted(Twenty(), Crowded(), 0, 1, 4);
    FirstTakesQuota(Twenty(), r, 100_000_000);
  }

  lemma {:induction false} ChargedWhileThrottled()
    ensures var s, r := Crowded(), Accounted(Twenty(), Crowded(), 0, 1, 4);
            && Next(Twenty(), s, Account(0, 1, 4)) == r && r.list == [0, 1]
            && r.rq == [Holding(3_999_998, true), Holding(-1, true), Holding(1_000_000, false)]
  {
    ChargeAndAssign(Crowded(), 0, 1, 4);
  }

  // ----- The code -----

  class Bandwidth {
    const c: Settings
    var b: Pool
    var rq: seq<CfsRq>
    var list: seq<nat>   // throttled_cfs_rq
    ghost var ledger: Ledger

    ghost function View(): State
      reads this
    {
      State(b, rq, list, ledger)
    }

    ghost predicate Valid()
      reads this
    {
      Right(c, View())
    }

    constructor (c: Settings, cpus: nat, now: int)
      ensures Valid() && this.c == c && View() == Fresh(c, cpus, now)
    {
      this.c := c;
      b, rq, list := Pool(c.quota, now + c.period, 1, false), seq(cpus, _ => CfsRq(0, 0, 0, false)), [];
      ledger := Ledger(0, 0, 1, 0);
      new;
      FreshRight(c, cpus, now);
    }

    method Refill(now: int)
      requires Valid()
      modifies this`b, this`ledger
      ensures Valid() && View() == Refilled(c, old(View()), now)
      ensures b.runtime == c.quota && b.expires == now + c.period && b.seqno == old(b).seqno + 1
    {
      RefilledRight(c, View(), now);
      ledger := ledger.(refills := ledger.refills + 1, lapsed := ledger.lapsed + b.runtime);
      b := b.(runtime := c.quota, expires := now + c.period, seqno := b.seqno + 1);
    }

    /** Moves runtime from the pool to queue i, up to a slice ahead. */
    method AssignCfsRqRuntime(i: nat) returns (ok: bool)
      requires i < |rq| && rq[i].remaining <= 0
      modifies this`b, this`rq
      ensures |rq| == |old(rq)| && ok == (rq[i].remaining > 0)
      ensures rq[i].remaining == Min(c.slice, old(rq)[i].remaining + old(b).runtime)
      ensures b.idle <==> old(b).idle && old(b).runtime == 0
      ensures rq == old(rq)[i := rq[i]] && (rq[i], b) == Assigned(old(rq)[i], old(b), c.slice)
    {
      var amount := 0;
      var minAmount := c.slice - rq[i].remaining;
      if b.runtime > 0 {
        amount := Min(b.runtime, minAmount);
        b := b.(runtime := b.runtime - amount, idle := false);
      }
      var q := rq[i].(remaining := rq[i].remaining + amount);
      if q.seqno != b.seqno {
        q := q.(seqno := b.seqno, expires := b.expires);
      }
      rq := rq[i := q];
      ok := q.remaining > 0;
    }

    /** Runtime left over from an earlier period lapses; a deadline the pool has not passed is extended. */
    method ExpireCfsRqRuntime(i: nat, clock: int)
      requires i < |rq|
      modifies this`rq, this`ledger
      ensures var q := old(rq)[i];
              && |rq| == |old(rq)|
              && rq[i].remaining == (if q.remaining >= 0 && Stale(q, b, clock) then 0 else q.remaining)
              && ledger.lapsed - old(ledger).lapsed == q.remaining - rq[i].remaining
      ensures ledger == old(ledger).(lapsed := old(ledger).lapsed + Lapsed(old(rq)[i], b, c.tick, clock))
      ensures rq == old(rq)[i := Expired(old(rq)[i], b, c.tick, clock)]
    {
      var q := rq[i];
      if clock - q.expires < 0 { return; }
      if q.remaining < 0 { return; }
      if q.seqno == b.seqno {
        q := q.(expires := q.expires + c.tick);
      } else {
        ledger := ledger.(lapsed := ledger.lapsed + q.remaining);
        q := q.(remaining := 0);
      }
      rq := rq[i := q];
    }

    /** Charges queue i for delta of execution, expires what is out of date and asks for more when out. */
    method AccountCfsRqRuntime(i: nat, delta: nat, clock: int)
      requires Valid() && i < |rq| && rq[i].remaining - delta >= S64_MIN
      modifies this
      ensures Valid() && View() == Accounted(c, old(View()), i, delta, clock)
      ensures ChargedTo(c, old(View()), i, delta, clock, View())
      ensures var q, left := old(rq)[i], old(rq)[i].remaining - delta;
              && (left >= 0 && clock >= q.expires && q.seqno != old(b).seqno ==>
                    rq[i].remaining == Min(c.slice, old(b).runtime) && ledger.lapsed == old(ledger).lapsed + left)
              && (q.seqno == old(b).seqno ==>
                    ledger.lapsed == old(ledger).lapsed && (left > 0 ==> rq[i].remaining == left && b == old(b)))
    {
      AccountedRight(c, View(), i, delta, clock);
      AccountedMeans(c, View(), i, delta, clock);
      ChargeCfsRqRuntime(i, delta, clock);
    }

    method ChargeCfsRqRuntime(i: nat, delta: nat, clock: int)
      requires i < |rq|
      modifies this
      ensures View() == Accounted(c, old(View()), i, delta, clock)
    {
      ghost var q := rq[i].(remaining := rq[i].remaining - delta);
      rq := rq[i := rq[i].(remaining := rq[i].remaining - delta)];
      ledger := ledger.(consumed := ledger.consumed + delta);
      ExpireCfsRqRuntime(i, clock);
      assert rq == old(rq)[i := Expired(q, b, c.tick, clock)];
      if rq[i].remaining > 0 { return; }
      var ok := AssignCfsRqRuntime(i);
    }

    /** An emptied queue hands back what it does not need; out of date, it lapses instead. */
    method ReturnCfsRqRuntime(i: nat)
      requires Valid() && i < |rq|
      modifies this`b, this`rq, this`ledger
      ensures Valid() && View() == Returned(old(View()), i)
      ensures var q, slack := old(rq)[i], old(rq)[i].remaining - rq[i].remaining;
              && rq[i].remaining == Min(q.remaining, MIN_CFS_RQ_RUNTIME)
              && (q.expires == b.expires ==> b.runtime == old(b).runtime + slack && ledger == old(ledger))
              && (q.expires != b.expires ==> b == old(b) && ledger.lapsed == old(ledger).lapsed + slack)
    {
      ReturnedRight(c, View(), i);
      var slack := rq[i].remaining - MIN_CFS_RQ_RUNTIME;
      if slack <= 0 { return; }
      if rq[i].expires == b.expires {
        b := b.(runtime := b.runtime + slack);
      } else {
        ledger := ledger.(lapsed := ledger.lapsed + slack);
      }
      rq := rq[i := rq[i].(remaining := rq[i].remaining - slack)];
    }

    /** throttle_cfs_rq, as far as the pool's list is concerned. */
    method ThrottleCfsRq(i: nat)
      requires Valid() && i < |rq| && !rq[i].throttled
      modifies this`rq, this`list
      ensures Valid() && View() == Throttled(old(View()), i)
      ensures list == old(list) + [i] && rq == old(rq)[i := old(rq)[i].(throttled := true)]
    {
      ThrottledRight(c, View(), i);
      rq := rq[i := rq[i].(throttled := true)];
      list := list + [i];
    }

    /** The loop over the list: unthrottles until nothing is left to hand out. */
    method DistributeList(runtime: nat, expires: int) returns (left: nat)
      requires runtime > 0 && forall k :: 0 <= k < |list| ==> list[k] < |rq|
      modifies this`rq, this`list
      ensures (rq, list, left) == Distribute(old(rq), old(list), runtime, expires)
    {
      ghost var goal, n := Distribute(rq, list, runtime, expires), |rq|;
      left := runtime;
      var todo: seq<nat>, still: seq<nat> := list, [];
      assert still + goal.1 == goal.1;
      while todo != []
        invariant |rq| == n && left > 0 && forall j :: 0 <= j < |todo| ==> todo[j] < |rq|
        invariant Onwards(still, Distribute(rq, todo, left, expires)) == goal
        decreases |todo|
      {
        DistributeStep(still, rq, todo, left, expires);
        var i := todo[0];
        left := GiveRuntime(i, left, expires);
        if rq[i].remaining <= 0 { still := still + [i]; }
        todo := todo[1..];
        if left == 0 { break; }
      }
      list := still + todo;
    }

    /** The body of the loop: one queue is given what it asks for, and unthrottled if that puts it ahead. */
    method GiveRuntime(i: nat, left: nat, expires: int) returns (rest: nat)
      requires i < |rq|
      modifies this`rq
      ensures |rq| == |old(rq)| && rq[i].remaining + rest == old(rq)[i].remaining + left
      ensures rq[i].throttled <==> old(rq)[i].throttled && rq[i].remaining <= 0
      ensures var gift := Gift(old(rq)[i].remaining, left);
              rest == left - gift && rq == old(rq)[i := Given(old(rq)[i], gift, expires)]
    {
      var gift := Gift(rq[i].remaining, left);
      rest := left - gift;
      rq := rq[i := rq[i].(remaining := rq[i].remaining + gift, expires := expires)];
      if rq[i].remaining > 0 { rq := rq[i := rq[i].(throttled := false)]; }
    }

    /** What was used is what the queues gained. */
    method DistributeCfsRuntime(runtime: nat, expires: int) returns (used: nat)
      requires runtime > 0 && forall k :: 0 <= k < |list| ==> list[k] < |rq|
      modifies this`rq, this`list
      ensures used <= runtime && (rq, list, runtime - used) == Distribute(old(rq), old(list), runtime, expires)
    {
      var left := DistributeList(runtime, expires);
      used := runtime - left;
    }

    /** The loop of the period timer: it ends after one round, with the pool or the list empty. */
    method DistributeWhileItLasts()
      requires Valid() && list != []
      modifies this`b, this`rq, this`list
      ensures Valid() && View() == if old(b).runtime > 0 then HandedOut(old(View())) else old(View())
      ensures b.runtime == 0 || list == []
    {
      ghost var s := View();
      var throttled, expires := true, b.expires;
      if b.runtime > 0 { HandedOutRight(c, s); }
      while throttled && b.runtime > 0
        invariant throttled == (list != []) && Valid()
        invariant View() == s || (s.b.runtime > 0 && View() == HandedOut(s) && (list == [] || b.runtime == 0))
        decreases b.runtime + |list|
      {
        DistributeConserves(rq, list, b.runtime, expires);
        var used := DistributeCfsRuntime(b.runtime, expires);
        throttled := list != [];
        b := b.(runtime := b.runtime - Min(used, b.runtime));
      }
    }

    /** The period timer; `true` when it stops. Distribution repeats while the pool and the list last. */
    method DoSchedCfsPeriodTimer(now: int) returns (stop: bool)
      requires Valid()
      modifies this
      ensures Valid() && View() == PeriodOver(c, old(View()), now)
      ensures stop == (old(b).idle && old(list) == [])
      ensures !stop ==> b.expires == now + c.period && b.seqno == old(b).seqno + 1 && b.idle == (old(list) == [])
      ensures !stop ==> Sum(rq) + b.runtime == Sum(old(rq)) + c.quota && (b.runtime == 0 || list == [])
    {
      PeriodRight(c, View(), now);
      PeriodHandsOutQuota(c, View(), now);
      var throttled := list != [];
      if b.idle && !throttled { return true; }
      Refill(now);
      if !throttled {
        b := b.(idle := true);
        return false;
      }
      DistributeWhileItLasts();
      b := b.(idle := false);
      return false;
    }

    /** Hands out what has been returned, unless a refill is near or there is less than a slice. */
    method DoSchedCfsSlackTimer(refreshSoon: bool)
      requires Valid()
      modifies this
      ensures Valid() && View() == SlackOver(c, old(View()), refreshSoon)
      ensures refreshSoon || old(b).runtime <= c.slice ==> View() == old(View())
      ensures !refreshSoon && old(b).runtime > c.slice ==> b.runtime == 0 || list == []
      ensures Sum(rq) + b.runtime == Sum(old(rq)) + old(b).runtime
    {
      NextRight(c, View(), SlackTimer(refreshSoon));
      if b.runtime > 0 { HandedOutRight(c, View()); }
      if refreshSoon { return; }
      var runtime := 0;
      if b.runtime > c.slice { runtime := b.runtime; }
      if runtime == 0 { return; }
      var expires := b.expires;
      var used := DistributeCfsRuntime(runtime, expires);
      if expires == b.expires {
        b := b.(runtime := b.runtime - Min(used, b.runtime));
      }
    }

    method RunOne(op: Op)
      requires Valid()
      modifies this
      ensures Valid() && View() == Next(c, old(View()), op)
    {
      match op {
        case Account(i, delta, clock) =>
          if i < |rq| && rq[i].remaining - delta >= S64_MIN { AccountCfsRqRuntime(i, delta, clock); }
        case Return(i) => if i < |rq| { ReturnCfsRqRuntime(i); }
        case Throttle(i) => if i < |rq| && !rq[i].throttled && rq[i].remaining <= 0 { ThrottleCfsRq(i); }
        case PeriodTimer(now) => var stop := DoSchedCfsPeriodTimer(now);
        case SlackTimer(soon) => DoSchedCfsSlackTimer(soon);
      }
    }

    /** Any run does what the reference does, with the books balanced, so that nothing comes from nothing. */
    method Run(ops: seq<Op>)
      requires Valid()
      modifies this
      ensures Valid() && View() == RunAll(c, old(View()), ops)
      ensures Charges(c, old(View()), ops) + Sum(rq) + b.runtime <=
              Sum(old(rq)) + old(b).runtime + c.quota * NrRefills(c, old(View()), ops)
    {
      NothingFromNothing(c, View(), ops);
      ghost var goal := RunAll(c, View(), ops);
      for k := 0 to |ops|
        invariant Valid() && RunAll(c, View(), ops[k..]) == goal
      {
        assert ops[k..][1..] == ops[k + 1..];
        RunOne(ops[k]);
      }
    }
  }

  lemma {:induction false} EmptyPools(n: nat)
    ensures Sum(seq(n, _ => CfsRq(0, 0, 0, false))) == 0
    decreases n
  {
    if n > 0 {
      EmptyPools(n - 1);
      assert seq(n, _ => CfsRq(0, 0, 0, false))[..n - 1] == seq(n - 1, _ => CfsRq(0, 0, 0, false));
    }
  }
}
