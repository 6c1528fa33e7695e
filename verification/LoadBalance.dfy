/**
 * Pulling tasks from a busy queue: detach_tasks, attach_tasks and the two jumps of load_balance.
 *
 * The run-queue lock is dropped between rounds, so each round finds whatever lists, affinities, loads and
 * busiest queue the rest of the system has left: these come from an arbitrary `world` indexed by round.
 */
module LoadBalance {
  import opened Common

  const MIGRATE_BREAK: nat := 32
  const SMALL_LOAD: nat := 16

  datatype IdleType = NotIdle | Idle | NewlyIdle

  /** What a balancing pass cannot change. The first group is the one of the balancing CPU. */
  datatype Domain = Domain(nrCpus: nat, span: set<nat>, groups: seq<set<nat>>, idle: IdleType,
                           failed: nat, niceTries: nat, lbMin: bool, preempt: bool)
  {
    ghost predicate Valid() {
      groups != [] && forall i, j :: 0 <= i < j < |groups| ==> groups[i] !! groups[j]
    }
  }

  /** What a round finds of the tasks. A task's load may change from one look to the next. */
  datatype Facts = Facts(throttled: set<nat>, allowed: nat -> set<nat>, running: set<nat>, hot: set<nat>,
                         load: (nat, nat) -> nat)

  datatype World = World(group: nat, src: nat, imbalance: int, nrMigrate: nat, idleCpus: set<nat>, balanceCpu: nat,
                         list: seq<nat>, nr: int, dstList: seq<nat>, facts: Facts)

  datatype Env = Env(dst: nat, cpus: set<nat>, imbalance: int, loop: nat, loopBreak: nat, loopMax: nat, newDst: nat,
                     somePinned: bool, dstPinned: bool, allPinned: bool, needBreak: bool)

  /** One detachment: the round, the task, the CPU it was sent to and the load it counted for. */
  datatype Move = Move(round: nat, p: nat, dst: nat, load: nat)

  /** The environment, the source queue, the detached tasks not yet attached, and the history. */
  datatype State = State(env: Env, list: seq<nat>, nr: int, tasks: seq<nat>, moves: seq<Move>)

  function FirstCpu(s: set<nat>, from: nat, n: nat): (r: nat)
    ensures r < n ==> r in s
    ensures forall c :: from <= c < r && c < n ==> c !in s
    decreases n - from
  {
    if from >= n || from in s then from else FirstCpu(s, from + 1, n)
  }

  // ----- can_migrate_task -----

  /** A task may be moved: not throttled, allowed there, not running, and cold or the domain is desperate. */
  predicate Eligible(d: Domain, f: Facts, p: nat, dst: nat) {
    && p !in f.throttled && dst in f.allowed(p) && p !in f.running
    && (p !in f.hot || d.failed > d.niceTries)
  }

  /** What looking at p leaves in the environment. */
  function Looked(d: Domain, f: Facts, e: Env, p: nat): Env
    requires d.groups != []
  {
    if p in f.throttled then e
    else if e.dst in f.allowed(p) then e.(allPinned := false)
    else if d.idle == NewlyIdle || e.dstPinned then e.(somePinned := true)
    else
      var cpu := FirstCpu(d.groups[0] * e.cpus * f.allowed(p), 0, d.nrCpus);
      if cpu < d.nrCpus then e.(somePinned := true, dstPinned := true, newDst := cpu) else e.(somePinned := true)
  }

  // ----- detach_tasks -----

  /** Whether the first task is taken. */
  predicate Takes(d: Domain, f: Facts, e: Env, p: nat) {
    && Eligible(d, f, p, e.dst)
    && !(d.lbMin && f.load(e.loop, p) < SMALL_LOAD && d.failed == 0)
    && f.load(e.loop, p) / 2 <= e.imbalance
  }

  /** The first task is looked at: taken to the front of the detached list, or sent to the back of its own. */
  function Pass(d: Domain, f: Facts, round: nat, s: State): State
    requires d.groups != [] && s.list != []
  {
    var p, e := s.list[0], Looked(d, f, s.env, s.list[0]);
    if Takes(d, f, s.env, p) then
      var load := f.load(s.env.loop, p);
      State(e.(imbalance := e.imbalance - load), s.list[1..], s.nr - 1, [p] + s.tasks,
            s.moves + [Move(round, p, e.dst, load)])
    else
      s.(env := e, list := s.list[1..] + [p])
  }

  predicate Stops(d: Domain, s: State, s': State) {
    |s'.moves| > |s.moves| && ((d.preempt && d.idle == NewlyIdle) || s'.env.imbalance <= 0)
  }

  predicate NothingToSteal(d: Domain, s: State) {
    s.list == [] || (d.idle != NotIdle && s.nr <= 1)
  }

  /** One turn of the loop from its counter on, and whether it goes round again. */
  function Turn(d: Domain, f: Facts, round: nat, s: State): (r: (State, bool))
    requires d.groups != [] && s.list != []
    ensures r.1 ==> s.env.loop < r.0.env.loop <= s.env.loopMax == r.0.env.loopMax
  {
    var c := s.(env := s.env.(loop := s.env.loop + 1));
    if c.env.loop > c.env.loopMax then (c, false)
    else if c.env.loop > c.env.loopBreak then
      (c.(env := c.env.(loopBreak := c.env.loopBreak + MIGRATE_BREAK, needBreak := true)), false)
    else
      var r := Pass(d, f, round, c);
      (r, !Stops(d, c, r))
  }

  /** The whole loop. */
  function Loop(d: Domain, f: Facts, round: nat, s: State): State
    requires d.groups != []
    decreases s.env.loopMax - s.env.loop
  {
    if NothingToSteal(d, s) then s
    else
      var r := Turn(d, f, round, s);
      if r.1 then Loop(d, f, round, r.0) else r.0
  }

  function Detached(d: Domain, f: Facts, round: nat, s: State): State
    requires d.groups != []
  {
    if s.env.imbalance <= 0 then s else Loop(d, f, round, s)
  }

  function Load(moves: seq<Move>): nat {
    if moves == [] then 0 else moves[0].load + Load(moves[1..])
  }

  function Tasks(moves: seq<Move>): seq<nat> {
    seq(|moves|, i requires 0 <= i < |moves| => moves[i].p)
  }

  lemma {:induction false} LoadAdd(a: seq<Move>, b: seq<Move>)
    ensures Load(a + b) == Load(a) + Load(b)
    decreases |a|
  {
    if a == [] {
      assert a + b == b;
    } else {
      assert (a + b)[1..] == a[1..] + b;
      LoadAdd(a[1..], b);
    }
  }

  /** The jump target, when set, is another CPU of the local group that is still under consideration. */
  ghost predicate Ready(d: Domain, e: Env)
    requires d.groups != []
  {
    && e.dst in e.cpus && e.dst in d.groups[0]
    && (e.dstPinned ==> e.newDst in e.cpus && e.newDst in d.groups[0] && e.newDst != e.dst)
  }

  /** Every task lies exactly once, either still at the source or among the detached. */
  ghost predicate SameTasks(s: State, r: State) {
    multiset(r.list) + multiset(r.tasks) == multiset(s.list) + multiset(s.tasks)
  }

  /** The moves made between two states are what the lists, the count and the imbalance lost. */
  ghost predicate Accounted(d: Domain, f: Facts, round: nat, s: State, r: State, new_: seq<Move>) {
    && r.moves == s.moves + new_
    && r.nr == s.nr - |new_| && |r.tasks| == |s.tasks| + |new_|
    && r.env.imbalance == s.env.imbalance - Load(new_)
    && forall i :: 0 <= i < |new_| ==> RightMove(d, f, round, s, new_[i])
  }

  ghost predicate RightMove(d: Domain, f: Facts, round: nat, s: State, m: Move) {
    m.round == round && m.dst == s.env.dst && Eligible(d, f, m.p, m.dst)
  }

  /** What never changes, and what the flags mean. */
  ghost predicate EnvKept(d: Domain, s: State, r: State, new_: seq<Move>)
    requires d.groups != []
  {
    && r.env.dst == s.env.dst && r.env.cpus == s.env.cpus && r.env.loopMax == s.env.loopMax
    && (Ready(d, s.env) ==> Ready(d, r.env))
    && (r.env.allPinned ==> s.env.allPinned && new_ == [])
    && (r.env.needBreak && !s.env.needBreak ==> s.env.loop < r.env.loop <= r.env.loopMax)
    && (d.idle != NotIdle && new_ != [] ==> r.nr >= 1)
  }

  /** The moves one pass makes. */
  function Made(d: Domain, f: Facts, round: nat, s: State): seq<Move>
    requires d.groups != [] && s.list != []
  {
    var p := s.list[0];
    if Takes(d, f, s.env, p) then [Move(round, p, s.env.dst, f.load(s.env.loop, p))] else []
  }

  ghost predicate Kept(d: Domain, f: Facts, round: nat, s: State, r: State, m: seq<Move>)
    requires d.groups != []
  {
    SameTasks(s, r) && Accounted(d, f, round, s, r, m) && EnvKept(d, s, r, m)
  }

  lemma {:induction false} PassSameTasks(d: Domain, f: Facts, round: nat, s: State)
    requires d.groups != [] && s.list != []
    ensures SameTasks(s, Pass(d, f, round, s))
  {
    assert s.list == [s.list[0]] + s.list[1..];
  }

  lemma {:induction false} PassAccounted(d: Domain, f: Facts, round: nat, s: State)
    requires d.groups != [] && s.list != []
    ensures Accounted(d, f, round, s, Pass(d, f, round, s), Made(d, f, round, s))
  {
    assert s.moves + [] == s.moves;
  }

  lemma {:induction false} LookedReady(d: Domain, f: Facts, e: Env, p: nat)
    requires d.groups != [] && Ready(d, e)
    ensures Ready(d, Looked(d, f, e, p))
  {
  }

  lemma {:induction false} PassEnv(d: Domain, f: Facts, round: nat, s: State)
    requires d.groups != [] && s.list != [] && !NothingToSteal(d, s)
    ensures EnvKept(d, s, Pass(d, f, round, s), Made(d, f, round, s))
  {
    if Ready(d, s.env) { LookedReady(d, f, s.env, s.list[0]); }
  }

  lemma {:induction false} CounterOnly(d: Domain, f: Facts, round: nat, s: State, r: State, m: seq<Move>)
    requires d.groups != []
    requires Kept(d, f, round, s.(env := s.env.(loop := s.env.loop + 1)), r, m)
    ensures Kept(d, f, round, s, r, m)
  {
  }

  lemma {:induction false} PassKeeps(d: Domain, f: Facts, round: nat, s: State)
    requires d.groups != [] && s.list != [] && !NothingToSteal(d, s)
    ensures Kept(d, f, round, s, Pass(d, f, round, s), Made(d, f, round, s))
    ensures Made(d, f, round, s) != [] ==> Load(Made(d, f, round, s)) <= 2 * s.env.imbalance + 1
    ensures Made(d, f, round, s) != [] && !Stops(d, s, Pass(d, f, round, s)) ==> Pass(d, f, round, s).env.imbalance > 0
  {
    PassSameTasks(d, f, round, s);
    PassAccounted(d, f, round, s);
    PassEnv(d, f, round, s);
  }

  lemma {:induction false} NoMove(d: Domain, f: Facts, round: nat, s: State)
    requires d.groups != []
    requires s.env.loop + 1 > s.env.loopMax || s.env.loop + 1 > s.env.loopBreak
    requires s.list != []
    ensures Kept(d, f, round, s, Turn(d, f, round, s).0, [])
  {
    assert s.moves + [] == s.moves;
  }

  /** No task is taken twice or lost by one turn, and the one taken weighs at most twice the imbalance plus one. */
  lemma {:induction false} TurnKeeps(d: Domain, f: Facts, round: nat, s: State, t: State, more: bool)
    returns (m: seq<Move>)
    requires d.groups != [] && !NothingToSteal(d, s) && Turn(d, f, round, s) == (t, more)
    ensures Kept(d, f, round, s, t, m)
    ensures m == [] || (Load(m) <= 2 * s.env.imbalance + 1 && (more ==> t.env.imbalance > 0))
  {
    if s.env.loop + 1 > s.env.loopMax || s.env.loop + 1 > s.env.loopBreak {
      NoMove(d, f, round, s);
      m := [];
    } else {
      var c := s.(env := s.env.(loop := s.env.loop + 1));
      m := Made(d, f, round, c);
      assert Kept(d, f, round, s, t, m) by {
        PassKeeps(d, f, round, c);
        CounterOnly(d, f, round, s, t, m);
      }
      PassKeeps(d, f, round, c);
    }
  }

  lemma {:induction false} KeptAdd(d: Domain, f: Facts, round: nat, s: State, t: State, r: State, a: seq<Move>,
                                   b: seq<Move>)
    requires d.groups != []
    requires Kept(d, f, round, s, t, a) && Kept(d, f, round, t, r, b) && s.env.loop < t.env.loop
    requires !t.env.needBreak || s.env.needBreak
    ensures Kept(d, f, round, s, r, a + b)
  {
    LoadAdd(a, b);
    assert s.moves + a + b == s.moves + (a + b);
  }

  /**
   * The loop loses and duplicates no task, moves only eligible ones, takes exactly the load it books, and at
   * most twice the imbalance plus one.
   */
  lemma {:induction false} LoopKeeps(d: Domain, f: Facts, round: nat, s: State) returns (m: seq<Move>)
    requires d.groups != []
    ensures Kept(d, f, round, s, Loop(d, f, round, s), m)
    ensures s.env.imbalance > 0 ==> Load(m) <= 2 * s.env.imbalance + 1
    decreases s.env.loopMax - s.env.loop
  {
    if NothingToSteal(d, s) {
      m := [];
      assert s.moves + [] == s.moves;
    } else {
      var t := Turn(d, f, round, s);
      m := TurnKeeps(d, f, round, s, t.0, t.1);
      if t.1 {
        var b := LoopKeeps(d, f, round, t.0);
        LoadAdd(m, b);
        KeptAdd(d, f, round, s, t.0, Loop(d, f, round, t.0), m, b);
        m := m + b;
      }
    }
  }

  // ----- What a round looks at, what it takes and why it ends -----

  /** One look at a task: the loop counter then, the imbalance still to be made up, and whether it was taken. */
  datatype Look = Look(p: nat, at: nat, left: int, taken: bool)

  /** A task is worth taking: it may be moved, is not too small to bother, and at most half of it is too much. */
  ghost predicate Worth(d: Domain, f: Facts, dst: nat, l: Look) {
    && Eligible(d, f, l.p, dst)
    && (f.load(l.at, l.p) < SMALL_LOAD && d.lbMin ==> d.failed > 0)
    && f.load(l.at, l.p) <= 2 * l.left + 1
  }

  /** The looks of a round, in order. */
  ghost function Looks(d: Domain, f: Facts, round: nat, s: State): seq<Look>
    requires d.groups != []
    decreases s.env.loopMax - s.env.loop
  {
    if !LooksNow(d, s) then []
    else
      var p, t := s.list[0], Turn(d, f, round, s);
      var taken := |t.0.moves| > |s.moves|;
      [Look(p, s.env.loop + 1, s.env.imbalance, taken)] + if t.1 then Looks(d, f, round, t.0) else []
  }

  ghost function LookLoad(f: Facts, l: Look): nat { if l.taken then f.load(l.at, l.p) else 0 }

  /** The moves that the looks make. */
  ghost function TakenBy(f: Facts, round: nat, dst: nat, looks: seq<Look>): seq<Move> {
    if looks == [] then []
    else if looks[0].taken then
      [Move(round, looks[0].p, dst, f.load(looks[0].at, looks[0].p))] + TakenBy(f, round, dst, looks[1..])
    else TakenBy(f, round, dst, looks[1..])
  }

  /** Each look counts, takes exactly what is worth taking, and leaves the rest of the imbalance to the next. */
  ghost predicate EachLook(d: Domain, f: Facts, e: Env, looks: seq<Look>) {
    && (forall k :: 0 <= k < |looks| ==> looks[k].at == e.loop + 1 + k)
    && (forall k :: 0 <= k < |looks| ==> (looks[k].taken <==> Worth(d, f, e.dst, looks[k])))
    && (looks != [] ==> looks[0].left == e.imbalance)
    && (forall k :: 0 <= k < |looks| - 1 ==> looks[k + 1].left == looks[k].left - LookLoad(f, looks[k]))
  }

  /** Tasks are looked at in the order of the list, and again only once all have been. */
  ghost predicate InListOrder(list: seq<nat>, looks: seq<Look>) {
    && (forall k :: 0 <= k < |looks| && k < |list| ==> looks[k].p == list[k])
    && (forall k :: 0 <= k < |looks| ==> looks[k].p in list)
  }

  /** A look that ends the round: the one taken makes up the imbalance, or one is enough. */
  ghost predicate LastLook(d: Domain, f: Facts, l: Look) {
    l.taken && ((d.preempt && d.idle == NewlyIdle) || l.left <= f.load(l.at, l.p))
  }

  /** Why a round ends after these looks, and no sooner; `done` if there is nothing left to take. */
  ghost predicate Ends(d: Domain, f: Facts, e: Env, looks: seq<Look>, done: bool, e': Env) {
    var n := |looks|;
    && (forall k :: 0 <= k < n - 1 ==> !LastLook(d, f, looks[k]))
    && (n > 0 ==> e.loop + n <= e.loopMax && e.loop + n <= e.loopBreak)
    && (if done || (n > 0 && LastLook(d, f, looks[n - 1])) then
          e'.loop == e.loop + n && e'.loopBreak == e.loopBreak && e'.needBreak == e.needBreak
        else
          && e'.loop == e.loop + n + 1
          && (e'.loop > e.loopMax ==> e'.needBreak == e.needBreak && e'.loopBreak == e.loopBreak)
          && (e'.loop <= e.loopMax ==>
                e'.loop > e.loopBreak && e'.needBreak && e'.loopBreak == e.loopBreak + MIGRATE_BREAK))
  }

  /** Allowed elsewhere only. */
  ghost predicate Pinned(f: Facts, dst: nat, p: nat) { p !in f.throttled && dst !in f.allowed(p) }

  ghost predicate Barred(f: Facts, dst: nat, p: nat) { p in f.throttled || dst !in f.allowed(p) }

  /** Some CPU of the local group still under consideration would do for p. */
  ghost predicate OtherDst(d: Domain, f: Facts, cpus: set<nat>, p: nat)
    requires d.groups != []
  {
    exists c :: c in d.groups[0] && c in cpus && c in f.allowed(p) && c < d.nrCpus
  }

  /** What the flags say of the tasks looked at. */
  ghost predicate FlagsMean(d: Domain, f: Facts, e: Env, looks: seq<Look>, e': Env)
    requires d.groups != []
  {
    && (e'.allPinned <==> e.allPinned && forall l :: l in looks ==> Barred(f, e.dst, l.p))
    && (e'.somePinned <==> e.somePinned || exists l :: l in looks && Pinned(f, e.dst, l.p))
    && (e'.dstPinned <==>
          e.dstPinned || (d.idle != NewlyIdle && exists l :: l in looks && MayGoElsewhere(d, f, e.dst, e.cpus, l.p)))
    && (e.dstPinned ==> e'.newDst == e.newDst)
    && (e'.dstPinned && !e.dstPinned ==> exists l :: l in looks && WouldGoTo(f, e.dst, l.p, e'.newDst))
  }

  ghost predicate MayGoElsewhere(d: Domain, f: Facts, dst: nat, cpus: set<nat>, p: nat)
    requires d.groups != []
  {
    Pinned(f, dst, p) && OtherDst(d, f, cpus, p)
  }

  ghost predicate WouldGoTo(f: Facts, dst: nat, p: nat, c: nat) { Pinned(f, dst, p) && c in f.allowed(p) }

  lemma {:induction false} LookedFlags(d: Domain, f: Facts, e: Env, l: Look)
    requires d.groups != []
    ensures FlagsMean(d, f, e, [l], Looked(d, f, e, l.p))
  {
    assert l in [l];
    if Pinned(f, e.dst, l.p) {
      var both := d.groups[0] * e.cpus * f.allowed(l.p);
      var cpu := FirstCpu(both, 0, d.nrCpus);
      if cpu < d.nrCpus { assert cpu in both; }
      if OtherDst(d, f, e.cpus, l.p) {
        var c :| c in d.groups[0] && c in e.cpus && c in f.allowed(l.p) && c < d.nrCpus;
        assert c in both;
      }
    }
  }

  /** Two stretches of looks, with the same destination and mask. */
  lemma {:induction false} FlagsAdd(d: Domain, f: Facts, e: Env, a: seq<Look>, e1: Env, b: seq<Look>, e2: Env)
    requires d.groups != [] && FlagsMean(d, f, e, a, e1) && FlagsMean(d, f, e1, b, e2)
    requires e1.dst == e.dst && e1.cpus == e.cpus
    ensures FlagsMean(d, f, e, a + b, e2)
  {
    assert forall l :: l in a + b <==> l in a || l in b;
  }

  /** A turn of the loop that looks at a task. */
  lemma {:induction false} TurnFlags(d: Domain, f: Facts, round: nat, s: State)
    requires d.groups != [] && LooksNow(d, s)
    ensures var l, t := Looks(d, f, round, s)[0], Turn(d, f, round, s).0;
            FlagsMean(d, f, s.env, [l], t.env) && t.env.dst == s.env.dst && t.env.cpus == s.env.cpus
  {
    LookedFlags(d, f, s.env.(loop := s.env.loop + 1), Looks(d, f, round, s)[0]);
  }

  lemma {:induction false} LoopFlags(d: Domain, f: Facts, round: nat, s: State)
    requires d.groups != []
    ensures FlagsMean(d, f, s.env, Looks(d, f, round, s), Loop(d, f, round, s).env)
    decreases s.env.loopMax - s.env.loop
  {
    var looks, r := Looks(d, f, round, s), Loop(d, f, round, s);
    if looks != [] {
      var t, l := Turn(d, f, round, s), looks[0];
      TurnFlags(d, f, round, s);
      if t.1 {
        LoopFlags(d, f, round, t.0);
        FlagsAdd(d, f, s.env, [l], t.0.env, Looks(d, f, round, t.0), r.env);
      } else {
        assert looks == [l];
      }
    }
  }

  /** What a turn that looks at a task does to the counters. */
  ghost predicate LookTurn(d: Domain, f: Facts, round: nat, s: State, l: Look, t: State, more: bool) {
    && s.list != [] && l == Look(s.list[0], s.env.loop + 1, s.env.imbalance, l.taken)
    && (l.taken <==> Worth(d, f, s.env.dst, l)) && (more <==> !LastLook(d, f, l))
    && t.env.imbalance == s.env.imbalance - LookLoad(f, l) && t.env.dst == s.env.dst
    && t.env.loop == s.env.loop + 1 <= s.env.loopMax == t.env.loopMax
    && t.env.loop <= s.env.loopBreak == t.env.loopBreak && t.env.needBreak == s.env.needBreak
    && t.moves == s.moves + TakenBy(f, round, s.env.dst, [l])
    && t.list == if l.taken then s.list[1..] else s.list[1..] + [s.list[0]]
  }

  predicate LooksNow(d: Domain, s: State) {
    !NothingToSteal(d, s) && s.env.loop + 1 <= s.env.loopMax && s.env.loop + 1 <= s.env.loopBreak
  }

  lemma {:induction false} TurnLooks(d: Domain, f: Facts, round: nat, s: State, l: Look, t: State, more: bool)
    requires d.groups != [] && LooksNow(d, s) && Turn(d, f, round, s) == (t, more)
    requires l == Look(s.list[0], s.env.loop + 1, s.env.imbalance, |t.moves| > |s.moves|)
    ensures LookTurn(d, f, round, s, l, t, more)
  {
    assert l.taken <==> Worth(d, f, s.env.dst, l);
    assert s.moves + [] == s.moves;
  }

  lemma {:induction false} EachLookMore(d: Domain, f: Facts, round: nat, s: State, l: Look, t: State, more: bool,
                                        rest: seq<Look>)
    requires LookTurn(d, f, round, s, l, t, more) && EachLook(d, f, t.env, rest)
    ensures EachLook(d, f, s.env, [l] + rest)
  {
    var looks := [l] + rest;
    forall k | 0 <= k < |looks| - 1 ensures looks[k + 1].left == looks[k].left - LookLoad(f, looks[k]) {
      if k > 0 { assert rest[k].left == rest[k - 1].left - LookLoad(f, rest[k - 1]); }
    }
  }

  lemma {:induction false} InListOrderMore(d: Domain, f: Facts, round: nat, s: State, l: Look, t: State, more: bool,
                                           rest: seq<Look>)
    requires LookTurn(d, f, round, s, l, t, more) && InListOrder(t.list, rest)
    ensures InListOrder(s.list, [l] + rest)
  {
    assert forall p :: p in t.list ==> p in s.list;
  }

  lemma {:induction false} EndsMore(d: Domain, f: Facts, round: nat, s: State, l: Look, t: State, rest: seq<Look>,
                                    r: State)
    requires LookTurn(d, f, round, s, l, t, true) && Ends(d, f, t.env, rest, NothingToSteal(d, r), r.env)
    ensures Ends(d, f, s.env, [l] + rest, NothingToSteal(d, r), r.env)
  {
    var looks := [l] + rest;
    forall k | 0 <= k < |looks| - 1 ensures !LastLook(d, f, looks[k]) {
      if k > 0 { assert looks[k] == rest[k - 1]; }
    }
    if rest != [] { assert looks[|looks| - 1] == rest[|rest| - 1]; }
  }

  lemma {:induction false} TakenByMore(f: Facts, round: nat, dst: nat, l: Look, rest: seq<Look>)
    ensures TakenBy(f, round, dst, [l] + rest) == TakenBy(f, round, dst, [l]) + TakenBy(f, round, dst, rest)
  {
    assert ([l] + rest)[1..] == rest && [l][1..] == [];
  }

  ghost predicate LoopExplained(d: Domain, f: Facts, round: nat, s: State, looks: seq<Look>, r: State) {
    && EachLook(d, f, s.env, looks) && InListOrder(s.list, looks)
    && Ends(d, f, s.env, looks, NothingToSteal(d, r), r.env)
    && r.moves == s.moves + TakenBy(f, round, s.env.dst, looks)
  }

  lemma {:induction false} NoLook(d: Domain, f: Facts, round: nat, s: State)
    requires d.groups != [] && !LooksNow(d, s)
    ensures Looks(d, f, round, s) == [] && LoopExplained(d, f, round, s, [], Loop(d, f, round, s))
  {
    assert s.moves + [] == s.moves;
  }

  lemma {:induction false} OneLook(d: Domain, f: Facts, round: nat, s: State, l: Look, t: State)
    requires LookTurn(d, f, round, s, l, t, false)
    ensures LoopExplained(d, f, round, s, [l], t)
  {
  }

  lemma {:induction false} LookAndMore(d: Domain, f: Facts, round: nat, s: State, l: Look, t: State, rest: seq<Look>,
                                       r: State)
    requires LookTurn(d, f, round, s, l, t, true) && LoopExplained(d, f, round, t, rest, r)
    ensures LoopExplained(d, f, round, s, [l] + rest, r)
  {
    assert EachLook(d, f, s.env, [l] + rest) by { EachLookMore(d, f, round, s, l, t, true, rest); }
    assert InListOrder(s.list, [l] + rest) by { InListOrderMore(d, f, round, s, l, t, true, rest); }
    assert Ends(d, f, s.env, [l] + rest, NothingToSteal(d, r), r.env) by { EndsMore(d, f, round, s, l, t, rest, r); }
    TakesMore(f, round, s, l, t, rest, r);
  }

  lemma {:induction false} TakesMore(f: Facts, round: nat, s: State, l: Look, t: State, rest: seq<Look>, r: State)
    requires t.env.dst == s.env.dst && t.moves == s.moves + TakenBy(f, round, s.env.dst, [l])
    requires r.moves == t.moves + TakenBy(f, round, t.env.dst, rest)
    ensures r.moves == s.moves + TakenBy(f, round, s.env.dst, [l] + rest)
  {
    TakenByMore(f, round, s.env.dst, l, rest);
  }

  /** What the loop looks at, what it takes, and why it ends. */
  lemma {:induction false} LoopLooks(d: Domain, f: Facts, round: nat, s: State)
    requires d.groups != []
    ensures LoopExplained(d, f, round, s, Looks(d, f, round, s), Loop(d, f, round, s))
    decreases s.env.loopMax - s.env.loop
  {
    if !LooksNow(d, s) {
      NoLook(d, f, round, s);
    } else {
      var looks, t := Looks(d, f, round, s), Turn(d, f, round, s);
      TurnLooks(d, f, round, s, looks[0], t.0, t.1);
      if t.1 {
        LoopLooks(d, f, round, t.0);
        LookAndMore(d, f, round, s, looks[0], t.0, Looks(d, f, round, t.0), Loop(d, f, round, t.0));
      } else {
        OneLook(d, f, round, s, looks[0], t.0);
        assert looks == [looks[0]];
      }
    }
  }

  // ----- attach_tasks -----

  function Reversed(s: seq<nat>): seq<nat> {
    if s == [] then [] else Reversed(s[1..]) + [s[0]]
  }

  /** Detaching pushes to the front and attaching takes from it: the tasks arrive in the order they left. */
  ghost predicate InOrder(tasks: seq<nat>, moves: seq<Move>) {
    Reversed(tasks) == Tasks(moves)
  }

  lemma {:induction false} OrderKept(d: Domain, f: Facts, round: nat, s: State)
    requires d.groups != [] && s.list != [] && InOrder(s.tasks, s.moves)
    ensures InOrder(Pass(d, f, round, s).tasks, Pass(d, f, round, s).moves)
  {
    var r := Pass(d, f, round, s);
    if |r.moves| > |s.moves| {
      assert r.tasks[1..] == s.tasks;
      assert Tasks(r.moves) == Tasks(s.moves) + [s.list[0]];
    }
  }

  lemma {:induction false} LoopInOrder(d: Domain, f: Facts, round: nat, s: State)
    requires d.groups != [] && InOrder(s.tasks, s.moves)
    ensures InOrder(Loop(d, f, round, s).tasks, Loop(d, f, round, s).moves)
    decreases s.env.loopMax - s.env.loop
  {
    if !NothingToSteal(d, s) {
      var c := s.(env := s.env.(loop := s.env.loop + 1));
      if c.env.loop <= c.env.loopMax && c.env.loop <= c.env.loopBreak {
        OrderKept(d, f, round, c);
        var t := Turn(d, f, round, s);
        if t.1 { LoopInOrder(d, f, round, t.0); }
      }
    }
  }

  lemma {:induction false} ReversedElements(s: seq<nat>)
    ensures multiset(Reversed(s)) == multiset(s)
    decreases |s|
  {
    if s != [] {
      ReversedElements(s[1..]);
      assert s == [s[0]] + s[1..];
    }
  }

  lemma {:induction false} MovedWereListed(list: seq<nat>, r: State, i: nat)
    requires multiset(r.list) + multiset(r.tasks) == multiset(list) && InOrder(r.tasks, r.moves) && i < |r.moves|
    ensures r.moves[i].p in list
  {
    ReversedElements(r.tasks);
    assert Tasks(r.moves)[i] in multiset(Tasks(r.moves));
    assert r.moves[i].p in multiset(list);
  }

  // ----- Rounds -----

  /** A move made by a round: of a task that round found at the source, allowed where it was sent. */
  ghost predicate MoveOf(d: Domain, world: nat -> World, m: Move)
    requires d.groups != []
  {
    && m.p in world(m.round).list && m.dst in d.groups[0]
    && Eligible(d, world(m.round).facts, m.p, m.dst)
  }

  ghost predicate MovesOf(d: Domain, world: nat -> World, moves: seq<Move>)
    requires d.groups != []
  {
    forall i :: 0 <= i < |moves| ==> MoveOf(d, world, moves[i])
  }

  /** What a round does to the environment, with the moves it makes. */
  ghost predicate RoundDone(d: Domain, e: Env, e': Env, m: seq<Move>)
    requires d.groups != []
  {
    && e'.dst == e.dst && e'.cpus == e.cpus && e'.loopMax == e.loopMax && Ready(d, e')
    && (e'.allPinned ==> e.allPinned && m == [])
    && (e'.needBreak ==> e.loop < e'.loop <= e'.loopMax)
    && e'.imbalance == e.imbalance - Load(m)
    && (if e.imbalance > 0 then Load(m) <= 2 * e.imbalance + 1 else m == [])
  }

  lemma {:induction false} DetachedDone(d: Domain, world: nat -> World, round: nat, s: State)
    requires d.groups != [] && Ready(d, s.env) && !s.env.needBreak && s.tasks == [] && s.moves == []
    requires s.list == world(round).list
    ensures var r := Detached(d, world(round).facts, round, s);
            && RoundDone(d, s.env, r.env, r.moves) && MovesOf(d, world, r.moves) && InOrder(r.tasks, r.moves)
            && multiset(r.list) + multiset(r.tasks) == multiset(s.list)
            && (d.idle != NotIdle && r.moves != [] ==> r.nr >= 1)
  {
    var f := world(round).facts;
    assert multiset(s.list) + multiset(s.tasks) == multiset(s.list);
    assert InOrder(s.tasks, s.moves);
    if s.env.imbalance > 0 {
      var m := LoopKeeps(d, f, round, s);
      LoopInOrder(d, f, round, s);
      var r := Loop(d, f, round, s);
      assert s.moves + m == m;
      forall i | 0 <= i < |m| ensures MoveOf(d, world, m[i]) {
        assert RightMove(d, f, round, s, m[i]);
        MovedWereListed(s.list, r, i);
      }
    }
  }

  /** Nothing is left to take once n tasks have been taken. */
  predicate Drained(d: Domain, w: World, n: nat) {
    n == |w.list| || (d.idle != NotIdle && w.nr - n <= 1)
  }

  /** What a round looked at, what it took of that and why it ended. */
  ghost predicate RoundExplained(d: Domain, w: World, round: nat, e: Env, looks: seq<Look>, m: seq<Move>, e': Env)
    requires d.groups != []
  {
    if e.imbalance <= 0 then looks == [] && m == [] && e' == e
    else
      && EachLook(d, w.facts, e, looks) && InListOrder(w.list, looks)
      && Ends(d, w.facts, e, looks, Drained(d, w, |m|), e')
      && m == TakenBy(w.facts, round, e.dst, looks) && FlagsMean(d, w.facts, e, looks, e')
  }

  lemma {:induction false} DrainedIs(d: Domain, w: World, r: State, n: nat)
    requires multiset(r.list) + multiset(r.tasks) == multiset(w.list) && |r.tasks| == n && r.nr == w.nr - n
    ensures NothingToSteal(d, r) <==> Drained(d, w, n)
  {
    assert |multiset(r.list) + multiset(r.tasks)| == |r.list| + |r.tasks|;
    assert |multiset(w.list)| == |w.list|;
  }

  ghost function RoundLooks(d: Domain, w: World, round: nat, e: Env): seq<Look>
    requires d.groups != []
  {
    if e.imbalance <= 0 then [] else Looks(d, w.facts, round, State(e, w.list, w.nr, [], []))
  }

  lemma {:induction false} DetachedExplained(d: Domain, w: World, round: nat, s: State)
    requires d.groups != [] && s == State(s.env, w.list, w.nr, [], [])
    ensures var r := Detached(d, w.facts, round, s);
            RoundExplained(d, w, round, s.env, RoundLooks(d, w, round, s.env), r.moves, r.env)
  {
    if s.env.imbalance > 0 {
      var looks, r := Looks(d, w.facts, round, s), Loop(d, w.facts, round, s);
      var m := LoopKeeps(d, w.facts, round, s);
      assert s.moves + m == m;
      assert multiset(s.list) + multiset(s.tasks) == multiset(s.list);
      DrainedIs(d, w, r, |m|);
      LoopLooks(d, w.facts, round, s);
      assert s.moves + TakenBy(w.facts, round, s.env.dst, looks) == TakenBy(w.facts, round, s.env.dst, looks);
      LoopFlags(d, w.facts, round, s);
    }
  }

  /** The first task of the list is taken if it is worth taking, there is something to make up and budget left. */
  lemma {:induction false} FirstWorthIsTaken(d: Domain, w: World, round: nat, e: Env, looks: seq<Look>, m: seq<Move>,
                                             e': Env, taken: bool)
    requires d.groups != [] && RoundExplained(d, w, round, e, looks, m, e')
    requires e.imbalance > 0 && w.list != [] && (d.idle != NotIdle ==> w.nr > 1)
    requires e.loop < e.loopMax && e.loop < e.loopBreak
    requires Worth(d, w.facts, e.dst, Look(w.list[0], e.loop + 1, e.imbalance, taken))
    ensures m != [] && m[0] == Move(round, w.list[0], e.dst, w.facts.load(e.loop + 1, w.list[0]))
  {
    assert looks != [];
    assert looks[0].p == w.list[0] && looks[0].taken;
  }

  /** A round that takes nothing, and had the budget to look at all tasks, found none worth taking. */
  lemma {:induction false} NothingTakenNothingWorth(d: Domain, w: World, round: nat, e: Env, looks: seq<Look>, e': Env,
                                                    k: nat, taken: bool)
    requires d.groups != [] && RoundExplained(d, w, round, e, looks, [], e')
    requires e.imbalance > 0 && k < |w.list| && (d.idle != NotIdle ==> w.nr > 1)
    requires e.loop + |w.list| <= e.loopMax && e.loop + |w.list| <= e.loopBreak
    ensures !Worth(d, w.facts, e.dst, Look(w.list[k], e.loop + 1 + k, e.imbalance, taken))
  {
    NoneTaken(w.facts, round, e.dst, looks);
    assert |looks| >= |w.list|;
    SameLeft(d, w.facts, e, looks, k);
    assert looks[k].p == w.list[k] && !looks[k].taken;
  }

  lemma {:induction false} NoneTaken(f: Facts, round: nat, dst: nat, looks: seq<Look>)
    requires TakenBy(f, round, dst, looks) == []
    ensures forall k :: 0 <= k < |looks| ==> !looks[k].taken
    decreases |looks|
  {
    if looks != [] {
      NoneTaken(f, round, dst, looks[1..]);
      forall k | 0 <= k < |looks| ensures !looks[k].taken {
        if k > 0 { assert looks[k] == looks[1..][k - 1]; }
      }
    }
  }

  lemma {:induction false} SameLeft(d: Domain, f: Facts, e: Env, looks: seq<Look>, k: nat)
    requires EachLook(d, f, e, looks) && k < |looks| && forall i :: 0 <= i < |looks| ==> !looks[i].taken
    ensures looks[k].left == e.imbalance
    decreases k
  {
    if k > 0 { SameLeft(d, f, e, looks, k - 1); }
  }

  /** For one source queue, all rounds together take exactly what left the imbalance, at most twice it plus one. */
  ghost predicate WithinImbalance(start: int, left: int, moves: seq<Move>) {
    left == start - Load(moves) && if start > 0 then Load(moves) <= 2 * start + 1 else moves == []
  }

  lemma {:induction false} AnotherRound(d: Domain, start: int, e: Env, e': Env, moves: seq<Move>, m: seq<Move>)
    requires d.groups != [] && WithinImbalance(start, e.imbalance, moves) && RoundDone(d, e, e', m)
    ensures WithinImbalance(start, e'.imbalance, moves + m)
  {
    LoadAdd(moves, m);
  }

  class Balancer {
    var st: State
    var dstList: seq<nat>
    ghost var log: seq<Sitting>

    constructor ()
      ensures log == []
    {
      st := State(Env(0, {}, 0, 0, 0, 0, 0, false, false, false, false), [], 0, [], []);
      dstList := [];
      log := [];
    }

    method CanMigrateTask(d: Domain, f: Facts, p: nat) returns (ok: bool)
      requires d.groups != []
      modifies this`st
      ensures st == old(st).(env := Looked(d, f, old(st).env, p))
      ensures ok <==> && p !in f.throttled && old(st).env.dst in f.allowed(p) && p !in f.running
                      && (p !in f.hot || d.failed > d.niceTries)
    {
      if p in f.throttled { return false; }
      if st.env.dst !in f.allowed(p) {
        st := st.(env := st.env.(somePinned := true));
        if d.idle == NewlyIdle || st.env.dstPinned { return false; }
        var both := d.groups[0] * st.env.cpus * f.allowed(p);
        var cpu := 0;
        while cpu < d.nrCpus && cpu !in both
          invariant FirstCpu(both, cpu, d.nrCpus) == FirstCpu(both, 0, d.nrCpus)
        {
          cpu := cpu + 1;
        }
        if cpu < d.nrCpus {
          st := st.(env := st.env.(dstPinned := true, newDst := cpu));
        }
        return false;
      }
      st := st.(env := st.env.(allPinned := false));
      if p in f.running { return false; }
      return p !in f.hot || d.failed > d.niceTries;
    }

    method DetachTasks(d: Domain, f: Facts, round: nat)
      requires d.groups != []
      modifies this`st
      ensures st == Detached(d, f, round, old(st))
    {
      if st.env.imbalance <= 0 { return; }
      ghost var goal := Loop(d, f, round, st);
      while st.list != []
        invariant Loop(d, f, round, st) == goal
        decreases st.env.loopMax - st.env.loop
      {
        if d.idle != NotIdle && st.nr <= 1 { break; }
        var more := OneTurn(d, f, round);
        if !more { break; }
      }
    }

    /** One turn of the loop, and whether it goes round again. */
    method OneTurn(d: Domain, f: Facts, round: nat) returns (more: bool)
      requires d.groups != [] && st.list != []
      modifies this`st
      ensures (st, more) == Turn(d, f, round, old(st))
    {
      st := st.(env := st.env.(loop := st.env.loop + 1));
      if st.env.loop > st.env.loopMax { return false; }
      if st.env.loop > st.env.loopBreak {
        st := st.(env := st.env.(loopBreak := st.env.loopBreak + MIGRATE_BREAK, needBreak := true));
        return false;
      }
      var taken := TakeOrRotate(d, f, round);
      return !(taken && ((d.preempt && d.idle == NewlyIdle) || st.env.imbalance <= 0));
    }

    /** The first task is detached, or moved to the tail of its list. */
    method TakeOrRotate(d: Domain, f: Facts, round: nat) returns (taken: bool)
      requires d.groups != [] && st.list != []
      modifies this`st
      ensures st == Pass(d, f, round, old(st)) && taken == (|st.moves| > |old(st).moves|)
    {
      var p, load := st.list[0], f.load(st.env.loop, st.list[0]);
      taken := CanMigrateTask(d, f, p);
      if taken {
        taken := !(d.lbMin && load < SMALL_LOAD && d.failed == 0) && load / 2 <= st.env.imbalance;
      }
      if taken {
        st := st.(list := st.list[1..], nr := st.nr - 1, tasks := [p] + st.tasks,
                  moves := st.moves + [Move(round, p, st.env.dst, load)],
                  env := st.env.(imbalance := st.env.imbalance - load));
      } else {
        st := st.(list := st.list[1..] + [p]);
      }
    }

    method AttachTasks()
      modifies this
      ensures st == old(st).(tasks := []) && log == old(log)
      ensures dstList == Reversed(old(st).tasks) + old(dstList)
    {
      ghost var goal := Reversed(st.tasks) + dstList;
      while st.tasks != []
        invariant st == old(st).(tasks := st.tasks) && log == old(log)
        invariant Reversed(st.tasks) + dstList == goal
        decreases |st.tasks|
      {
        var p := st.tasks[0];
        assert Reversed(st.tasks) + dstList == Reversed(st.tasks[1..]) + ([p] + dstList);
        st := st.(tasks := st.tasks[1..]);
        dstList := [p] + dstList;
      }
    }

    /**
     * One round: every task found at the source is afterwards at the source or at the destination, once; the
     * moved ones arrive in the order they were taken; an idle balancer leaves the source something to run.
     */
    method Round(d: Domain, world: nat -> World, round: nat) returns (m: seq<Move>, ghost looks: seq<Look>)
      requires d.groups != [] && Ready(d, st.env) && !st.env.needBreak
      modifies this
      ensures RoundDone(d, old(st).env, st.env, m) && MovesOf(d, world, m) && log == old(log)
      ensures dstList == Tasks(m) + world(round).dstList
      ensures multiset(st.list) + multiset(dstList) == multiset(world(round).list) + multiset(world(round).dstList)
      ensures d.idle != NotIdle && m != [] ==> st.nr >= 1
      ensures RoundExplained(d, world(round), round, old(st).env, looks, m, st.env)
    {
      var w := world(round);
      st := State(st.env, w.list, w.nr, [], []);
      dstList := w.dstList;
      looks := RoundLooks(d, w, round, st.env);
      DetachedDone(d, world, round, st);
      DetachedExplained(d, w, round, st);
      DetachTasks(d, w.facts, round);
      m := st.moves;
      ReversedElements(st.tasks);
      if |m| > 0 {
        AttachTasks();
      } else {
        assert st.tasks == [] by { assert |Reversed(st.tasks)| == 0; }
        assert [] + dstList == dstList;
      }
    }

    /** One round, and its record. */
    method OneRound(d: Domain, world: nat -> World, ghost e: Env, ghost from: nat, to: nat, moves: seq<Move>,
                    ghost recs: seq<Record>)
      returns (moves': seq<Move>, ghost recs': seq<Record>)
      requires d.groups != [] && Going(d, world, e, from, recs, moves, st.env) && to == from + |recs|
      modifies this
      ensures log == old(log) && |recs'| == |recs| + 1 && Paused(d, world, e, from, recs', moves', st.env)
      ensures RoundDone(d, old(st).env, st.env, recs'[|recs|].moves)
    {
      ghost var was := st.env;
      var m, looks := Round(d, world, to);
      ghost var r := Record(to, was, looks, m, st.env);
      PauseAfter(d, world, e, from, recs, moves, was, r);
      moves', recs' := moves + m, recs + [r];
    }

    /**
     * The more_balance loop: it ends, because a break uses up loop budget and a new destination uses up a CPU.
     * The destinations given up all belong to the local group.
     */
    method MoreBalance(d: Domain, world: nat -> World, from: nat)
      returns (moves: seq<Move>, to: nat, ghost recs: seq<Record>)
      requires d.groups != [] && Ready(d, st.env) && !st.env.needBreak
      modifies this
      ensures Ready(d, st.env) && !st.env.needBreak && log == old(log)
      ensures st.env.cpus <= old(st).env.cpus && old(st).env.cpus - st.env.cpus <= d.groups[0]
      ensures WithinImbalance(old(st).env.imbalance, st.env.imbalance, moves) && MovesOf(d, world, moves)
      ensures st.env.allPinned ==> moves == []
      ensures Rounds(d, world, old(st).env, from, recs, st.env) && moves == AllMoves(recs) && to == from + |recs|
    {
      moves, to, recs := [], from, [];
      while true
        invariant Going(d, world, old(st).env, from, recs, moves, st.env) && log == old(log) && to == from + |recs|
        decreases |st.env.cpus|, st.env.loopMax - st.env.loop
      {
        moves, recs := OneRound(d, world, old(st).env, from, to, moves, recs);
        to := to + 1;
        ghost var e := st.env;
        if st.env.needBreak {
          st := st.(env := st.env.(needBreak := false));
        } else if st.env.dstPinned && st.env.imbalance > 0 {
          OneFewer(st.env.cpus, st.env.dst);
          st := st.(env := st.env.(cpus := st.env.cpus - {st.env.dst}, dst := st.env.newDst, dstPinned := false,
                                   loop := 0, loopBreak := MIGRATE_BREAK));
        } else {
          break;
        }
        GoOnAfter(d, world, old(st).env, from, recs, moves, e);
      }
    }

    /** All rounds against the source the world names, with a fresh imbalance and loop budget. */
    method FromSource(d: Domain, world: nat -> World, from: nat)
      returns (moves: seq<Move>, to: nat, ghost recs: seq<Record>)
      requires d.groups != [] && Ready(d, st.env) && !st.env.needBreak && world(from).nr > 1
      requires world(from).src in st.env.cpus && world(from).src !in d.groups[0]
      modifies this
      ensures Ready(d, st.env) && !st.env.needBreak && log == old(log)
      ensures st.env.cpus <= old(st).env.cpus && world(from).src in st.env.cpus
      ensures st.env.allPinned ==> moves == []
      ensures to == from + 1 + |recs|
      ensures var x := Sitting(from, world(from).src, old(st).env, recs, moves, st.env);
              SittingRight(d, world, old(st).env.cpus, x) && SittingTraced(d, world, x)
    {
      var w := world(from);
      st := st.(env := st.env.(imbalance := w.imbalance, allPinned := true,
                               loopMax := if w.nrMigrate < w.nr then w.nrMigrate else w.nr));
      moves, to, recs := MoreBalance(d, world, from + 1);
    }

    /** The source the world names: left alone if it has one task at most. */
    method TrySource(d: Domain, world: nat -> World, n: nat) returns (moves: seq<Move>, to: nat, ghost x: Sitting)
      requires d.groups != [] && Ready(d, st.env) && !st.env.needBreak
      requires world(n).src in st.env.cpus && world(n).src !in d.groups[0]
      modifies this
      ensures log == old(log) && x.at == n && x.src == world(n).src && x.before == old(st).env
      ensures x.after == st.env && x.moves == moves
      ensures SittingRight(d, world, old(st).env.cpus, x) && SittingTraced(d, world, x)
      ensures Ready(d, st.env) && !st.env.needBreak && st.env.cpus <= old(st).env.cpus && x.src in st.env.cpus
      ensures world(n).nr > 1 ==> to == n + 1 + |x.recs| && (st.env.allPinned ==> moves == [])
    {
      ghost var e := st.env;
      ghost var recs: seq<Record> := [];
      moves, to := [], n;
      if world(n).nr > 1 {
        moves, to, recs := FromSource(d, world, n);
      } else {
        st := st.(env := st.env.(imbalance := world(n).imbalance));
      }
      x := Sitting(n, world(n).src, e, recs, moves, st.env);
    }

    /** should_we_balance. */
    method TurnToBalance(d: Domain, w: World) returns (ok: bool)
      ensures ok <==> ShouldWeBalance(d, w, st.env)
    {
      if st.env.dst !in st.env.cpus { return false; }
      if d.idle == NewlyIdle { return true; }
      var balanceCpu, cpu := w.balanceCpu, 0;
      while cpu < d.nrCpus
        invariant cpu <= d.nrCpus && balanceCpu == w.balanceCpu
        invariant forall c :: c in w.idleCpus * st.env.cpus ==> c >= cpu
      {
        if cpu in w.idleCpus * st.env.cpus {
          balanceCpu := cpu;
          break;
        }
        cpu := cpu + 1;
      }
      return balanceCpu == st.env.dst;
    }

    /** From `redo` to the next jump back there, or to the end. */
    method Attempt(d: Domain, world: nat -> World, n: nat, ghost e0: Env) returns (out: Option<Outcome>, to: nat)
      requires d.Valid() && Trying(d, world, e0, log, st.env) && n == RoundAt(log, |log|)
      modifies this
      ensures out.Some? ==> Verdict(d, world, e0, log, out.value)
      ensures out.None? ==> Trying(d, world, e0, log, st.env) && to == RoundAt(log, |log|)
      ensures out.None? ==> |st.env.cpus| < |old(st).env.cpus|
    {
      to := n;
      var w := world(n);
      var ours := TurnToBalance(d, w);
      if !ours {
        NothingToTry(d, world, e0, log, st.env);
        return Some(Balanced), to;
      }
      if w.group == 0 || w.group >= |d.groups| || w.src !in d.groups[w.group] * st.env.cpus {
        NothingToTry(d, world, e0, log, st.env);
        return Some(Balanced), to;
      }
      assert d.groups[0] !! d.groups[w.group];
      assert w.src != st.env.dst;
      ghost var e, was := st.env, log;
      var moves, to', x := TrySource(d, world, n);
      log := log + [x];
      TriedOnce(d, world, e0, was, e, x);
      if w.nr <= 1 || !st.env.allPinned { return Some(Finished(|moves|)), to; }
      OneFewer(st.env.cpus, w.src);
      SubsetSize(st.env.cpus, e.cpus);
      st := st.(env := st.env.(cpus := st.env.cpus - {w.src}));
      if st.env.cpus <= d.groups[0] { return Some(AllPinned), to; }
      st := st.(env := st.env.(loop := 0, loopBreak := MIGRATE_BREAK));
      return None, to';
    }

    /**
     * load_balance up to the point where it counts what was moved. It ends, because every redo gives up a CPU.
     * No source is tried twice, none of them is in the destination's group, and only the last one loses tasks.
     */
    method LoadBalance(d: Domain, thisCpu: nat, active: set<nat>, world: nat -> World) returns (out: Outcome)
      requires d.Valid() && thisCpu in d.groups[0]
      modifies this
      ensures Verdict(d, world, FirstEnv(d, thisCpu, active), log, out)
    {
      st := State(Env(thisCpu, d.span * active, 0, 0, MIGRATE_BREAK, 0, 0, false, false, false, false), [], 0, [], []);
      log := [];
      ghost var e0 := st.env;
      var n := 0;
      while true
        invariant Trying(d, world, e0, log, st.env) && n == RoundAt(log, |log|)
        decreases |st.env.cpus|
      {
        var r, to := Attempt(d, world, n, e0);
        if r.Some? { return r.value; }
        n := to;
      }
    }
  }

  // ----- The trace of a balancing pass -----

  /** One round: what it started from, what it looked at and took, and what it left. */
  datatype Record = Record(round: nat, before: Env, looks: seq<Look>, moves: seq<Move>, after: Env)

  ghost predicate RecordRight(d: Domain, world: nat -> World, r: Record)
    requires d.groups != []
  {
    && RoundDone(d, r.before, r.after, r.moves)
    && RoundExplained(d, world(r.round), r.round, r.before, r.looks, r.moves, r.after)
  }

  /** Another round follows: after a break, or for another destination if there is still something to make up. */
  ghost predicate GoesOn(e: Env) { e.needBreak || (e.dstPinned && e.imbalance > 0) }

  ghost function Onward(e: Env): Env {
    if e.needBreak then e.(needBreak := false)
    else e.(cpus := e.cpus - {e.dst}, dst := e.newDst, dstPinned := false, loop := 0, loopBreak := MIGRATE_BREAK)
  }

  ghost predicate RecordAt(d: Domain, world: nat -> World, from: nat, recs: seq<Record>, k: nat)
    requires d.groups != [] && k < |recs|
  {
    recs[k].round == from + k && RecordRight(d, world, recs[k])
  }

  ghost predicate FollowsOn(e: Env, recs: seq<Record>, k: nat)
    requires k < |recs|
  {
    if k == 0 then recs[k].before == e
    else GoesOn(recs[k - 1].after) && recs[k].before == Onward(recs[k - 1].after)
  }

  /** The rounds against one source follow on each other. */
  ghost predicate Chained(d: Domain, world: nat -> World, e: Env, from: nat, recs: seq<Record>)
    requires d.groups != []
  {
    && (forall k :: 0 <= k < |recs| ==> RecordAt(d, world, from, recs, k))
    && (forall k :: 0 <= k < |recs| ==> FollowsOn(e, recs, k))
  }

  /** All of them, up to the one after which nothing follows. */
  ghost predicate Rounds(d: Domain, world: nat -> World, e: Env, from: nat, recs: seq<Record>, e': Env)
    requires d.groups != []
  {
    Chained(d, world, e, from, recs) && recs != [] && e' == recs[|recs| - 1].after && !GoesOn(e')
  }

  ghost function AllMoves(recs: seq<Record>): seq<Move> {
    if recs == [] then [] else AllMoves(recs[..|recs| - 1]) + recs[|recs| - 1].moves
  }

  /** Where the rounds so far have led. */
  ghost predicate Reached(d: Domain, world: nat -> World, e: Env, from: nat, recs: seq<Record>, moves: seq<Move>,
                          e': Env)
    requires d.groups != []
  {
    && Ready(d, e') && e'.cpus <= e.cpus && e.cpus - e'.cpus <= d.groups[0]
    && WithinImbalance(e.imbalance, e'.imbalance, moves) && MovesOf(d, world, moves)
    && (e'.allPinned ==> moves == []) && Chained(d, world, e, from, recs) && moves == AllMoves(recs)
  }

  /** Before the next round. */
  ghost predicate Going(d: Domain, world: nat -> World, e: Env, from: nat, recs: seq<Record>, moves: seq<Move>, e': Env)
    requires d.groups != []
  {
    && Reached(d, world, e, from, recs, moves, e') && !e'.needBreak
    && if recs == [] then e' == e else GoesOn(recs[|recs| - 1].after) && e' == Onward(recs[|recs| - 1].after)
  }

  /** After a round. */
  ghost predicate Paused(d: Domain, world: nat -> World, e: Env, from: nat, recs: seq<Record>, moves: seq<Move>,
                          e': Env)
    requires d.groups != []
  {
    Reached(d, world, e, from, recs, moves, e') && recs != [] && e' == recs[|recs| - 1].after
  }

  lemma {:induction false} PauseAfter(d: Domain, world: nat -> World, e: Env, from: nat, recs: seq<Record>,
                                      moves: seq<Move>, now: Env, r: Record)
    requires d.groups != [] && Going(d, world, e, from, recs, moves, now) && RecordRight(d, world, r)
    requires r.before == now && r.round == from + |recs| && MovesOf(d, world, r.moves)
    ensures Paused(d, world, e, from, recs + [r], moves + r.moves, r.after)
  {
    AnotherRound(d, e.imbalance, now, r.after, moves, r.moves);
    OneMoreRecord(d, world, e, from, recs, r);
  }

  lemma {:induction false} GoOnAfter(d: Domain, world: nat -> World, e: Env, from: nat, recs: seq<Record>,
                                     moves: seq<Move>, now: Env)
    requires d.groups != [] && Paused(d, world, e, from, recs, moves, now) && GoesOn(now)
    ensures Going(d, world, e, from, recs, moves, Onward(now))
  {
  }

  lemma {:induction false} OneMoreRecord(d: Domain, world: nat -> World, e: Env, from: nat, recs: seq<Record>,
                                         r: Record)
    requires d.groups != [] && Chained(d, world, e, from, recs) && RecordRight(d, world, r)
    requires r.round == from + |recs| && FollowsOn(e, recs + [r], |recs|)
    ensures Chained(d, world, e, from, recs + [r]) && AllMoves(recs + [r]) == AllMoves(recs) + r.moves
  {
    var more := recs + [r];
    assert more[..|more| - 1] == recs;
    forall k | 0 <= k < |more| ensures RecordAt(d, world, from, more, k) && FollowsOn(e, more, k) {
      if k < |recs| { assert RecordAt(d, world, from, recs, k) && FollowsOn(e, recs, k); }
    }
  }

  /** All rounds against the source queue that the world named in round `at`. */
  datatype Sitting = Sitting(at: nat, src: nat, before: Env, recs: seq<Record>, moves: seq<Move>, after: Env)

  /** A queue with one task at most is left alone; otherwise the rounds start with what the world says of it. */
  ghost predicate SittingTraced(d: Domain, world: nat -> World, x: Sitting)
    requires d.groups != []
  {
    var w := world(x.at);
    x.src == w.src &&
    if w.nr <= 1 then x.recs == [] && x.moves == [] && x.after == x.before.(imbalance := w.imbalance)
    else
      Rounds(d, world, Start(w, x.before), x.at + 1, x.recs, x.after) && x.moves == AllMoves(x.recs)
  }

  /** The imbalance that was found, and as many looks as there are tasks, within the limit. */
  ghost function Start(w: World, e: Env): Env
    requires w.nr > 1
  {
    e.(imbalance := w.imbalance, allPinned := true, loopMax := if w.nrMigrate < w.nr then w.nrMigrate else w.nr)
  }

  /** The world names a queue of another group that is still under consideration. */
  ghost predicate NamesSource(d: Domain, w: World, e: Env) {
    0 < w.group < |d.groups| && w.src in d.groups[w.group] && w.src in e.cpus
  }

  /** All tasks of the source are pinned elsewhere, and there is another source to try. */
  ghost predicate Redone(d: Domain, world: nat -> World, x: Sitting)
    requires d.groups != []
  {
    world(x.at).nr > 1 && NobodyCould(world, x) && !(x.after.cpus - {x.src} <= d.groups[0])
  }

  ghost function FirstEnv(d: Domain, thisCpu: nat, active: set<nat>): Env {
    Env(thisCpu, d.span * active, 0, 0, MIGRATE_BREAK, 0, 0, false, false, false, false)
  }

  /** What the i-th look for a source starts from, and its round. */
  ghost function EnvAt(e: Env, log: seq<Sitting>, i: nat): Env
    requires i <= |log|
  {
    if i == 0 then e
    else
      var x := log[i - 1];
      x.after.(cpus := x.after.cpus - {x.src}, loop := 0, loopBreak := MIGRATE_BREAK)
  }

  ghost function RoundAt(log: seq<Sitting>, i: nat): nat
    requires i <= |log|
  {
    if i == 0 then 0 else log[i - 1].at + 1 + |log[i - 1].recs|
  }

  ghost predicate TracedAt(d: Domain, world: nat -> World, e: Env, log: seq<Sitting>, i: nat)
    requires d.groups != [] && i < |log|
  {
    && log[i].at == RoundAt(log, i) && log[i].before == EnvAt(e, log, i) && SittingTraced(d, world, log[i])
    && ShouldWeBalance(d, world(log[i].at), log[i].before) && NamesSource(d, world(log[i].at), log[i].before)
    && (i < |log| - 1 ==> Redone(d, world, log[i]))
  }

  /** Every source was named by the world when it was this CPU's turn to balance, and all but the last were given up. */
  ghost predicate Traced(d: Domain, world: nat -> World, e: Env, log: seq<Sitting>)
    requires d.groups != []
  {
    forall i :: 0 <= i < |log| ==> TracedAt(d, world, e, log, i)
  }

  ghost predicate AllRedone(d: Domain, world: nat -> World, log: seq<Sitting>)
    requires d.groups != []
  {
    forall i :: 0 <= i < |log| ==> Redone(d, world, log[i])
  }

  /** When each outcome is reported. */
  ghost predicate Concluded(d: Domain, world: nat -> World, e: Env, log: seq<Sitting>, out: Outcome)
    requires d.groups != []
  {
    match out
    case Balanced =>
      var w, now := world(RoundAt(log, |log|)), EnvAt(e, log, |log|);
      AllRedone(d, world, log) && !(ShouldWeBalance(d, w, now) && NamesSource(d, w, now))
    case AllPinned =>
      && log != []
      && var x := log[|log| - 1];
         world(x.at).nr > 1 && NobodyCould(world, x) && x.after.cpus - {x.src} <= d.groups[0]
    case Finished(moved) =>
      && log != []
      && var x := log[|log| - 1];
         moved == |x.moves| && !(world(x.at).nr > 1 && NobodyCould(world, x))
  }

  /** Before the next look for a source. */
  ghost predicate Trying(d: Domain, world: nat -> World, e0: Env, log: seq<Sitting>, e: Env)
    requires d.groups != []
  {
    && e.cpus <= e0.cpus && e.dst in d.groups[0] && !e.needBreak && (e.dst in e.cpus ==> Ready(d, e))
    && Exhausted(d, world, e0.cpus, e.cpus, log)
    && Traced(d, world, e0, log) && AllRedone(d, world, log) && e == EnvAt(e0, log, |log|)
  }

  /** One more source tried. */
  lemma {:induction false} TriedOnce(d: Domain, world: nat -> World, e0: Env, log: seq<Sitting>, e: Env, x: Sitting)
    requires d.groups != [] && Trying(d, world, e0, log, e) && x.at == RoundAt(log, |log|) && x.before == e
    requires SittingRight(d, world, e.cpus, x) && SittingTraced(d, world, x) && Ready(d, x.after) && !x.after.needBreak
    requires ShouldWeBalance(d, world(x.at), e) && NamesSource(d, world(x.at), e) && x.after.cpus <= e.cpus
    ensures var log' := log + [x];
            && (world(x.at).nr <= 1 || !x.after.allPinned ==> Verdict(d, world, e0, log', Finished(|x.moves|)))
            && (world(x.at).nr > 1 && x.after.allPinned && x.moves == [] ==>
                  if x.after.cpus - {x.src} <= d.groups[0] then Verdict(d, world, e0, log', AllPinned)
                  else Trying(d, world, e0, log', EnvAt(e0, log', |log'|)))
  {
    if world(x.at).nr > 1 { PinnedIffBarred(d, world, x); }
    LogGrows(d, world, e0.cpus, e.cpus, log, x, x.after.cpus - {x.src});
    TraceGrows(d, world, e0, log, x);
  }

  lemma {:induction false} NothingToTry(d: Domain, world: nat -> World, e0: Env, log: seq<Sitting>, e: Env)
    requires d.groups != [] && Trying(d, world, e0, log, e)
    requires !(ShouldWeBalance(d, world(RoundAt(log, |log|)), e) && NamesSource(d, world(RoundAt(log, |log|)), e))
    ensures Verdict(d, world, e0, log, Balanced)
  {
  }

  /**
   The sources tried lie outside the destination's group and were each tried once; all but the last, and unless the
   pass is finished that one too, lost no task; and the outcome is the right one.
   */
  ghost predicate Verdict(d: Domain, world: nat -> World, e0: Env, log: seq<Sitting>, out: Outcome)
    requires d.groups != []
  {
    && SourcesRight(d, world, e0.cpus, log) && Traced(d, world, e0, log) && Concluded(d, world, e0, log, out)
    && NothingMoved(if out.Finished? && log != [] then log[..|log| - 1] else log)
  }

  lemma {:induction false} TraceGrows(d: Domain, world: nat -> World, e: Env, log: seq<Sitting>, x: Sitting)
    requires d.groups != [] && Traced(d, world, e, log) && AllRedone(d, world, log)
    requires x.at == RoundAt(log, |log|) && x.before == EnvAt(e, log, |log|) && SittingTraced(d, world, x)
    requires ShouldWeBalance(d, world(x.at), x.before) && NamesSource(d, world(x.at), x.before)
    ensures Traced(d, world, e, log + [x])
    ensures Redone(d, world, x) ==> AllRedone(d, world, log + [x])
  {
    forall i | 0 <= i < |log + [x]| ensures TracedAt(d, world, e, log + [x], i) {
      if i < |log| { assert TracedAt(d, world, e, log, i); }
    }
  }

  /** In none of the rounds against x was there a task that might have gone to the destination of the round. */
  ghost predicate NobodyCould(world: nat -> World, x: Sitting) {
    forall k :: 0 <= k < |x.recs| ==> RoundBarred(world, x.recs[k])
  }

  ghost predicate RoundBarred(world: nat -> World, r: Record) {
    forall l :: l in r.looks ==> Barred(world(r.round).facts, r.before.dst, l.p)
  }

  ghost predicate BarredTo(world: nat -> World, recs: seq<Record>, k: nat)
    requires k <= |recs|
  {
    forall i :: 0 <= i < k ==> RoundBarred(world, recs[i])
  }

  lemma {:induction false} BarredOneMore(world: nat -> World, recs: seq<Record>, k: nat)
    requires k < |recs|
    ensures BarredTo(world, recs, k + 1) <==> BarredTo(world, recs, k) && RoundBarred(world, recs[k])
  {
  }

  /** Nobody could up to the k-th round, exactly if the flag is still set after it. */
  lemma {:induction false} PinnedSoFar(d: Domain, world: nat -> World, e: Env, from: nat, recs: seq<Record>, k: nat)
    requires d.groups != [] && Chained(d, world, e, from, recs) && k < |recs| && e.allPinned
    ensures recs[k].after.allPinned <==> BarredTo(world, recs, k + 1)
    decreases k
  {
    BarredOneMore(world, recs, k);
    assert recs[k].after.allPinned <==> recs[k].before.allPinned && RoundBarred(world, recs[k]) by {
      assert RecordAt(d, world, from, recs, k);
      LooksOfRound(d, world, recs[k]);
    }
    assert FollowsOn(e, recs, k);
    if k > 0 { PinnedSoFar(d, world, e, from, recs, k - 1); }
  }

  lemma {:induction false} LooksOfRound(d: Domain, world: nat -> World, r: Record)
    requires d.groups != [] && RecordRight(d, world, r)
    ensures r.after.allPinned <==> r.before.allPinned && RoundBarred(world, r)
  {
  }

  /** The flag says what it is meant to say: no task looked at could have gone to the destination of its round. */
  lemma {:induction false} PinnedIffBarred(d: Domain, world: nat -> World, x: Sitting)
    requires d.groups != [] && SittingTraced(d, world, x) && world(x.at).nr > 1
    ensures x.after.allPinned <==> NobodyCould(world, x)
  {
    PinnedSoFar(d, world, Start(world(x.at), x.before), x.at + 1, x.recs, |x.recs| - 1);
  }

  lemma {:induction false} FirstMoveFirst(recs: seq<Record>)
    requires recs != [] && recs[0].moves != []
    ensures AllMoves(recs) != [] && AllMoves(recs)[0] == recs[0].moves[0]
    decreases |recs|
  {
    if |recs| > 1 {
      FirstMoveFirst(recs[..|recs| - 1]);
    } else {
      assert AllMoves(recs[..0]) == [];
    }
  }

  /** The first source that is found gives up its first task, if that is worth taking. */
  lemma {:induction false} FirstSourceGives(d: Domain, world: nat -> World, thisCpu: nat, active: set<nat>,
                                            log: seq<Sitting>, out: Outcome, taken: bool)
    requires d.groups != [] && Verdict(d, world, FirstEnv(d, thisCpu, active), log, out)
    requires ShouldWeBalance(d, world(0), FirstEnv(d, thisCpu, active))
    requires NamesSource(d, world(0), FirstEnv(d, thisCpu, active))
    requires world(0).nr > 1 && world(0).imbalance > 0 && world(0).nrMigrate > 0
    requires world(1).list != [] && (d.idle != NotIdle ==> world(1).nr > 1)
    requires Worth(d, world(1).facts, thisCpu, Look(world(1).list[0], 1, world(0).imbalance, taken))
    ensures |log| == 1 && log[0].moves != [] && log[0].moves[0].p == world(1).list[0] && log[0].moves[0].dst == thisCpu
    ensures out == Finished(|log[0].moves|)
  {
    var e0 := FirstEnv(d, thisCpu, active);
    assert log != [];
    assert TracedAt(d, world, e0, log, 0);
    var x := log[0];
    var start := Start(world(0), e0);
    assert RecordAt(d, world, 1, x.recs, 0) && FollowsOn(start, x.recs, 0);
    var r := x.recs[0];
    FirstWorthIsTaken(d, world(1), 1, start, r.looks, r.moves, r.after, taken);
    FirstMoveFirst(x.recs);
    FirstLookNotBarred(d, world, r);
  }

  lemma {:induction false} FirstLookNotBarred(d: Domain, world: nat -> World, r: Record)
    requires d.groups != [] && RecordRight(d, world, r) && r.moves != []
    ensures !RoundBarred(world, r)
  {
    SomeTaken(world(r.round).facts, r.round, r.before.dst, r.looks);
    var k :| 0 <= k < |r.looks| && r.looks[k].taken;
    assert r.looks[k] in r.looks;
  }

  lemma {:induction false} SomeTaken(f: Facts, round: nat, dst: nat, looks: seq<Look>)
    requires TakenBy(f, round, dst, looks) != []
    ensures exists k :: 0 <= k < |looks| && looks[k].taken
    decreases |looks|
  {
    if !looks[0].taken {
      SomeTaken(f, round, dst, looks[1..]);
      var k :| 0 <= k < |looks[1..]| && looks[1..][k].taken;
      assert looks[k + 1].taken;
    }
  }

  /** No round looks at more tasks than there were, or than the limit. */
  lemma {:induction false} LooksWithin(d: Domain, world: nat -> World, e: Env, from: nat, recs: seq<Record>, k: nat)
    requires d.groups != [] && Chained(d, world, e, from, recs) && k < |recs|
    ensures recs[k].before.loopMax == recs[k].after.loopMax == e.loopMax && |recs[k].looks| <= e.loopMax
    decreases k
  {
    assert RecordAt(d, world, from, recs, k) && FollowsOn(e, recs, k);
    if k > 0 { LooksWithin(d, world, e, from, recs, k - 1); }
  }

  datatype Outcome = Balanced | AllPinned | Finished(moved: nat)

  /** One source: outside the destination's group, and not relieved of more than twice its imbalance plus one. */
  ghost predicate SittingRight(d: Domain, world: nat -> World, cpus: set<nat>, x: Sitting)
    requires d.groups != []
  {
    && x.src in cpus && x.src !in d.groups[0] && MovesOf(d, world, x.moves)
    && var imbalance := world(x.at).imbalance;
       if imbalance > 0 then Load(x.moves) <= 2 * imbalance + 1 else x.moves == []
  }

  ghost predicate NothingMoved(log: seq<Sitting>) {
    forall i :: 0 <= i < |log| ==> log[i].moves == []
  }

  /** The sources are right and no two are the same. */
  ghost predicate SourcesRight(d: Domain, world: nat -> World, all: set<nat>, log: seq<Sitting>)
    requires d.groups != []
  {
    && (forall i :: 0 <= i < |log| ==> SittingRight(d, world, all, log[i]))
    && forall i, j :: 0 <= i < j < |log| ==> log[i].src != log[j].src
  }

  /** The sources tried so far gave nothing and are out of the mask. */
  ghost predicate Exhausted(d: Domain, world: nat -> World, all: set<nat>, cpus: set<nat>, log: seq<Sitting>)
    requires d.groups != []
  {
    && SourcesRight(d, world, all, log) && NothingMoved(log)
    && forall i :: 0 <= i < |log| ==> log[i].src !in cpus
  }

  lemma {:induction false} LogGrows(d: Domain, world: nat -> World, all: set<nat>, cpus: set<nat>, log: seq<Sitting>,
                                    x: Sitting, cpus': set<nat>)
    requires d.groups != [] && Exhausted(d, world, all, cpus, log) && SittingRight(d, world, all, x)
    requires x.src in cpus && cpus' <= cpus - {x.src}
    ensures SourcesRight(d, world, all, log + [x]) && (log + [x])[..|log + [x]| - 1] == log
    ensures x.moves == [] ==> Exhausted(d, world, all, cpus', log + [x])
  {
  }

  /** c is the lowest-numbered of these CPUs. */
  ghost predicate IsFirst(s: set<nat>, n: nat, c: nat) { c in s && c < n && forall x :: x in s && x < n ==> c <= x }

  /**
   It is this CPU's turn to balance: it is under consideration, and it is newly idle, or the first idle CPU of the
   group's mask, or, if none of those is idle, the one designated.
   */
  ghost predicate ShouldWeBalance(d: Domain, w: World, e: Env) {
    var idle := w.idleCpus * e.cpus;
    && e.dst in e.cpus
    && (|| d.idle == NewlyIdle
        || IsFirst(idle, d.nrCpus, e.dst)
        || ((forall c :: c in idle ==> c >= d.nrCpus) && w.balanceCpu == e.dst))
  }

  lemma {:induction false} OneFewer(s: set<nat>, x: nat)
    requires x in s
    ensures |s - {x}| < |s|
  {
    assert s == (s - {x}) + {x};
  }

  lemma {:induction false} SubsetSize(a: set<nat>, b: set<nat>)
    requires a <= b
    ensures |a| <= |b|
  {
    assert b == a + (b - a);
  }
}
