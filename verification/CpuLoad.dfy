/**
 The decaying load averages rq->cpu_load[]: catching up on missed ticks and the update of each tick. The code
 computes in 64 bits, where large loads wrap; the reference is exact, and what holds of it holds of the code for
 all loads below 2^56.
 */
module CpuLoad {
  const CPU_LOAD_IDX_MAX: nat := 5
  const U64: nat := 0x1_0000_0000_0000_0000
  const MAX_LOAD: nat := 0x100_0000_0000_0000   // times 128 still fits 64 bits

  const DegradeZeroTicks: seq<nat> := [0, 8, 32, 64, 128]
  const DegradeFactor: seq<seq<nat>> := [
    [0, 0, 0, 0, 0, 0, 0, 0],
    [64, 32, 8, 0, 0, 0, 0, 0],
    [96, 72, 40, 12, 1, 0, 0, 0],
    [112, 98, 75, 43, 15, 1, 0, 0],
    [120, 112, 98, 76, 45, 16, 2, 0]]

  function Factor(idx: nat, j: nat): (f: nat)
    requires idx < CPU_LOAD_IDX_MAX && j < 8
    ensures f <= 128
  {
    DegradeFactor[idx][j]
  }

  /** The numbers that fit the bits still to come after j halvings. */
  function BitsLeft(j: nat): nat
    requires j <= 7
  {
    [128, 64, 32, 16, 8, 4, 2, 1][j]
  }

  // ----- The reference: one factor per set bit of the number of missed ticks -----

  function Scaled(load: nat, f: nat): nat { (load * f) / 128 }

  function DecayBits(load: nat, missed: nat, idx: nat, j: nat): nat
    requires idx < CPU_LOAD_IDX_MAX && j <= 7 && missed < BitsLeft(j)
    decreases missed
  {
    if missed == 0 then load
    else DecayBits(if missed % 2 == 1 then Scaled(load, Factor(idx, j)) else load, missed / 2, idx, j + 1)
  }

  function HalveTimes(load: nat, n: nat): nat {
    if n == 0 then load else HalveTimes(load / 2, n - 1)
  }

  function Decayed(load: nat, missed: nat, idx: nat): nat
    requires idx < CPU_LOAD_IDX_MAX
  {
    if missed == 0 then load
    else if missed >= DegradeZeroTicks[idx] then 0
    else if idx == 1 then HalveTimes(load, missed)
    else DecayBits(load, missed, idx, 0)
  }

  // ----- The same in 64 bits -----

  function Scaled64(load: nat, f: nat): nat { ((load * f) % U64) / 128 }

  function DecayBits64(load: nat, missed: nat, idx: nat, j: nat): nat
    requires idx < CPU_LOAD_IDX_MAX && j <= 7 && missed < BitsLeft(j)
    decreases missed
  {
    if missed == 0 then load
    else DecayBits64(if missed % 2 == 1 then Scaled64(load, Factor(idx, j)) else load, missed / 2, idx, j + 1)
  }

  function Decayed64(load: nat, missed: nat, idx: nat): nat
    requires idx < CPU_LOAD_IDX_MAX
  {
    if missed == 0 then load
    else if missed >= DegradeZeroTicks[idx] then 0
    else if idx == 1 then HalveTimes(load, missed)
    else DecayBits64(load, missed, idx, 0)
  }

  method DecayLoadMissed(load0: nat, missedUpdates: nat, idx: nat) returns (load: nat)
    requires idx < CPU_LOAD_IDX_MAX
    ensures load == Decayed64(load0, missedUpdates, idx)
    ensures idx > 0 ==> NotAbove(load0, load, idx, missedUpdates)
    ensures idx > 0 && load0 * 128 < U64 ==> ShortBy(load0, load, idx, missedUpdates, Roundings(missedUpdates, idx))
  {
    if idx > 0 {
      NeverAbove64(load0, missedUpdates, idx);
      if load0 * 128 < U64 {
        DecayExact(load0, missedUpdates, idx);
        DecayAccurate(load0, missedUpdates, idx);
      }
    }
    load := load0;
    var missed: nat, j := missedUpdates, 0;
    if missed == 0 { return load; }
    if missed >= DegradeZeroTicks[idx] { return 0; }
    if idx == 1 { return HalveTimes(load, missed); }
    while missed != 0
      invariant j <= 7 && missed < BitsLeft(j)
      invariant DecayBits64(load, missed, idx, j) == DecayBits64(load0, missedUpdates, idx, 0)
      decreases missed
    {
      if missed % 2 == 1 { load := Scaled64(load, Factor(idx, j)); }
      missed := missed / 2;
      j := j + 1;
    }
  }

  lemma {:induction false} ScaledExact(load: nat, f: nat)
    requires load * 128 < U64 && f <= 128
    ensures Scaled64(load, f) == Scaled(load, f) <= load
  {
    AtMostTimes(load, f);
  }

  lemma {:induction false} BitsExact(load: nat, missed: nat, idx: nat, j: nat)
    requires idx < CPU_LOAD_IDX_MAX && j <= 7 && missed < BitsLeft(j) && load * 128 < U64
    ensures DecayBits64(load, missed, idx, j) == DecayBits(load, missed, idx, j)
    decreases missed
  {
    if missed != 0 {
      if missed % 2 == 1 {
        ScaledExact(load, Factor(idx, j));
        BitsExact(Scaled(load, Factor(idx, j)), missed / 2, idx, j + 1);
      } else {
        BitsExact(load, missed / 2, idx, j + 1);
      }
    }
  }

  lemma {:induction false} DecayExact(load: nat, missed: nat, idx: nat)
    requires idx < CPU_LOAD_IDX_MAX && load * 128 < U64
    ensures Decayed64(load, missed, idx) == Decayed(load, missed, idx)
  {
    if 0 < missed < DegradeZeroTicks[idx] && idx != 1 { BitsExact(load, missed, idx, 0); }
  }

  // ----- Decay keeps order and never widens a difference -----

  ghost predicate Closer(x: nat, y: nat, x': nat, y': nat) {
    x' <= y' <= x' + (y - x)
  }

  lemma {:induction false} AtMostTimes(d: nat, f: nat)
    requires f <= 128
    ensures 0 <= d * f <= d * 128
  {
    assert d * 128 == d * f + d * (128 - f);
  }

  lemma {:induction false} ScaledCloser(x: nat, y: nat, f: nat)
    requires x <= y && f <= 128
    ensures Closer(x, y, Scaled(x, f), Scaled(y, f))
  {
    assert y * f == x * f + (y - x) * f;
    AtMostTimes(y - x, f);
  }

  lemma {:induction false} BitsCloser(x: nat, y: nat, missed: nat, idx: nat, j: nat)
    requires idx < CPU_LOAD_IDX_MAX && j <= 7 && missed < BitsLeft(j) && x <= y
    ensures Closer(x, y, DecayBits(x, missed, idx, j), DecayBits(y, missed, idx, j))
    decreases missed
  {
    if missed != 0 {
      if missed % 2 == 1 {
        ScaledCloser(x, y, Factor(idx, j));
        BitsCloser(Scaled(x, Factor(idx, j)), Scaled(y, Factor(idx, j)), missed / 2, idx, j + 1);
      } else {
        BitsCloser(x, y, missed / 2, idx, j + 1);
      }
    }
  }

  lemma {:induction false} HalvesCloser(x: nat, y: nat, n: nat)
    requires x <= y
    ensures Closer(x, y, HalveTimes(x, n), HalveTimes(y, n))
    decreases n
  {
    if n > 0 { HalvesCloser(x / 2, y / 2, n - 1); }
  }

  lemma {:induction false} DecayCloser(x: nat, y: nat, missed: nat, idx: nat)
    requires idx < CPU_LOAD_IDX_MAX && x <= y
    ensures Closer(x, y, Decayed(x, missed, idx), Decayed(y, missed, idx))
  {
    if 0 < missed < DegradeZeroTicks[idx] {
      if idx == 1 { HalvesCloser(x, y, missed); } else { BitsCloser(x, y, missed, idx, 0); }
    }
  }

  lemma {:induction false} DecayShrinks(x: nat, missed: nat, idx: nat)
    requires idx < CPU_LOAD_IDX_MAX
    ensures Decayed(x, missed, idx) <= x
  {
    DecayCloser(0, x, missed, idx);
    DecayZero(missed, idx);
  }

  lemma {:induction false} DecayZero(missed: nat, idx: nat)
    requires idx < CPU_LOAD_IDX_MAX
    ensures Decayed(0, missed, idx) == 0
  {
    if 0 < missed < DegradeZeroTicks[idx] {
      if idx == 1 { HalveZero(missed); } else { BitsZero(missed, idx, 0); }
    }
  }

  lemma {:induction false} HalveZero(n: nat)
    ensures HalveTimes(0, n) == 0
    decreases n
  {
    if n > 0 { HalveZero(n - 1); }
  }

  lemma {:induction false} BitsZero(missed: nat, idx: nat, j: nat)
    requires idx < CPU_LOAD_IDX_MAX && j <= 7 && missed < BitsLeft(j)
    ensures DecayBits(0, missed, idx, j) == 0
    decreases missed
  {
    if missed != 0 { BitsZero(missed / 2, idx, j + 1); }
  }

  // ----- How accurate decay is -----

  function Pow(b: nat, n: nat): (p: nat)
    ensures b > 0 ==> p > 0
  {
    if n == 0 then 1 else b * Pow(b, n - 1)
  }

  /** b squared j times over. */
  function Squared(b: nat, j: nat): nat { if j == 0 then b else Squared(b, j - 1) * Squared(b, j - 1) }

  lemma {:induction false} PowAdd(b: nat, m: nat, n: nat)
    ensures Pow(b, m + n) == Pow(b, m) * Pow(b, n)
    decreases m
  {
    if m > 0 {
      PowAdd(b, m - 1, n);
      Associates(b, Pow(b, m - 1), Pow(b, n));
    }
  }

  lemma {:induction false} Associates(a: int, b: int, c: int)
    ensures a * (b * c) == (a * b) * c
  {
  }

  lemma {:induction false} SquaredIsPow(b: nat, j: nat)
    ensures Squared(b, j) == Pow(b, Pow(2, j))
    decreases j
  {
    if j == 0 {
      assert Pow(2, j) == 1 && Pow(b, 1) == b * Pow(b, 0);
    } else {
      SquaredIsPow(b, j - 1);
      PowAdd(b, Pow(2, j - 1), Pow(2, j - 1));
    }
  }

  /** (1 - 1/2^i)^n is Num(i, n) / Den(i, n). */
  function Den(i: nat, n: nat): nat { Pow(Pow(2, i), n) }

  function Num(i: nat, n: nat): nat
    requires i > 0
  {
    Pow(Pow(2, i) - 1, n)
  }

  /** f is 128 * num / den, rounded down. */
  ghost predicate Floor(f: nat, num: nat, den: nat) { f * den <= 128 * num < (f + 1) * den }

  lemma {:induction false} FloorsOfHalf()
    ensures Floor(64, Squared(1, 0), Squared(2, 0)) && Floor(32, Squared(1, 1), Squared(2, 1))
    ensures Floor(8, Squared(1, 2), Squared(2, 2)) && Floor(0, Squared(1, 3), Squared(2, 3))
    ensures Floor(0, Squared(1, 4), Squared(2, 4)) && Floor(0, Squared(1, 5), Squared(2, 5))
    ensures Floor(0, Squared(1, 6), Squared(2, 6)) && Floor(0, Squared(1, 7), Squared(2, 7))
  {
  }

  lemma {:induction false} FloorsOfThreeQuarters()
    ensures Floor(96, Squared(3, 0), Squared(4, 0)) && Floor(72, Squared(3, 1), Squared(4, 1))
    ensures Floor(40, Squared(3, 2), Squared(4, 2)) && Floor(12, Squared(3, 3), Squared(4, 3))
    ensures Floor(1, Squared(3, 4), Squared(4, 4)) && Floor(0, Squared(3, 5), Squared(4, 5))
    ensures Floor(0, Squared(3, 6), Squared(4, 6)) && Floor(0, Squared(3, 7), Squared(4, 7))
  {
  }

  lemma {:induction false} FloorsOfSevenEighths()
    ensures Floor(112, Squared(7, 0), Squared(8, 0)) && Floor(98, Squared(7, 1), Squared(8, 1))
    ensures Floor(75, Squared(7, 2), Squared(8, 2)) && Floor(43, Squared(7, 3), Squared(8, 3))
    ensures Floor(15, Squared(7, 4), Squared(8, 4)) && Floor(1, Squared(7, 5), Squared(8, 5))
    ensures Floor(0, Squared(7, 6), Squared(8, 6)) && Floor(0, Squared(7, 7), Squared(8, 7))
  {
  }

  lemma {:induction false} FloorsOfFifteenSixteenths()
    ensures Floor(120, Squared(15, 0), Squared(16, 0)) && Floor(112, Squared(15, 1), Squared(16, 1))
    ensures Floor(98, Squared(15, 2), Squared(16, 2)) && Floor(76, Squared(15, 3), Squared(16, 3))
    ensures Floor(45, Squared(15, 4), Squared(16, 4)) && Floor(16, Squared(15, 5), Squared(16, 5))
    ensures Floor(2, Squared(15, 6), Squared(16, 6)) && Floor(0, Squared(15, 7), Squared(16, 7))
  {
  }

  lemma {:induction false} FactorsFloorSquares(i: nat, j: nat)
    requires 1 <= i < CPU_LOAD_IDX_MAX && j < 8
    ensures Floor(Factor(i, j), Squared([0, 1, 3, 7, 15][i], j), Squared([1, 2, 4, 8, 16][i], j))
  {
    match i
    case 1 => FloorsOfHalf();
    case 2 => FloorsOfThreeQuarters();
    case 3 => FloorsOfSevenEighths();
    case 4 => FloorsOfFifteenSixteenths();
  }

  lemma {:induction false} SmallPowers(i: nat)
    requires 1 <= i < CPU_LOAD_IDX_MAX
    ensures Pow(2, i) == [1, 2, 4, 8, 16][i] && Pow(2, i) - 1 == [0, 1, 3, 7, 15][i]
  {
    assert Pow(2, 1) == 2 && Pow(2, 2) == 4 && Pow(2, 3) == 8 && Pow(2, 4) == 16;
  }

  /** Every entry of the table is what 2^j ticks leave of 128, rounded down. */
  lemma {:induction false} FactorsAreFloors(i: nat, j: nat)
    requires 1 <= i < CPU_LOAD_IDX_MAX && j < 8
    ensures Floor(Factor(i, j), Num(i, Pow(2, j)), Den(i, Pow(2, j)))
  {
    SmallPowers(i);
    FactorsFloorSquares(i, j);
    SquaredIsPow([1, 2, 4, 8, 16][i], j);
    SquaredIsPow([0, 1, 3, 7, 15][i], j);
  }

  /** The number of factors that are multiplied for n missed ticks. */
  function Ones(n: nat): nat { if n == 0 then 0 else n % 2 + Ones(n / 2) }

  /** d is not above load * (1 - 1/2^i)^n. */
  ghost predicate NotAbove(load: nat, d: nat, i: nat, n: nat)
    requires i > 0
  {
    d * Den(i, n) <= load * Num(i, n)
  }

  /** d is short of load * (1 - 1/2^i)^n by at most k * (load + 127) / 128. */
  ghost predicate ShortBy(load: nat, d: nat, i: nat, n: nat, k: nat)
    requires i > 0
  {
    128 * (load * Num(i, n) - d * Den(i, n)) <= k * (load + 127) * Den(i, n)
  }

  lemma {:induction false} PowAtMost(a: nat, b: nat, n: nat)
    requires a <= b
    ensures Pow(a, n) <= Pow(b, n)
    decreases n
  {
    if n > 0 {
      PowAtMost(a, b, n - 1);
      MulAtMost(a, b, Pow(a, n - 1), Pow(b, n - 1));
    }
  }

  lemma {:induction false} MulAtMost(a: nat, b: nat, x: nat, y: nat)
    requires a <= b && x <= y
    ensures a * x <= b * y
  {
    assert a * x <= a * y;
    assert b * y == a * y + (b - a) * y;
  }

  /** One factor, with its rounding: against the exact fraction num / den. */
  lemma {:induction false} OneFactor(load: nat, f: nat, num: nat, den: nat)
    requires Floor(f, num, den)
    ensures var d := Scaled(load, f);
            d * den <= load * num && 128 * (load * num - d * den) <= (load + 127) * den
  {
    var d := Scaled(load, f);
    assert 128 * d <= load * f <= 128 * d + 127;
    MulAtMost(128 * d, load * f, den, den);
    MulAtMost(load * f, 128 * d + 127, den, den);
    MulAtMost(load, load, f * den, 128 * num);
    MulAtMost(load, load, 128 * num, (f + 1) * den);
    assert (load * f) * den == load * (f * den);
    assert load * ((f + 1) * den) == load * (f * den) + load * den;
    assert (128 * d) * den == 128 * (d * den) && load * (128 * num) == 128 * (load * num);
    assert (128 * d + 127) * den == 128 * (d * den) + 127 * den;
    assert (load + 127) * den == load * den + 127 * den;
  }

  /** Two decays in a row are not above the product. */
  lemma {:induction false} NeverAboveTwice(load: nat, d1: nat, d: nat, num: nat, den: nat, num2: nat, den2: nat)
    requires d1 * den <= load * num && d * den2 <= d1 * num2
    ensures d * (den * den2) <= load * (num * num2)
  {
    MulAtMost(d * den2, d1 * num2, den, den);
    MulAtMost(d1 * den, load * num, num2, num2);
    Associates(load, num, num2);
    assert d * (den * den2) == (d * den2) * den;
    assert (d1 * num2) * den == (d1 * den) * num2;
  }

  /** Their errors add up, because neither factor is above 1. */
  lemma {:induction false} ShortTwice(load: nat, d1: nat, d: nat, num: nat, den: nat, num2: nat, den2: nat, k: nat)
    requires 128 * (load * num - d1 * den) <= (load + 127) * den
    requires 128 * (d1 * num2 - d * den2) <= k * (d1 + 127) * den2
    requires d1 <= load && num2 <= den2
    ensures 128 * (load * (num * num2) - d * (den * den2)) <= (k + 1) * (load + 127) * (den * den2)
  {
    var x, y, m := load * num - d1 * den, d1 * num2 - d * den2, (load + 127) * (den * den2);
    assert load * (num * num2) - d * (den * den2) == x * num2 + y * den by {
      ErrorSplits(load, d1, d, num, den, num2, den2);
    }
    assert 128 * (x * num2) <= m by {
      FirstError(x, (load + 127) * den, num2, den2);
      Associates(load + 127, den, den2);
    }
    assert 128 * (y * den) <= k * m by { SecondError(y, d1, load, den, den2, k); }
    assert (k + 1) * (load + 127) * (den * den2) == k * m + m by {
      Associates(k + 1, load + 127, den * den2);
      Distributes(k, 1, m);
    }
  }

  lemma {:induction false} Distributes(a: int, b: int, c: int)
    ensures (a + b) * c == a * c + b * c
  {
  }

  lemma {:induction false} ErrorSplits(load: nat, d1: nat, d: nat, num: nat, den: nat, num2: nat, den2: nat)
    ensures load * (num * num2) - d * (den * den2) == (load * num - d1 * den) * num2 + (d1 * num2 - d * den2) * den
  {
    Associates(load, num, num2);
    Distributes(load * num, -(d1 * den), num2);
    Distributes(d1 * num2, -(d * den2), den);
    assert (d1 * num2) * den == (d1 * den) * num2;
    assert d * (den * den2) == (d * den2) * den;
  }

  lemma {:induction false} FirstError(x: int, e: nat, num2: nat, den2: nat)
    requires 128 * x <= e && num2 <= den2
    ensures 128 * (x * num2) <= e * den2
  {
    MulAtMost(num2, den2, e, e);
    assert (128 * x) * num2 <= e * num2;
    assert (128 * x) * num2 == 128 * (x * num2);
  }

  lemma {:induction false} SecondError(y: int, d1: nat, load: nat, den: nat, den2: nat, k: nat)
    requires 128 * y <= k * (d1 + 127) * den2 && d1 <= load
    ensures 128 * (y * den) <= k * ((load + 127) * (den * den2))
  {
    assert (128 * y) * den <= (k * (d1 + 127) * den2) * den;
    assert (128 * y) * den == 128 * (y * den);
    assert (k * (d1 + 127) * den2) * den == (k * (d1 + 127)) * (den * den2);
    Associates(k, d1 + 127, den * den2);
    MulAtMost(d1 + 127, load + 127, den * den2, den * den2);
    MulAtMost(k, k, (d1 + 127) * (den * den2), (load + 127) * (den * den2));
  }

  lemma {:induction false} TicksSplit(missed: nat, j: nat)
    ensures missed * Pow(2, j) == (if missed % 2 == 1 then Pow(2, j) else 0) + (missed / 2) * Pow(2, j + 1)
  {
    assert missed == missed % 2 + 2 * (missed / 2);
    Distributes(missed % 2, 2 * (missed / 2), Pow(2, j));
    assert (2 * (missed / 2)) * Pow(2, j) == (missed / 2) * (2 * Pow(2, j));
  }

  /** The ticks that the factors from the j-th on stand for. */
  function Ticks(missed: nat, j: nat): nat {
    if missed == 0 then 0 else (if missed % 2 == 1 then Pow(2, j) else 0) + Ticks(missed / 2, j + 1)
  }

  lemma {:induction false} TicksAddUp(missed: nat, j: nat)
    ensures Ticks(missed, j) == missed * Pow(2, j)
    decreases missed
  {
    if missed != 0 {
      TicksAddUp(missed / 2, j + 1);
      TicksSplit(missed, j);
    }
  }

  /** What the factors from the j-th on make of a load. */
  lemma {:induction false} BitsAccurate(load: nat, missed: nat, i: nat, j: nat, d: nat, n: nat, k: nat)
    requires 1 <= i < CPU_LOAD_IDX_MAX && j <= 7 && missed < BitsLeft(j)
    requires d == DecayBits(load, missed, i, j) && n == Ticks(missed, j) && k == Ones(missed)
    ensures NotAbove(load, d, i, n) && ShortBy(load, d, i, n, k)
    decreases missed
  {
    if missed == 0 {
      NoTicks(load, i, n);
    } else if missed % 2 == 1 {
      var d1, rest := Scaled(load, Factor(i, j)), Ticks(missed / 2, j + 1);
      BitsAccurate(d1, missed / 2, i, j + 1, d, rest, k - 1);
      BitAndRest(load, d1, d, i, j, rest, n, k);
    } else {
      BitsAccurate(load, missed / 2, i, j + 1, d, n, k);
    }
  }

  lemma {:induction false} NoTicks(load: nat, i: nat, n: nat)
    requires i > 0 && n == 0
    ensures NotAbove(load, load, i, n) && ShortBy(load, load, i, n, 0)
  {
  }

  lemma {:induction false} BitAndRest(load: nat, d1: nat, d: nat, i: nat, j: nat, rest: nat, n: nat, k: nat)
    requires 1 <= i < CPU_LOAD_IDX_MAX && j < 8 && d1 == Scaled(load, Factor(i, j)) && n == Pow(2, j) + rest && k > 0
    requires NotAbove(d1, d, i, rest) && ShortBy(d1, d, i, rest, k - 1)
    ensures NotAbove(load, d, i, n) && ShortBy(load, d, i, n, k)
  {
    var m := Pow(2, j);
    FactorsAreFloors(i, j);
    OneFactor(load, Factor(i, j), Num(i, m), Den(i, m));
    AtMostTimes(load, Factor(i, j));
    PowAdd(Pow(2, i), m, rest);
    PowAdd(Pow(2, i) - 1, m, rest);
    PowAtMost(Pow(2, i) - 1, Pow(2, i), rest);
    NeverAboveTwice(load, d1, d, Num(i, m), Den(i, m), Num(i, rest), Den(i, rest));
    ShortTwice(load, d1, d, Num(i, m), Den(i, m), Num(i, rest), Den(i, rest), k - 1);
  }

  /** The number of ticks taken to leave nothing is the first power of two whose factor is 0. */
  lemma {:induction false} ZeroFactor(i: nat)
    requires 1 <= i < CPU_LOAD_IDX_MAX
    ensures 128 * Num(i, DegradeZeroTicks[i]) < Den(i, DegradeZeroTicks[i])
  {
    var j := [0, 3, 5, 6, 7][i];
    assert Pow(2, 3) == 8 && Pow(2, 5) == 32 && Pow(2, 6) == 64 && Pow(2, 7) == 128;
    assert DegradeZeroTicks[i] == Pow(2, j) && Factor(i, j) == 0;
    FactorsAreFloors(i, j);
  }

  lemma {:induction false} ZeroTicksLeaveLittle(load: nat, i: nat, n: nat)
    requires 1 <= i < CPU_LOAD_IDX_MAX && n >= DegradeZeroTicks[i]
    ensures NotAbove(load, 0, i, n) && ShortBy(load, 0, i, n, 1)
  {
    var z := DegradeZeroTicks[i];
    ZeroFactor(i);
    PowAdd(Pow(2, i), z, n - z);
    PowAdd(Pow(2, i) - 1, z, n - z);
    PowAtMost(Pow(2, i) - 1, Pow(2, i), n - z);
    LittleLeft(load, Num(i, z), Den(i, z), Num(i, n - z), Den(i, n - z), Num(i, n), Den(i, n));
  }

  lemma {:induction false} LittleLeft(load: nat, num: nat, den: nat, num2: nat, den2: nat, numN: nat, denN: nat)
    requires 128 * num < den && num2 <= den2 && numN == num * num2 && denN == den * den2
    ensures 0 * denN <= load * numN && 128 * (load * numN - 0 * denN) <= 1 * (load + 127) * denN
  {
    MulAtMost(128 * num, den, num2, den2);
    assert (128 * num) * num2 == 128 * numN;
    MulAtMost(load, load + 127, 128 * numN, denN);
    assert load * (128 * numN) == 128 * (load * numN);
  }

  lemma {:induction false} HalvingDivides(load: nat, n: nat)
    ensures HalveTimes(load, n) == load / Pow(2, n)
    decreases n
  {
    if n > 0 {
      HalvingDivides(load / 2, n - 1);
      DivideTwice(load, Pow(2, n - 1));
    }
  }

  lemma {:induction false} DivideTwice(x: nat, d: nat)
    requires d > 0
    ensures (x / 2) / d == x / (2 * d)
  {
    var q := x / (2 * d);
    var r := x - q * (2 * d);
    assert 0 <= r < 2 * d;
    assert x / 2 == q * d + r / 2 by { assert x == 2 * (q * d) + r; }
    QuotientIs(x / 2, d, q, r / 2);
  }

  lemma {:induction false} QuotientIs(x: nat, d: nat, q: nat, r: nat)
    requires d > 0 && x == q * d + r && r < d
    ensures x / d == q
  {
    var p := x / d;
    assert x == d * p + x % d;
    AtMostQuotient(p, q, d, x);
    AtMostQuotient(q, p, d, x);
  }

  lemma {:induction false} AtMostQuotient(p: nat, q: nat, d: nat, x: nat)
    requires p * d <= x < q * d + d
    ensures p <= q
  {
    if p > q { MulAtMost(q + 1, p, d, d); }
  }

  lemma {:induction false} PowOfOne(n: nat)
    ensures Pow(1, n) == 1
    decreases n
  {
    if n > 0 { PowOfOne(n - 1); }
  }

  lemma {:induction false} HalvesAccurate(load: nat, n: nat)
    requires n > 0
    ensures var d := HalveTimes(load, n); NotAbove(load, d, 1, n) && ShortBy(load, d, 1, n, Ones(n))
  {
    HalvingDivides(load, n);
    PowOfOne(n);
    SomeOne(n);
    assert Pow(2, 1) == 2;
    HalfShort(load, Pow(2, n), load / Pow(2, n), Ones(n));
  }

  lemma {:induction false} SomeOne(n: nat)
    requires n > 0
    ensures Ones(n) >= 1
    decreases n
  {
    if n % 2 == 0 { SomeOne(n / 2); }
  }

  lemma {:induction false} HalfShort(load: nat, p: nat, d: nat, k: nat)
    requires p > 0 && d == load / p && k >= 1
    ensures d * p <= load * 1 && 128 * (load * 1 - d * p) <= k * (load + 127) * p
  {
    assert d * p <= load < d * p + p;
    MulAtMost(1, k, load + 127, load + 127);
    MulAtMost(load + 127, k * (load + 127), p, p);
    if load > 0 { MulAtMost(128, load + 127, p, p); }
  }

  /** How many roundings there are: one for each factor, or the one to zero. */
  function Roundings(missed: nat, i: nat): nat
    requires i < CPU_LOAD_IDX_MAX
  {
    if missed >= DegradeZeroTicks[i] then 1 else Ones(missed)
  }

  /**
   For every load and every number n of missed ticks the result is never above load * (1 - 1/2^i)^n, and short of it
   by at most (load + 127) / 128 for each rounding.
   */
  lemma {:induction false} DecayAccurate(load: nat, missed: nat, i: nat)
    requires 1 <= i < CPU_LOAD_IDX_MAX
    ensures var d := Decayed(load, missed, i);
            NotAbove(load, d, i, missed) && ShortBy(load, d, i, missed, Roundings(missed, i))
  {
    if missed == 0 {
      NoTicks(load, i, missed);
    } else if missed >= DegradeZeroTicks[i] {
      ZeroTicksLeaveLittle(load, i, missed);
    } else if i == 1 {
      HalvesAccurate(load, missed);
    } else {
      TicksAddUp(missed, 0);
      assert Pow(2, 0) == 1;
      BitsAccurate(load, missed, i, 0, Decayed(load, missed, i), missed, Ones(missed));
    }
  }

  /** There are at most seven. */
  lemma {:induction false} FewRoundings(missed: nat, i: nat)
    requires 1 <= i < CPU_LOAD_IDX_MAX
    ensures Roundings(missed, i) <= 7
  {
    if missed < DegradeZeroTicks[i] { FewOnes(missed, 0); }
  }

  lemma {:induction false} FewOnes(n: nat, j: nat)
    requires j <= 7 && n < BitsLeft(j)
    ensures Ones(n) <= 7 - j
    decreases n
  {
    if n > 0 { FewOnes(n / 2, j + 1); }
  }

  /** At index 1 the load is halved for every tick, except that from 8 ticks on nothing is left. */
  lemma {:induction false} HalvedIff(load: nat, missed: nat)
    ensures Decayed(load, missed, 1) == load / Pow(2, missed) <==> missed < 8 || load < Pow(2, missed)
  {
    HalvingDivides(load, missed);
    if missed >= 8 { ZeroQuotientIff(load, Pow(2, missed)); }
  }

  lemma {:induction false} ZeroQuotientIff(x: nat, d: nat)
    requires d > 0
    ensures x / d == 0 <==> x < d
  {
  }

  /** In 64 bits too, the result is never above: what wraps is only lost. */
  lemma {:induction false} NeverAbove64(load: nat, missed: nat, i: nat)
    requires 1 <= i < CPU_LOAD_IDX_MAX
    ensures NotAbove(load, Decayed64(load, missed, i), i, missed)
  {
    DecayAccurate(load, missed, i);
    if 0 < missed < DegradeZeroTicks[i] && i != 1 {
      BitsNeverMore(load, load, missed, i, 0);
      MulAtMost(Decayed64(load, missed, i), Decayed(load, missed, i), Den(i, missed), Den(i, missed));
    }
  }

  lemma {:induction false} BitsNeverMore(x: nat, y: nat, missed: nat, i: nat, j: nat)
    requires i < CPU_LOAD_IDX_MAX && j <= 7 && missed < BitsLeft(j) && x <= y
    ensures DecayBits64(x, missed, i, j) <= DecayBits(y, missed, i, j)
    decreases missed
  {
    if missed != 0 {
      if missed % 2 == 1 {
        ScaledNeverMore(x, y, Factor(i, j));
        BitsNeverMore(Scaled64(x, Factor(i, j)), Scaled(y, Factor(i, j)), missed / 2, i, j + 1);
      } else {
        BitsNeverMore(x, y, missed / 2, i, j + 1);
      }
    }
  }

  lemma {:induction false} ScaledNeverMore(x: nat, y: nat, f: nat)
    requires x <= y
    ensures Scaled64(x, f) <= Scaled(y, f)
  {
    MulAtMost(x, y, f, f);
    CutIsLess(x * f);
  }

  lemma {:induction false} CutIsLess(x: nat)
    ensures x % U64 <= x
  {
  }

  /** From 2^57 on a product can wrap: one missed tick takes more than half of 2^58 instead of a sixteenth. */
  lemma {:induction false} BigDecayWraps()
    ensures var x := 0x400_0000_0000_0000;
            Decayed64(x, 1, 4) == 0x1C0_0000_0000_0000 && Decayed(x, 1, 4) == 0x3C0_0000_0000_0000
  {
    var x := 0x400_0000_0000_0000;
    assert Scaled64(x, 120) == 0x1C0_0000_0000_0000 && Scaled(x, 120) == 0x3C0_0000_0000_0000;
  }

  // ----- One update -----

  function Scale(i: nat): nat
    requires 1 <= i < CPU_LOAD_IDX_MAX
  {
    [1, 2, 4, 8, 16][i]
  }

  /** The old average, caught up on the ticks missed under the load recorded when they stopped. */
  function CaughtUp(old_: nat, tickless: nat, missed: nat, i: nat): (r: int)
    requires 1 <= i < CPU_LOAD_IDX_MAX
  {
    if tickless == 0 then Decayed(old_, missed, i)
    else Decayed(old_, missed, i) - Decayed(tickless, missed, i) + tickless
  }

  /** The old load so many times less one, the new load once, and what rounds towards the new. */
  function Weighted(old_: nat, load: nat, i: nat): nat
    requires 1 <= i < CPU_LOAD_IDX_MAX
  {
    old_ * (Scale(i) - 1) + load + if load > old_ then Scale(i) - 1 else 0
  }

  /** The average of the old and the new load. */
  function Averaged(old_: nat, load: nat, i: nat): nat
    requires 1 <= i < CPU_LOAD_IDX_MAX
  {
    Weighted(old_, load, i) / Scale(i)
  }

  function Min(a: int, b: int): int { if a < b then a else b }
  function Max(a: int, b: int): int { if a < b then b else a }

  lemma {:induction false} CaughtUpBetween(old_: nat, tickless: nat, missed: nat, i: nat)
    requires 1 <= i < CPU_LOAD_IDX_MAX
    ensures Min(old_, tickless) <= CaughtUp(old_, tickless, missed, i) <= Max(old_, tickless)
    ensures missed == 0 ==> CaughtUp(old_, tickless, missed, i) == old_
  {
    DecayShrinks(old_, missed, i);
    if old_ <= tickless { DecayCloser(old_, tickless, missed, i); } else { DecayCloser(tickless, old_, missed, i); }
  }

  /** The update stays between the two loads and moves strictly towards the new one. */
  lemma {:induction false} AveragedBetween(old_: nat, load: nat, i: nat)
    requires 1 <= i < CPU_LOAD_IDX_MAX
    ensures Min(old_, load) <= Averaged(old_, load, i) <= Max(old_, load)
    ensures old_ < load ==> old_ < Averaged(old_, load, i)
    ensures old_ > load ==> Averaged(old_, load, i) < old_
  {
    match i
    case 1 =>
    case 2 =>
    case 3 =>
    case 4 =>
  }

  /** The average is (1 - 1/2^i) of the old load and 1/2^i of the new, rounded towards the new. */
  lemma {:induction false} AveragedIs(old_: nat, load: nat, i: nat)
    requires 1 <= i < CPU_LOAD_IDX_MAX
    ensures var p, a := Pow(2, i), Averaged(old_, load, i);
            && (load <= old_ ==> p * a <= old_ * (p - 1) + load < p * a + p)
            && (load > old_ ==> p * a - p < old_ * (p - 1) + load <= p * a)
  {
    SmallPowers(i);
    match i
    case 1 =>
    case 2 =>
    case 3 =>
    case 4 =>
  }

  /** c is (old - t) * num / den + t, at most k * (old + 127) / 128 below and k * (t + 127) / 128 above. */
  ghost predicate NearTo(c: int, old_: nat, t: nat, num: nat, den: nat, k: nat) {
    var error := (c - t) * den - (old_ - t) * num;
    0 - k * (old_ + 127) * den <= 128 * error <= k * (t + 127) * den
  }

  /** After n missed ticks under the load t the old average is caught up to (1 - 1/2^i)^n * (old - t) + t. */
  lemma {:induction false} CaughtUpAccurate(old_: nat, t: nat, missed: nat, i: nat)
    requires 1 <= i < CPU_LOAD_IDX_MAX
    ensures NearTo(CaughtUp(old_, t, missed, i), old_, t, Num(i, missed), Den(i, missed), Roundings(missed, i))
  {
    var a, b, c := Decayed(old_, missed, i), Decayed(t, missed, i), CaughtUp(old_, t, missed, i);
    assert c + b == a + t by { DecayZero(missed, i); }
    DecayAccurate(old_, missed, i);
    DecayAccurate(t, missed, i);
    ErrorsCancel(c, old_, t, a, b, Num(i, missed), Den(i, missed), Roundings(missed, i));
  }

  lemma {:induction false} ErrorsCancel(c: int, x: nat, y: nat, a: nat, b: nat, num: nat, den: nat, k: nat)
    requires c + b == a + y
    requires a * den <= x * num && 128 * (x * num - a * den) <= k * (x + 127) * den
    requires b * den <= y * num && 128 * (y * num - b * den) <= k * (y + 127) * den
    ensures NearTo(c, x, y, num, den, k)
  {
    assert (c - y) * den == a * den - b * den;
    assert (x - y) * num == x * num - y * num;
  }

  /** The whole array after an update. */
  ghost function Updated(load: seq<nat>, thisLoad: nat, missed: nat): (r: seq<nat>)
    requires |load| == CPU_LOAD_IDX_MAX
    ensures |r| == CPU_LOAD_IDX_MAX && r[0] == thisLoad
    ensures forall i :: 1 <= i < CPU_LOAD_IDX_MAX ==>
              && CaughtUp(load[i], load[0], missed, i) >= 0
              && r[i] == Averaged(CaughtUp(load[i], load[0], missed, i), thisLoad, i)
  {
    assert forall i :: 1 <= i < CPU_LOAD_IDX_MAX ==> CaughtUp(load[i], load[0], missed, i) >= 0 by {
      forall i | 1 <= i < CPU_LOAD_IDX_MAX ensures CaughtUp(load[i], load[0], missed, i) >= 0 {
        CaughtUpBetween(load[i], load[0], missed, i);
      }
    }
    seq(CPU_LOAD_IDX_MAX, i requires 0 <= i < CPU_LOAD_IDX_MAX =>
          if i == 0 then thisLoad else Averaged(CaughtUp(load[i], load[0], missed, i), thisLoad, i))
  }

  function CaughtUp64(old_: nat, tickless: nat, missed: nat, i: nat): nat
    requires 1 <= i < CPU_LOAD_IDX_MAX
  {
    if tickless == 0 then Decayed64(old_, missed, i)
    else (Decayed64(old_, missed, i) - Decayed64(tickless, missed, i) + tickless) % U64
  }

  function Averaged64(old_: nat, load: nat, i: nat): nat
    requires 1 <= i < CPU_LOAD_IDX_MAX
  {
    (Weighted(old_, load, i) % U64) / Scale(i)
  }

  function Updated64(load: seq<nat>, thisLoad: nat, missed: nat): (r: seq<nat>)
    requires |load| == CPU_LOAD_IDX_MAX
    ensures |r| == CPU_LOAD_IDX_MAX
  {
    seq(CPU_LOAD_IDX_MAX, i requires 0 <= i < CPU_LOAD_IDX_MAX =>
          if i == 0 then thisLoad else Averaged64(CaughtUp64(load[i], load[0], missed, i), thisLoad, i))
  }

  lemma {:induction false} DivStep(y: nat, x: nat, d: nat)
    requires d > 0 && y + d <= x
    ensures y / d < x / d
  {
    var q := y / d;
    assert (q + 1) * d <= x;
  }

  /** In 64 bits an average is what it should be exactly if its sum fits. */
  lemma {:induction false} AverageExactIff(old_: nat, load: nat, i: nat)
    requires 1 <= i < CPU_LOAD_IDX_MAX
    ensures Averaged64(old_, load, i) == Averaged(old_, load, i) <==> Weighted(old_, load, i) < U64
  {
    CutExactIff(Weighted(old_, load, i), Scale(i));
  }

  lemma {:induction false} CutExactIff(x: nat, d: nat)
    requires 0 < d <= U64
    ensures (x % U64) / d == x / d <==> x < U64
  {
    if x >= U64 {
      CutLoses(x);
      DivStep(x % U64, x, d);
    }
  }

  lemma {:induction false} CutLoses(x: nat)
    requires x >= U64
    ensures x % U64 + U64 <= x
  {
  }

  lemma {:induction false} SmallSum(old_: nat, load: nat, i: nat)
    requires 1 <= i < CPU_LOAD_IDX_MAX && old_ < MAX_LOAD && load < MAX_LOAD
    ensures Weighted(old_, load, i) < U64
  {
    assert old_ * (Scale(i) - 1) <= old_ * 15;
  }

  /** Loads below 2^56 never wrap: the code computes the exact averages. */
  lemma {:induction false} SmallLoadsExact(load: seq<nat>, thisLoad: nat, missed: nat)
    requires |load| == CPU_LOAD_IDX_MAX && thisLoad < MAX_LOAD && forall i :: 0 <= i < |load| ==> load[i] < MAX_LOAD
    ensures Updated64(load, thisLoad, missed) == Updated(load, thisLoad, missed)
  {
    forall i | 1 <= i < CPU_LOAD_IDX_MAX
      ensures Updated64(load, thisLoad, missed)[i] == Updated(load, thisLoad, missed)[i]
    {
      SmallOneExact(load[i], load[0], thisLoad, missed, i);
    }
  }

  lemma {:induction false} SmallOneExact(old_: nat, tickless: nat, load: nat, missed: nat, i: nat)
    requires 1 <= i < CPU_LOAD_IDX_MAX && old_ < MAX_LOAD && tickless < MAX_LOAD && load < MAX_LOAD
    ensures CaughtUp(old_, tickless, missed, i) >= 0
    ensures Averaged64(CaughtUp64(old_, tickless, missed, i), load, i) ==
            Averaged(CaughtUp(old_, tickless, missed, i), load, i)
  {
    SmallCatchUpExact(old_, tickless, missed, i);
    CaughtUpBetween(old_, tickless, missed, i);
    SmallSum(CaughtUp(old_, tickless, missed, i), load, i);
    AverageExactIff(CaughtUp(old_, tickless, missed, i), load, i);
  }

  lemma {:induction false} SmallCatchUpExact(old_: nat, tickless: nat, missed: nat, i: nat)
    requires 1 <= i < CPU_LOAD_IDX_MAX && old_ < MAX_LOAD && tickless < MAX_LOAD
    ensures CaughtUp64(old_, tickless, missed, i) == CaughtUp(old_, tickless, missed, i)
  {
    assert Decayed64(old_, missed, i) == Decayed(old_, missed, i) by { DecayExact(old_, missed, i); }
    assert Decayed64(tickless, missed, i) == Decayed(tickless, missed, i) by { DecayExact(tickless, missed, i); }
    CaughtUpBetween(old_, tickless, missed, i);
    NoCut(CaughtUp(old_, tickless, missed, i));
  }

  lemma {:induction false} NoCut(x: int)
    ensures 0 <= x < U64 ==> x % U64 == x
  {
  }

  /** A constant load of 2^61 makes the slowest average 0. */
  lemma {:induction false} BigLoadWraps()
    ensures var x := 0x2000_0000_0000_0000; Updated64([x, x, x, x, x], x, 0)[4] == 0
  {
    var x := 0x2000_0000_0000_0000;
    assert CaughtUp64(x, x, 0, 4) == x;
    assert x * 15 + x == 2 * U64;
  }

  /** The whole array, updated in place in 64 bits. */
  method CpuLoadUpdate(cpuLoad: array<nat>, thisLoad: nat, pendingUpdates: nat)
    requires cpuLoad.Length == CPU_LOAD_IDX_MAX && pendingUpdates >= 1
    modifies cpuLoad
    ensures cpuLoad[..] == Updated64(old(cpuLoad[..]), thisLoad, pendingUpdates - 1)
  {
    ghost var before, goal := cpuLoad[..], Updated64(cpuLoad[..], thisLoad, pendingUpdates - 1);
    var ticklessLoad := cpuLoad[0];
    cpuLoad[0] := thisLoad;
    var i, scale := 1, 2;
    while i < CPU_LOAD_IDX_MAX
      invariant 1 <= i <= CPU_LOAD_IDX_MAX && (i < CPU_LOAD_IDX_MAX ==> scale == Scale(i))
      invariant cpuLoad[..i] == goal[..i] && cpuLoad[i..] == before[i..]
    {
      assert cpuLoad[i] == cpuLoad[i..][0] == before[i];
      var load := UpdateOne(cpuLoad[i], ticklessLoad, thisLoad, pendingUpdates, i, scale);
      cpuLoad[i] := load;
      i := i + 1;
      scale := scale + scale;
      assert cpuLoad[..i] == goal[..i];
      assert cpuLoad[i..] == before[i..];
    }
    assert cpuLoad[..] == cpuLoad[..i] && goal == goal[..i];
  }

  /** The body of the loop, for one average. */
  method UpdateOne(load: nat, ticklessLoad: nat, thisLoad: nat, pendingUpdates: nat, i: nat, scale: nat)
    returns (r: nat)
    requires 1 <= i < CPU_LOAD_IDX_MAX && scale == Scale(i) && pendingUpdates >= 1
    ensures r == Averaged64(CaughtUp64(load, ticklessLoad, pendingUpdates - 1, i), thisLoad, i)
  {
    var oldLoad := DecayLoadMissed(load, pendingUpdates - 1, i);
    if ticklessLoad != 0 {
      var decayed := DecayLoadMissed(ticklessLoad, pendingUpdates - 1, i);
      WrapTwice(oldLoad, decayed, ticklessLoad);
      oldLoad := (oldLoad - decayed) % U64;
      oldLoad := (oldLoad + ticklessLoad) % U64;
    }
    r := Average(oldLoad, thisLoad, i, scale);
  }

  /** The last lines of the body: round towards the new load, add and shift. */
  method Average(oldLoad: nat, thisLoad: nat, i: nat, scale: nat) returns (r: nat)
    requires 1 <= i < CPU_LOAD_IDX_MAX && scale == Scale(i)
    ensures r == Averaged64(oldLoad, thisLoad, i)
  {
    var newLoad := thisLoad;
    if newLoad > oldLoad { newLoad := (newLoad + (scale - 1)) % U64; }
    WrapSum(oldLoad * (scale - 1), thisLoad + (scale - 1));
    r := ((oldLoad * (scale - 1) + newLoad) % U64) / scale;
  }

  lemma {:induction false} WrapTwice(a: nat, b: nat, c: nat)
    ensures ((a - b) % U64 + c) % U64 == (a - b + c) % U64
  {
    var q := (a - b) / U64;
    assert a - b == q * U64 + (a - b) % U64;
    ModShift((a - b) % U64 + c, q);
  }

  lemma {:induction false} WrapSum(a: nat, b: nat)
    ensures (a + b % U64) % U64 == (a + b) % U64
  {
    var q := b / U64;
    assert b == q * U64 + b % U64;
    ModShift(a + b % U64, q);
  }

  lemma {:induction false} ModShift(x: int, q: int)
    ensures (x + q * U64) % U64 == x % U64
    decreases if q < 0 then -q else q
  {
    if q > 0 {
      ModShift(x, q - 1);
      assert x + q * U64 == (x + (q - 1) * U64) + U64;
    } else if q < 0 {
      ModShift(x, q + 1);
      assert x + (q + 1) * U64 == (x + q * U64) + U64;
    }
  }

  // ----- What the averages do -----

  /** Each average stays between its old value, the old cpu_load[0] and the new load, however many ticks were missed. */
  lemma {:induction false} UpdateBetween(load: seq<nat>, thisLoad: nat, missed: nat, i: nat)
    requires |load| == CPU_LOAD_IDX_MAX && i < CPU_LOAD_IDX_MAX
    ensures var r := Updated(load, thisLoad, missed)[i];
            Min(load[i], Min(load[0], thisLoad)) <= r <= Max(load[i], Max(load[0], thisLoad))
  {
    if i > 0 {
      CaughtUpBetween(load[i], load[0], missed, i);
      AveragedBetween(CaughtUp(load[i], load[0], missed, i), thisLoad, i);
    }
  }

  /** n ticks in a row under the same load, none missed. */
  ghost function Ticked(load: seq<nat>, thisLoad: nat, n: nat): (r: seq<nat>)
    requires |load| == CPU_LOAD_IDX_MAX
    ensures |r| == CPU_LOAD_IDX_MAX
  {
    if n == 0 then load else Updated(Ticked(load, thisLoad, n - 1), thisLoad, 0)
  }

  function Distance(a: nat, b: nat): nat { if a < b then b - a else a - b }

  /** Every tick brings each average strictly nearer, from its side, until it is there; then it stays. */
  lemma {:induction false} TickMovesCloser(load: seq<nat>, thisLoad: nat, i: nat)
    requires |load| == CPU_LOAD_IDX_MAX && i < CPU_LOAD_IDX_MAX
    ensures var r := Updated(load, thisLoad, 0)[i];
            && (load[i] < thisLoad ==> load[i] < r <= thisLoad)
            && (load[i] > thisLoad ==> thisLoad <= r < load[i])
            && (load[i] == thisLoad ==> r == thisLoad)
  {
    if i > 0 {
      CaughtUpBetween(load[i], load[0], 0, i);
      AveragedBetween(load[i], thisLoad, i);
    }
  }

  /** Under constant load every average reaches the load, after at most as many ticks as it was away. */
  lemma {:induction false} Converges(load: seq<nat>, thisLoad: nat, i: nat, n: nat)
    requires |load| == CPU_LOAD_IDX_MAX && i < CPU_LOAD_IDX_MAX
    ensures Distance(Ticked(load, thisLoad, n)[i], thisLoad) <= Max(Distance(load[i], thisLoad) - n, 0)
    decreases n
  {
    if n > 0 {
      Converges(load, thisLoad, i, n - 1);
      TickMovesCloser(Ticked(load, thisLoad, n - 1), thisLoad, i);
    }
  }
}
