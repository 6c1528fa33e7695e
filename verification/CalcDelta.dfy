/**
 Fixed-point division of time by weight: __calc_delta and the slices sched_slice makes of it (64-bit).
 */
module CalcDelta {
  import opened Common

  const TWO32: nat := 0x1_0000_0000
  const U64: nat := 0x1_0000_0000_0000_0000
  const WMULT_CONST: nat := 0xFFFF_FFFF
  const NICE_0_LOAD: nat := 0x10_0000

  /** weight and inv_weight; 0 marks an inverse to be recomputed. */
  datatype LoadWeight = LoadWeight(weight: nat, inv: nat)

  function ScaleLoadDown(weight: nat): nat { weight / 1024 }

  function Pow2(n: nat): nat { if n == 0 then 1 else 2 * Pow2(n - 1) }

  // ----- The reference -----

  function Inverse(w: nat): nat {
    if w >= WMULT_CONST then 1 else if w == 0 then WMULT_CONST else WMULT_CONST / w
  }

  /** How often fact is halved until it fits 32 bits, and what it is then. */
  function Halvings(fact: nat): nat { if fact < TWO32 then 0 else 1 + Halvings(fact / 2) }
  function Halved(fact: nat): nat { if fact < TWO32 then fact else Halved(fact / 2) }

  /** All the bits the shift loses. */
  function Shifts(f: nat, inv: nat): nat { Halvings(f) + Halvings(Halved(f) * inv) }

  /** The value before it is cut to 64 bits. */
  function Wide(delta: nat, f: nat, inv: nat): nat
    requires Shifts(f, inv) <= 32
  {
    Shr(delta * Halved(Halved(f) * inv), 32 - Shifts(f, inv))
  }

  /** x >> n. */
  function Shr(x: nat, n: nat): nat {
    if n == 0 then x else Shr(x / 2, n - 1)
  }

  /** Shifting right divides by a power of two and rounds down. */
  lemma {:induction false} ShrBounds(x: nat, n: nat)
    ensures Shr(x, n) * Pow2(n) <= x < (Shr(x, n) + 1) * Pow2(n)
    decreases n
  {
    if n > 0 {
      ShrBounds(x / 2, n - 1);
      Doubled(Shr(x, n), Pow2(n - 1));
      Doubled(Shr(x, n) + 1, Pow2(n - 1));
    }
  }

  lemma {:induction false} Doubled(h: nat, p: nat)
    ensures h * (2 * p) == 2 * (h * p)
  {
  }

  lemma {:induction false} Pow2Positive(n: nat)
    ensures Pow2(n) > 0
    decreases n
  {
    if n > 0 { Pow2Positive(n - 1); }
  }

  // ----- The code -----

  function UpdateInvWeight(lw: LoadWeight): LoadWeight {
    if lw.inv != 0 then lw else lw.(inv := Inverse(ScaleLoadDown(lw.weight)))
  }

  /** Either of the two loops that bring the factor down to 32 bits. */
  method Normalise(first: nat, before: int) returns (fact: nat, shift: int)
    ensures fact == Halved(first) && fact < TWO32 && shift == before - Halvings(first)
  {
    fact, shift := first, before;
    while fact >= TWO32
      invariant Halved(fact) == Halved(first) && shift - Halvings(fact) == before - Halvings(first)
    {
      fact := fact / 2;
      shift := shift - 1;
    }
  }

  /** What the function returns: the value cut to 64 bits, or nothing defined if the shift is negative. */
  function Returned(delta: nat, f: nat, inv: nat): Option<nat> {
    if Shifts(f, inv) <= 32 then Some(Wide(delta, f, inv) % U64) else None
  }

  lemma {:induction false} ReturnedIs(delta: nat, f: nat, inv: nat)
    ensures var shift := 32 - Halvings(f) - Halvings(Halved(f) * inv);
            Returned(delta, f, inv) ==
              if shift >= 0 then Some(MulU64U32Shr(delta, Halved(Halved(f) * inv), shift)) else None
  {
  }

  /** The two loops and the product compute the value, whatever the weights; a negative shift is undefined. */
  method CalcDelta(delta: nat, weight: nat, lw: LoadWeight) returns (r: Option<nat>, lw': LoadWeight)
    ensures lw' == UpdateInvWeight(lw)
    ensures lw'.weight == lw.weight && lw'.inv == if lw.inv != 0 then lw.inv else Inverse(ScaleLoadDown(lw.weight))
    ensures r == Returned(delta, ScaleLoadDown(weight), lw'.inv)
  {
    lw' := UpdateInvWeight(lw);
    ReturnedIs(delta, ScaleLoadDown(weight), lw'.inv);
    var fact, shift := Normalise(ScaleLoadDown(weight), 32);
    fact, shift := Normalise(fact * lw'.inv, shift);
    r := if shift >= 0 then Some(MulU64U32Shr(delta, fact, shift)) else None;
  }

  /** mul_u64_u32_shr: the product in full, shifted and cut to 64 bits. */
  function MulU64U32Shr(delta: nat, fact: nat, shift: nat): nat { Shr(delta * fact, shift) % U64 }

  // ----- Error bounds -----

  lemma {:induction false} MulMono(a: nat, b: nat, c: nat)
    requires a <= b
    ensures a * c <= b * c
  {
    assert b * c == a * c + (b - a) * c;
  }

  lemma {:induction false} DivBounds(x: nat, d: nat)
    requires d > 0
    ensures (x / d) * d <= x < (x / d) * d + d
  {
  }

  lemma {:induction false} InverseBounds(w: nat)
    requires 1 <= w <= TWO32 - 2
    ensures Inverse(w) * w <= WMULT_CONST && TWO32 <= Inverse(w) * w + w
  {
    DivBounds(WMULT_CONST, w);
  }

  /** For an entity no heavier than its queue nothing is ever shifted out: the product fits 32 bits. */
  lemma {:induction false} NoShift(f: nat, w: nat)
    requires f <= w <= TWO32 - 2
    ensures f * Inverse(w) < TWO32 && Shifts(f, Inverse(w)) == 0
  {
    if w > 0 {
      InverseBounds(w);
      MulMono(f, w, Inverse(w));
    }
  }

  /** The product of the multiplied-out rounding errors: r is delta * fact / 2^32 rounded down, fact = f * inv. */
  lemma {:induction false} NeverAbove(delta: nat, f: nat, inv: nat, w: nat, r: nat)
    requires inv * w <= TWO32 && r * TWO32 <= delta * (f * inv)
    ensures r * w <= delta * f
  {
    MulMono(r * TWO32, delta * (f * inv), w);
    MulMono(inv * w, TWO32, delta * f);
    assert delta * (f * inv) * w == (inv * w) * (delta * f);
    assert r * TWO32 * w == (r * w) * TWO32;
  }

  lemma {:induction false} NotFarBelow(delta: nat, f: nat, inv: nat, w: nat, r: nat, slack: nat)
    requires w >= 1 && TWO32 <= inv * w + w && delta * (f * inv) < (r + 1) * TWO32 + slack
    ensures delta * f * TWO32 < (r + 1) * w * TWO32 + slack * w + delta * f * w
  {
    MulMono(TWO32, inv * w + w, delta * f);
    assert (inv * w + w) * (delta * f) == delta * (f * inv) * w + delta * f * w;
    assert delta * (f * inv) + 1 <= (r + 1) * TWO32 + slack;
    MulMono(delta * (f * inv) + 1, (r + 1) * TWO32 + slack, w);
    assert ((r + 1) * TWO32 + slack) * w == (r + 1) * w * TWO32 + slack * w;
  }

  /**
   Never more than delta * f / w, for every entity no heavier than its queue and every queue of
   scaled weight up to 2^32; a queue of scaled weight 0 gives 0.
   */
  lemma {:induction false} SliceNeverAbove(delta: nat, f: nat, w: nat)
    requires f <= w <= TWO32
    ensures Shifts(f, Inverse(w)) <= 1
    ensures Wide(delta, f, Inverse(w)) * w <= delta * f
    ensures Wide(delta, f, Inverse(w)) <= delta && (w == 0 ==> Wide(delta, f, Inverse(w)) == 0)
    ensures delta < U64 ==> Returned(delta, f, Inverse(w)) == Some(Wide(delta, f, Inverse(w)))
  {
    SliceWide(delta, f, w);
    if delta < U64 { NothingCut(Wide(delta, f, Inverse(w))); }
  }

  lemma {:induction false} NothingCut(x: nat)
    requires x < U64
    ensures x % U64 == x
  {
  }

  lemma {:induction false} SliceWide(delta: nat, f: nat, w: nat)
    requires f <= w <= TWO32
    ensures Shifts(f, Inverse(w)) <= 1
    ensures Wide(delta, f, Inverse(w)) * w <= delta * f
    ensures Wide(delta, f, Inverse(w)) <= delta && (w == 0 ==> Wide(delta, f, Inverse(w)) == 0)
  {
    if w <= TWO32 - 2 {
      NoShift(f, w);
      PowersOfTwo();
      var r := Wide(delta, f, Inverse(w));
      ShrBounds(delta * (f * Inverse(w)), 32);
      if w > 0 {
        InverseBounds(w);
        NeverAbove(delta, f, Inverse(w), w, r);
        AtMostWhole(r, w, delta, f);
      }
    } else {
      HugeQueue(delta, f, w);
    }
  }

  lemma {:induction false} AtMostWhole(r: nat, w: nat, delta: nat, f: nat)
    requires w > 0 && r * w <= delta * f && f <= w
    ensures r <= delta
  {
    MulMono(f, w, delta);
    if r > delta { MulMono(delta + 1, r, w); }
  }

  lemma {:induction false} PowersOfTwo()
    ensures Pow2(32) == TWO32 && Pow2(31) == 0x8000_0000 && Pow2(22) == 0x40_0000
  {
    assert Pow2(8) == 256;
    assert Pow2(16) == 256 * Pow2(8);
    assert Pow2(22) == 64 * Pow2(16);
    assert Pow2(24) == 256 * Pow2(16);
    assert Pow2(31) == 128 * Pow2(24);
  }

  /** At scaled weights 2^32 - 1 and 2^32 the inverse is 1. */
  lemma {:induction false} HugeQueue(delta: nat, f: nat, w: nat)
    requires WMULT_CONST <= w <= TWO32 && f <= w
    ensures Shifts(f, Inverse(w)) <= 1
    ensures Wide(delta, f, Inverse(w)) * w <= delta * f && Wide(delta, f, Inverse(w)) <= delta
  {
    PowersOfTwo();
    var r := Wide(delta, f, 1);
    if f < TWO32 {
      ShrBounds(delta * f, 32);
      MulMono(w, TWO32, r);
      AtMostWhole(r, w, delta, f);
    } else {
      assert Halved(f) == 0x8000_0000;
      assert r == delta by { ShrExact(delta, 31); }
    }
  }

  lemma {:induction false} ShrExact(x: nat, n: nat)
    ensures Shr(x * Pow2(n), n) == x
    decreases n
  {
    if n > 0 {
      Doubled(x, Pow2(n - 1));
      ShrExact(x, n - 1);
    }
  }

  /** Above scaled weight 2^32 every entity that can be gets too much of every multiple of 2^32. */
  lemma {:induction false} OverweightExceeds(k: nat, f: nat, w: nat)
    requires w > TWO32 && 1 <= f < TWO32 && k >= 1
    ensures Shifts(f, Inverse(w)) <= 32 && Wide(k * TWO32, f, Inverse(w)) * w > k * TWO32 * f
  {
    PowersOfTwo();
    assert k * TWO32 * f == (k * f) * Pow2(32);
    ShrExact(k * f, 32);
    assert Wide(k * TWO32, f, Inverse(w)) == k * f;
    MulMono(1, k, f);
    MulLess(k * f, TWO32, w);
  }

  lemma {:induction false} MulLess(a: nat, b: nat, c: nat)
    requires a >= 1 && b < c
    ensures a * c > a * b
  {
    MulMono(b + 1, c, a);
  }

  /** The result, if defined, is at most the share delta * f / w. */
  ghost predicate NeverTooMuch(delta: nat, f: nat, w: nat) {
    Shifts(f, Inverse(w)) <= 32 && Wide(delta, f, Inverse(w)) * w <= delta * f
  }

  /**
   No entity ever gets more than its share of anything exactly up to scaled queue weight 2^32. An entity of
   scaled weight 1 is enough to tell, so the limits on the weights of entities do not matter.
   */
  lemma {:induction false} NeverTooMuchIff(w: nat)
    ensures w <= TWO32 <==> forall delta: nat, f: nat :: f <= w && f < TWO32 ==> NeverTooMuch(delta, f, w)
  {
    if w <= TWO32 {
      forall delta: nat, f: nat | f <= w && f < TWO32 ensures NeverTooMuch(delta, f, w) {
        SliceNeverAbove(delta, f, w);
      }
    } else {
      OverweightExceeds(1, 1, w);
      assert !NeverTooMuch(TWO32, 1, w);
    }
  }

  /** The shift of an entity no heavier than its queue stays positive for every 64-bit weight, as the comment says. */
  lemma {:induction false} ShiftStaysPositive(f: nat, w: nat)
    requires f <= w < U64 / 1024
    ensures Shifts(f, Inverse(w)) <= 22
  {
    if w <= TWO32 {
      SliceNeverAbove(0, f, w);
    } else {
      PowersOfTwo();
      FewHalvings(f, 22);
      HalvedFits(f);
    }
  }

  lemma {:induction false} HalvedFits(fact: nat)
    ensures Halved(fact) < TWO32
    decreases fact
  {
    if fact >= TWO32 { HalvedFits(fact / 2); }
  }

  /** The slice falls short of delta * f / w by less than delta * f / 2^32 + 1. */
  lemma {:induction false} SliceNotFarBelow(delta: nat, f: nat, w: nat)
    requires 1 <= w <= TWO32 - 2 && f <= w
    ensures Shifts(f, Inverse(w)) == 0
    ensures delta * f * TWO32 < (Wide(delta, f, Inverse(w)) + 1) * w * TWO32 + delta * f * w
    ensures delta < U64 ==> Returned(delta, f, Inverse(w)) == Some(Wide(delta, f, Inverse(w)))
  {
    SliceNeverAbove(delta, f, w);
    NoShift(f, w);
    PowersOfTwo();
    InverseBounds(w);
    var r := Wide(delta, f, Inverse(w));
    ShrBounds(delta * (f * Inverse(w)), 32);
    NotFarBelow(delta, f, Inverse(w), w, r, 0);
  }

  // ----- The case of weight NICE_0_LOAD: virtual runtime -----

  lemma {:induction false} HalvedIsShifted(fact: nat)
    ensures Halved(fact) == Shr(fact, Halvings(fact))
    decreases fact
  {
    if fact >= TWO32 { HalvedIsShifted(fact / 2); }
  }

  lemma {:induction false} FewHalvings(fact: nat, s: nat)
    requires fact < TWO32 * Pow2(s)
    ensures Halvings(fact) <= s
    decreases s
  {
    if fact >= TWO32 && s > 0 {
      assert TWO32 * Pow2(s) == 2 * (TWO32 * Pow2(s - 1));
      FewHalvings(fact / 2, s - 1);
    }
  }

  lemma {:induction false} Pow2Mono(a: nat, b: nat)
    requires a <= b
    ensures Pow2(a) <= Pow2(b)
    decreases b
  {
    if a < b { Pow2Mono(a, b - 1); Pow2Positive(b - 1); }
  }

  lemma {:induction false} Pow2Split(a: nat, b: nat)
    ensures Pow2(a) * Pow2(b) == Pow2(a + b)
    decreases a
  {
    if a > 0 {
      Pow2Split(a - 1, b);
      assert Pow2(a) * Pow2(b) == 2 * (Pow2(a - 1) * Pow2(b));
    }
  }

  lemma {:induction false} InverseFits(w: nat)
    ensures Inverse(w) < TWO32
  {
    if 0 < w < WMULT_CONST {
      DivBounds(WMULT_CONST, w);
      MulMono(1, w, Inverse(w));
    }
  }

  /** The shift stays at 22 or more for every 32-bit inverse, as the source's comment says. */
  lemma {:induction false} Nice0Shift(inv: nat)
    requires inv < TWO32
    ensures Shifts(1024, inv) <= 10
  {
    Pow2Ten();
    FewHalvings(1024 * inv, 10);
  }

  /** Rounding the factor and then the shifted product: never above. */
  lemma {:induction false} RoundedTwiceBelow(delta: nat, fact: nat, g: nat, p: nat, d: nat, r: nat)
    requires g * p <= fact && r * d <= delta * g
    ensures r * (d * p) <= delta * fact
  {
    MulMono(r * d, delta * g, p);
    assert r * (d * p) == r * d * p && delta * g * p == (g * p) * delta;
    MulMono(g * p, fact, delta);
  }

  /** And above by less than delta times the factor's unit plus one unit of the result. */
  lemma {:induction false} RoundedTwiceAbove(delta: nat, fact: nat, g: nat, p: nat, d: nat, r: nat)
    requires fact < (g + 1) * p && delta * g < r * d + d && p > 0
    ensures delta * fact < (r + 1) * (d * p) + p * delta
  {
    MulMono(fact, (g + 1) * p, delta);
    assert (g + 1) * p * delta == delta * g * p + p * delta;
    MulMono(delta * g + 1, r * d + d, p);
    assert (r * d + d) * p == (r + 1) * (d * p);
  }

  lemma {:induction false} Pow2Ten()
    ensures Pow2(10) == 1024
  {
    assert Pow2(5) == 32;
    assert Pow2(10) == 32 * Pow2(5);
  }

  lemma {:induction false} Nice0Rounding(delta: nat, inv: nat)
    requires Halvings(1024 * inv) <= 10
    ensures Shifts(1024, inv) == Halvings(1024 * inv)
    ensures var r := Wide(delta, 1024, inv);
            r * TWO32 <= delta * (1024 * inv) < (r + 1) * TWO32 + delta * 1024
  {
    Pow2Ten();
    PowersOfTwo();
    Pow2Mono(Halvings(1024 * inv), 10);
    Rounding(delta, 1024 * inv, Halvings(1024 * inv), 32, 1024);
  }

  /** Halving a factor s times and shifting the product by the rest of n loses less than so much. */
  lemma {:induction false} Rounding(delta: nat, fact: nat, s: nat, n: nat, most: nat)
    requires s == Halvings(fact) <= n && Pow2(s) <= most
    ensures var r := Shr(delta * Halved(fact), n - s);
            r * Pow2(n) <= delta * fact < (r + 1) * Pow2(n) + delta * most
  {
    var g, p, d := Halved(fact), Pow2(s), Pow2(n - s);
    var r := Shr(delta * g, n - s);
    HalvedIsShifted(fact);
    ShrBounds(fact, s);
    Pow2Positive(n - s);
    Pow2Positive(s);
    Pow2Split(n - s, s);
    ShrBounds(delta * g, n - s);
    RoundedTwiceBelow(delta, fact, g, p, d, r);
    RoundedTwiceAbove(delta, fact, g, p, d, r);
    MulMono(p, most, delta);
  }

  /**
   With weight NICE_0_LOAD, before the cut to 64 bits: never more than delta * 1024 / w, and short of it by
   less than delta / 2^21 + 1.
   */
  lemma {:induction false} Nice0Wide(delta: nat, w: nat)
    requires 1 <= w <= TWO32 - 2
    ensures Shifts(1024, Inverse(w)) <= 10
    ensures Wide(delta, 1024, Inverse(w)) * w <= delta * 1024
    ensures NotTooLittle(delta, w, Wide(delta, 1024, Inverse(w)))
  {
    InverseFits(w);
    Nice0Shift(Inverse(w));
    InverseBounds(w);
    var inv := Inverse(w);
    Nice0Rounding(delta, inv);
    var r := Wide(delta, 1024, inv);
    NeverAbove(delta, 1024, inv, w, r);
    NotFarBelow(delta, 1024, inv, w, r, delta * 1024);
    assert delta * 1024 * w + delta * 1024 * w == 2048 * delta * w;
  }

  /** r is short of delta * 1024 / w by less than delta / 2^21 + 1. */
  ghost predicate NotTooLittle(delta: nat, w: nat, r: nat) {
    delta * 1024 * TWO32 < (r + 1) * w * TWO32 + 2048 * delta * w
  }

  /**
   What is returned for weight NICE_0_LOAD: never too much; and not too little exactly when nothing was cut
   off at 64 bits, as is the case whenever the exact value fits 64 bits.
   */
  lemma {:induction false} Nice0Bounds(delta: nat, w: nat)
    requires 1 <= w <= TWO32 - 2 && delta < U64
    ensures Shifts(1024, Inverse(w)) <= 10
    ensures var r := Wide(delta, 1024, Inverse(w)) % U64;
            && Returned(delta, 1024, Inverse(w)) == Some(r) && r * w <= delta * 1024
            && (NotTooLittle(delta, w, r) <==> Wide(delta, 1024, Inverse(w)) < U64)
    ensures delta * 1024 < w * U64 ==> Wide(delta, 1024, Inverse(w)) < U64
  {
    Nice0Wide(delta, w);
    var wide := Wide(delta, 1024, Inverse(w));
    var r := wide % U64;
    MulMono(r, wide, w);
    if wide >= U64 {
      CutIsTooLittle(delta, w, wide, r);
      MulMono(U64, wide, w);
    }
  }

  /** Losing 2^64 of the value is far more than the bound allows for. */
  lemma {:induction false} CutIsTooLittle(delta: nat, w: nat, wide: nat, r: nat)
    requires w >= 1 && delta < U64 && wide * w <= delta * 1024 && r + U64 <= wide
    ensures !NotTooLittle(delta, w, r)
  {
    MulMono(r + U64, wide, w);
    assert (r + U64) * w == (r + 1) * w + (U64 - 1) * w;
    MulMono(2048 * delta, (U64 - 1) * TWO32, w);
    assert (U64 - 1) * TWO32 * w == (U64 - 1) * w * TWO32;
    assert ((r + 1) * w + (U64 - 1) * w) * TWO32 == (r + 1) * w * TWO32 + (U64 - 1) * w * TWO32;
  }

  /** At scaled weight 1, and 2^57 ns, what is returned is too little: the exact value has 67 bits. */
  lemma {:induction false} Nice0Wraps()
    ensures var delta, w := 0x200_0000_0000_0000, 1;
            && Returned(delta, 1024, Inverse(w)).Some?
            && !NotTooLittle(delta, w, Returned(delta, 1024, Inverse(w)).value)
  {
    var delta, w := 0x200_0000_0000_0000, 1;
    Nice0Wide(delta, w);
    Nice0Bounds(delta, w);
  }

  /** What an entity's virtual runtime advances by in delta of execution. */
  function FairDelta(delta: nat, lw: LoadWeight): (r: nat)
    requires delta < U64 && UpdateInvWeight(lw).inv < TWO32
    ensures r < U64
  {
    if lw.weight == NICE_0_LOAD then delta
    else
      Nice0Shift(UpdateInvWeight(lw).inv);
      Returned(delta, 1024, UpdateInvWeight(lw).inv).value
  }

  method CalcDeltaFair(delta: nat, lw: LoadWeight) returns (r: nat, lw': LoadWeight)
    requires delta < U64 && UpdateInvWeight(lw).inv < TWO32
    ensures r == FairDelta(delta, lw) && lw' == if lw.weight == NICE_0_LOAD then lw else UpdateInvWeight(lw)
    ensures lw.weight == NICE_0_LOAD ==> r == delta
    ensures lw.weight != NICE_0_LOAD ==> Returned(delta, 1024, lw'.inv) == Some(r)
  {
    r, lw' := delta, lw;
    if lw.weight != NICE_0_LOAD {
      Nice0Shift(UpdateInvWeight(lw).inv);
      var v: Option<nat>;
      v, lw' := CalcDelta(delta, NICE_0_LOAD, lw);
      r := v.value;
    }
  }

  // ----- Slices -----

  /** One level of the way up: the entity's weight, its queue's load, and whether it is queued there. */
  datatype Level = Level(weight: nat, load: LoadWeight, onRq: bool) {
    /** The load the entity is measured against; a queue's load is marked for recomputing by every change. */
    function Against(): LoadWeight {
      if onRq then load else LoadWeight(load.weight + weight, 0)
    }

    ghost predicate Fresh() {
      && UpdateInvWeight(Against()).inv == Inverse(ScaleLoadDown(Against().weight))
      && weight <= Against().weight && ScaleLoadDown(Against().weight) <= TWO32
    }
  }

  lemma {:induction false} ScaledAtMost(a: nat, b: nat)
    requires a <= b
    ensures ScaleLoadDown(a) <= ScaleLoadDown(b)
  {
  }

  /** The slice after the levels of the way up, each taking its share of the one below. */
  function SliceOf(slice: nat, path: seq<Level>): (r: nat)
    requires forall i :: 0 <= i < |path| ==> path[i].Fresh()
    ensures r <= slice
    decreases |path|
  {
    if path == [] then slice
    else
      assert path[0].Fresh();
      var w := ScaleLoadDown(path[0].Against().weight);
      ScaledAtMost(path[0].weight, path[0].Against().weight);
      SliceNeverAbove(slice, ScaleLoadDown(path[0].weight), w);
      SliceOf(Wide(slice, ScaleLoadDown(path[0].weight), Inverse(w)), path[1..])
  }

  /**
   r is what one level leaves of a slice: never more than the entity's share of its queue, itself counted in, and
   short of it by less than slice * f / 2^32 + 1.
   */
  ghost predicate ShareRight(slice: nat, level: Level, r: nat) {
    var f, w := ScaleLoadDown(level.weight), ScaleLoadDown(level.load.weight + if level.onRq then 0 else level.weight);
    r * w <= slice * f && (1 <= w <= TWO32 - 2 ==> slice * f * TWO32 < (r + 1) * w * TWO32 + slice * f * w)
  }

  /** The slice on the way up: each level has its share of what the one below left. */
  method SchedSlice(period: nat, path: seq<Level>) returns (slice: nat, ghost steps: seq<nat>)
    requires period < U64 && forall i :: 0 <= i < |path| ==> path[i].Fresh()
    ensures slice == SliceOf(period, path) && slice <= period
    ensures |steps| == |path| + 1 && steps[0] == period && steps[|path|] == slice
    ensures forall i :: 0 <= i < |path| ==> ShareRight(steps[i], path[i], steps[i + 1])
  {
    slice, steps := period, [period];
    for i := 0 to |path|
      invariant slice <= period && SliceOf(slice, path[i..]) == SliceOf(period, path)
      invariant |steps| == i + 1 && steps[0] == period && steps[i] == slice
      invariant forall j :: 0 <= j < i ==> ShareRight(steps[j], path[j], steps[j + 1])
    {
      assert path[i..][1..] == path[i + 1..] && path[i].Fresh();
      slice := LevelShare(slice, path[i]);
      steps := steps + [slice];
    }
  }

  /** The body of the loop: the share one level takes. */
  method LevelShare(slice: nat, level: Level) returns (r: nat)
    requires slice < U64 && level.Fresh()
    ensures Shifts(ScaleLoadDown(level.weight), Inverse(ScaleLoadDown(level.Against().weight))) <= 32
    ensures r == Wide(slice, ScaleLoadDown(level.weight), Inverse(ScaleLoadDown(level.Against().weight))) <= slice
    ensures ShareRight(slice, level, r)
  {
    ScaledAtMost(level.weight, level.Against().weight);
    if 1 <= ScaleLoadDown(level.Against().weight) <= TWO32 - 2 {
      SliceNotFarBelow(slice, ScaleLoadDown(level.weight), ScaleLoadDown(level.Against().weight));
    }
    SliceNeverAbove(slice, ScaleLoadDown(level.weight), ScaleLoadDown(level.Against().weight));
    var load := level.load;
    if !level.onRq { load := LoadWeight(load.weight + level.weight, 0); }
    var v, lw := CalcDelta(slice, level.weight, load);
    r := v.value;
  }

  function Sum(s: seq<nat>): nat {
    if s == [] then 0 else Sum(s[..|s| - 1]) + s[|s| - 1]
  }

  /** The slices of the first k entities of a flat queue of the given total weight. */
  function SlicesSum(period: nat, weights: seq<nat>, total: nat, k: nat): nat
    requires k <= |weights| && ScaleLoadDown(total) <= TWO32
    requires forall i :: 0 <= i < |weights| ==> weights[i] <= total
  {
    if k == 0 then 0
    else
      var level := Level(weights[k - 1], LoadWeight(total, 0), true);
      SlicesSum(period, weights, total, k - 1) + SliceOf(period, [level])
  }

  lemma {:induction false} EachWithinSum(s: seq<nat>, i: nat)
    requires i < |s|
    ensures s[i] <= Sum(s)
    decreases |s|
  {
    if i < |s| - 1 { EachWithinSum(s[..|s| - 1], i); }
  }

  lemma {:induction false} OneSlice(period: nat, weight: nat, total: nat)
    requires weight <= total && ScaleLoadDown(total) <= TWO32
    ensures var mine := SliceOf(period, [Level(weight, LoadWeight(total, 0), true)]);
            && mine * ScaleLoadDown(total) <= period * ScaleLoadDown(weight)
            && (ScaleLoadDown(total) == 0 ==> mine == 0)
  {
    var level := Level(weight, LoadWeight(total, 0), true);
    ScaledAtMost(weight, total);
    SliceNeverAbove(period, ScaleLoadDown(weight), ScaleLoadDown(total));
    assert [level][1..] == [];
  }

  lemma {:induction false} SlicesWithin(period: nat, weights: seq<nat>, total: nat, k: nat)
    requires k <= |weights| && ScaleLoadDown(total) <= TWO32
    requires forall i :: 0 <= i < |weights| ==> weights[i] <= total
    ensures SlicesSum(period, weights, total, k) * ScaleLoadDown(total) <= period * ScaleLoadDown(Sum(weights[..k]))
    ensures ScaleLoadDown(total) == 0 ==> SlicesSum(period, weights, total, k) == 0
    decreases k
  {
    if k > 0 {
      SlicesWithin(period, weights, total, k - 1);
      OneSlice(period, weights[k - 1], total);
      assert weights[..k][..k - 1] == weights[..k - 1];
      var before := SlicesSum(period, weights, total, k - 1);
      var mine := SliceOf(period, [Level(weights[k - 1], LoadWeight(total, 0), true)]);
      ShareAdds(before, mine, ScaleLoadDown(total), period, Sum(weights[..k - 1]), weights[k - 1]);
    }
  }

  /** Scaling down each weight loses at least what scaling down their sum loses. */
  lemma {:induction false} ShareAdds(before: nat, mine: nat, w: nat, period: nat, below: nat, weight: nat)
    requires before * w <= period * ScaleLoadDown(below) && mine * w <= period * ScaleLoadDown(weight)
    ensures (before + mine) * w <= period * ScaleLoadDown(below + weight)
  {
    var sum := ScaleLoadDown(below) + ScaleLoadDown(weight);
    assert (before + mine) * w == before * w + mine * w;
    assert period * sum == period * ScaleLoadDown(below) + period * ScaleLoadDown(weight);
    MulMono(sum, ScaleLoadDown(below + weight), period);
  }

  /** On a flat queue whose load is the sum of its entities' weights, the slices fit the period. */
  lemma {:induction false} SlicesFitPeriod(period: nat, weights: seq<nat>)
    requires ScaleLoadDown(Sum(weights)) <= TWO32
    ensures forall i :: 0 <= i < |weights| ==> weights[i] <= Sum(weights)
    ensures SlicesSum(period, weights, Sum(weights), |weights|) <= period
  {
    forall i | 0 <= i < |weights| ensures weights[i] <= Sum(weights) { EachWithinSum(weights, i); }
    var total := Sum(weights);
    SlicesWithin(period, weights, total, |weights|);
    assert weights[..|weights|] == weights;
    var w := ScaleLoadDown(total);
    if w > 0 { AtMostWhole(SlicesSum(period, weights, total, |weights|), w, period, w); }
  }
}
