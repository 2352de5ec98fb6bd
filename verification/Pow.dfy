/** Proof-of-work targets and the difficulty retarget (pow.py). */
module Pow {
  import opened Params
  import opened Results

  const MINIMUM_TARGET: nat := Pow2(256 - MAX_BITS)
  const MAXIMUM_TARGET: nat := Pow2(256 - MIN_BITS)

  predicate BitsInRange(bits: int) {
    MIN_BITS <= bits <= MAX_BITS
  }

  /** None stands for the ValueError raised outside 1..240. */
  function BitsToTarget(bits: int): Option<nat> {
    if BitsInRange(bits) then Some(Pow2(256 - bits)) else None
  }

  function BitLength(n: nat): nat {
    if n == 0 then 0 else 1 + BitLength(n / 2)
  }

  function Min(a: int, b: int): int { if a < b then a else b }
  function Max(a: int, b: int): int { if a < b then b else a }

  function ClampBits(bits: int): int {
    Max(MIN_BITS, Min(MAX_BITS, bits))
  }

  function TargetToBits(target: nat): int {
    if target < MINIMUM_TARGET then MAX_BITS
    else if target >= MAXIMUM_TARGET then MIN_BITS
    else if BitLength(target) > 256 then MIN_BITS
    else ClampBits(257 - BitLength(target))
  }

  function ClampTimespan(actual: int): (c: nat)
    ensures EXPECTED_TIMESPAN / 4 <= c <= 4 * EXPECTED_TIMESPAN
  {
    Max(EXPECTED_TIMESPAN / 4, Min(EXPECTED_TIMESPAN * 4, actual))
  }

  /** calculate_next_bits. Its only failure is `bits_to_target` on bits out of range. */
  function NextBits(bits: int, actual: int): int
    requires BitsInRange(bits)
  {
    var scaled := Pow2(256 - bits) * ClampTimespan(actual) / EXPECTED_TIMESPAN;
    TargetToBits(Max(MINIMUM_TARGET, Min(MAXIMUM_TARGET, scaled)))
  }

  /** `k` is the floor of the binary logarithm of c / e. */
  predicate IsFloorLog2(c: nat, e: nat, k: int) {
    if k >= 0 then e * Pow2(k) <= c < e * Pow2(k + 1) else e <= c * Pow2(-k) < 2 * e
  }

  /** That logarithm for a clamped timespan: between -2 and 2. */
  function RatioLog(c: nat): int {
    if c < EXPECTED_TIMESPAN / 2 then -2
    else if c < EXPECTED_TIMESPAN then -1
    else if c < 2 * EXPECTED_TIMESPAN then 0
    else if c < 4 * EXPECTED_TIMESPAN then 1
    else 2
  }

  lemma RatioLogIsLog(actual: int)
    ensures IsFloorLog2(ClampTimespan(actual), EXPECTED_TIMESPAN, RatioLog(ClampTimespan(actual)))
  {
    var c := ClampTimespan(actual);
    assert Pow2(0) == 1 && Pow2(1) == 2 && Pow2(2) == 4 && Pow2(3) == 8;
  }

  lemma {:induction false} Pow2Monotone(a: nat, b: nat)
    requires a <= b
    ensures Pow2(a) <= Pow2(b)
    decreases b
  {
    if a < b { Pow2Monotone(a, b - 1); }
  }

  lemma {:induction false} Pow2Add(a: nat, b: nat)
    ensures Pow2(a + b) == Pow2(a) * Pow2(b)
    decreases b
  {
    if b == 0 {
      assert Pow2(a) * Pow2(0) == Pow2(a);
    } else {
      Pow2Add(a, b - 1);
      Reassociate(Pow2(a), Pow2(b - 1));
    }
  }

  lemma Reassociate(x: nat, y: nat)
    ensures x * (2 * y) == 2 * (x * y)
  {
  }

  lemma {:induction false} BitLengthOf(n: nat, e: nat)
    requires Pow2(e) <= n < Pow2(e + 1)
    ensures BitLength(n) == e + 1
    decreases e
  {
    if e == 0 {
      assert Pow2(1) == 2 && n == 1;
      assert BitLength(0) == 0;
    } else {
      assert Pow2(e) == 2 * Pow2(e - 1) && Pow2(e + 1) == 2 * Pow2(e);
      BitLengthOf(n / 2, e - 1);
    }
  }

  /** Reading a target back, after the clamp, from its leading bit. */
  lemma ReadBack(target: nat, e: nat)
    requires Pow2(e) <= target < Pow2(e + 1)
    ensures TargetToBits(Max(MINIMUM_TARGET, Min(MAXIMUM_TARGET, target))) == ClampBits(256 - e)
  {
    var clamped := Max(MINIMUM_TARGET, Min(MAXIMUM_TARGET, target));
    AtTheLimits();
    if e < 16 {
      Pow2Monotone(e + 1, 16);
      assert clamped == MINIMUM_TARGET;
    } else if e >= 255 {
      Pow2Monotone(255, e);
      assert clamped == MAXIMUM_TARGET;
    } else {
      MidTarget(target, e);
      assert clamped == target;
    }
  }

  /** Between the limits the leading bit decides. */
  lemma MidTarget(target: nat, e: nat)
    requires 16 <= e < 255 && Pow2(e) <= target < Pow2(e + 1)
    ensures MINIMUM_TARGET <= target < MAXIMUM_TARGET && TargetToBits(target) == 256 - e
  {
    BetweenLimits(target, e);
    BitLengthOf(target, e);
    LeadingBit(target, e);
  }

  lemma BetweenLimits(target: nat, e: nat)
    requires 16 <= e < 255 && Pow2(e) <= target < Pow2(e + 1)
    ensures MINIMUM_TARGET <= target < MAXIMUM_TARGET
  {
    Pow2Monotone(16, e);
    Pow2Monotone(e + 1, 255);
  }

  lemma {:induction false} LeadingBit(target: nat, e: nat)
    requires 16 <= e < 255 && MINIMUM_TARGET <= target < MAXIMUM_TARGET && BitLength(target) == e + 1
    ensures TargetToBits(target) == 256 - e
  {
  }

  lemma AtTheLimits()
    ensures MINIMUM_TARGET < MAXIMUM_TARGET
    ensures TargetToBits(MINIMUM_TARGET) == MAX_BITS
    ensures TargetToBits(MAXIMUM_TARGET) == MIN_BITS
  {
    Pow2Monotone(17, 255);
    BitLengthOf(MINIMUM_TARGET, 16);
  }

  /** floor(t * c / e) keeps the bounds w <= . < 2w. */
  lemma QuotientBounds(n: nat, e: nat, w: nat)
    requires e > 0 && w * e <= n < 2 * w * e
    ensures w <= n / e < 2 * w
  {
    var q := n / e;
    assert n == q * e + n % e;
    if q < w {
      Order(e, q + 1, w);
    }
    if q >= 2 * w {
      Order(e, 2 * w, q);
    }
  }

  /** old target * c lies in [2^(m+k) * e, 2^(m+k+1) * e). */
  lemma {:induction false} ScaledBounds(m: nat, c: nat, e: nat, k: int)
    requires IsFloorLog2(c, e, k) && m + k >= 0
    ensures Pow2(m + k) * e <= Pow2(m) * c < 2 * Pow2(m + k) * e
  {
    if k >= 0 {
      Pow2Add(m, k);
      ScaleUp(Pow2(m), Pow2(k), e, c);
    } else {
      Pow2Add(m + k, -k);
      assert Pow2(m) == Pow2(m + k) * Pow2(-k);
      ScaleDown(Pow2(m + k), Pow2(-k), e, c);
    }
  }

  lemma ScaleUp(t: nat, p: nat, e: nat, c: nat)
    requires t > 0 && e * p <= c < 2 * (e * p)
    ensures (t * p) * e <= t * c < 2 * (t * p) * e
  {
    Order(t, e * p, c);
    Order'(t, c, 2 * (e * p));
    Regroup(t, e, p);
  }

  lemma ScaleDown(w: nat, p: nat, e: nat, c: nat)
    requires w > 0 && e <= c * p < 2 * e
    ensures w * e <= (w * p) * c < 2 * w * e
  {
    Order(w, e, c * p);
    Order'(w, c * p, 2 * e);
    Regroup(w, c, p);
    assert w * (2 * e) == 2 * w * e;
  }

  lemma Regroup(t: nat, e: nat, p: nat)
    ensures t * (e * p) == t * p * e
    ensures t * (2 * (e * p)) == 2 * (t * p) * e
  {
    var ep := e * p;
    assert t * ep == t * (p * e) == t * p * e;
    assert t * (2 * ep) == 2 * (t * ep);
    assert 2 * (t * p) * e == 2 * (t * p * e);
  }

  lemma Order(t: nat, a: int, b: int)
    requires a <= b
    ensures t * a <= t * b
  {
  }

  lemma Order'(t: nat, a: int, b: int)
    requires a < b && t > 0
    ensures t * a < t * b
  {
  }

  /** The retarget rule in closed form: bits move by floor(log2(c / E)), within 1..240. */
  lemma RetargetIsLogRule(bits: int, actual: int, k: int)
    requires BitsInRange(bits)
    requires IsFloorLog2(ClampTimespan(actual), EXPECTED_TIMESPAN, k) && -2 <= k <= 2
    ensures NextBits(bits, actual) == ClampBits(bits - k)
  {
    var m, c := 256 - bits, ClampTimespan(actual);
    ScaledBounds(m, c, EXPECTED_TIMESPAN, k);
    QuotientBounds(Pow2(m) * c, EXPECTED_TIMESPAN, Pow2(m + k));
    ReadBack(Pow2(m) * c / EXPECTED_TIMESPAN, m + k);
  }

  /** What the rule means for a chain: in range, at most two steps, and slower blocks never make it harder. */
  lemma RetargetBehaviour(bits: int, actual: int, later: int)
    requires BitsInRange(bits) && actual <= later
    ensures BitsInRange(NextBits(bits, actual))
    ensures bits - 2 <= NextBits(bits, actual) <= bits + 2
    ensures NextBits(bits, later) <= NextBits(bits, actual)
    ensures NextBits(bits, EXPECTED_TIMESPAN) == bits
  {
    RatioLogIsLog(actual);
    RatioLogIsLog(later);
    RatioLogIsLog(EXPECTED_TIMESPAN);
    RetargetIsLogRule(bits, actual, RatioLog(ClampTimespan(actual)));
    RetargetIsLogRule(bits, later, RatioLog(ClampTimespan(later)));
    RetargetIsLogRule(bits, EXPECTED_TIMESPAN, RatioLog(ClampTimespan(EXPECTED_TIMESPAN)));
  }

  /** Bits survive the trip through their target. */
  lemma {:induction false} TargetRoundTrip(bits: int)
    requires BitsInRange(bits)
    ensures TargetToBits(BitsToTarget(bits).value) == bits
  {
    var e := 256 - bits;
    if e < 255 {
      PowerDoubles(e);
      MidTarget(Pow2(e), e);
    } else {
      AtTheLimits();
    }
  }

  lemma PowerDoubles(e: nat)
    ensures Pow2(e) < Pow2(e + 1)
  {
  }
}
