/** Consensus constants (params.py), the halving schedule and the supply cap derived from it. */
module Params {

  const CENTS_PER_COIN: nat := 100_000_000
  const MIN_RELAY_FEE: nat := 10
  const MAX_MEMPOOL_TXS: nat := 5_000
  const INITIAL_SUBSIDY: nat := 10 * CENTS_PER_COIN
  const HALVING_INTERVAL: nat := 1_650_000

  const TARGET_BLOCK_TIME: nat := 120
  const RETARGET_INTERVAL: nat := 2016
  const EXPECTED_TIMESPAN: nat := TARGET_BLOCK_TIME * RETARGET_INTERVAL
  const MIN_BITS: nat := 1
  const MAX_BITS: nat := 240

  const MAX_BLOCK_BYTES: nat := 1_000_000
  const MAX_FUTURE_TIME: nat := 2 * 60 * 60
  const MEDIAN_TIME_SPAN: nat := 11

  const GENESIS_BITS: nat := 16
  const GENESIS_TIMESTAMP: nat := 1_700_000_000

  /** Everything the schedule can still pay out once the subsidy has fallen to `subsidy`. */
  function Emission(subsidy: nat): (total: nat)
    ensures subsidy * HALVING_INTERVAL <= total
  {
    if subsidy == 0 then 0 else subsidy * HALVING_INTERVAL + Emission(subsidy / 2)
  }

  /** The supply cap, in cents: derived from the schedule rather than asserted. */
  const MAX_SUPPLY: nat := Emission(INITIAL_SUBSIDY)
  const MAX_MONEY: nat := MAX_SUPPLY

  /** The loop of params.py: it adds up the eras and stops by itself. */
  method TotalEmission() returns (total: nat)
    ensures total == MAX_SUPPLY
  {
    total := 0;
    var subsidy: nat := INITIAL_SUBSIDY;
    while subsidy > 0
      invariant total + Emission(subsidy) == MAX_SUPPLY
    {
      total := total + subsidy * HALVING_INTERVAL;
      subsidy := subsidy / 2;
    }
  }

  /** `x >> k` on non-negative integers. */
  function Shr(x: nat, k: nat): nat {
    if k == 0 then x else Shr(x, k - 1) / 2
  }

  function Pow2(n: nat): (r: nat)
    ensures r >= 1
  {
    if n == 0 then 1 else 2 * Pow2(n - 1)
  }

  /** Coins minted at `height`: the subsidy shifted right once per elapsed era, and 0 from era 64 on. */
  function BlockSubsidy(height: nat): nat {
    var halvings := height / HALVING_INTERVAL;
    if halvings >= 64 then 0 else Shr(INITIAL_SUBSIDY, halvings)
  }

  /** The subsidies of heights 0 .. n-1. */
  function CumulativeSubsidy(n: nat): nat {
    if n == 0 then 0 else CumulativeSubsidy(n - 1) + BlockSubsidy(n - 1)
  }

  lemma {:induction false} ShrShrinks(x: nat, k: nat, bound: nat)
    requires x < Pow2(bound) && k <= bound
    ensures Shr(x, k) < Pow2(bound - k)
  {
    if k > 0 {
      ShrShrinks(x, k - 1, bound);
      assert Pow2(bound - k + 1) == 2 * Pow2(bound - k);
    }
  }

  lemma {:induction false} ShrOfZero(x: nat, j: nat, k: nat)
    requires Shr(x, j) == 0 && j <= k
    ensures Shr(x, k) == 0
  {
    if j < k { ShrOfZero(x, j, k - 1); }
  }

  /** First height of an era. */
  function EraStart(era: nat): nat {
    era * HALVING_INTERVAL
  }

  /** The subsidy paid throughout an era. */
  function EraSubsidy(era: nat): nat {
    Shr(INITIAL_SUBSIDY, era)
  }

  /** The `halvings >= 64` cut-off never changes a value: the shift has reached 0 long before. */
  lemma SubsidyIsShift(height: nat)
    ensures BlockSubsidy(height) == EraSubsidy(height / HALVING_INTERVAL)
    ensures height >= EraStart(30) ==> EraSubsidy(height / HALVING_INTERVAL) == 0
  {
    assert Pow2(10) == 1024;
    assert Pow2(20) == 1024 * 1024;
    assert Pow2(30) == 1024 * 1024 * 1024;
    ShrShrinks(INITIAL_SUBSIDY, 30, 30);
    var halvings := height / HALVING_INTERVAL;
    if halvings >= 30 { ShrOfZero(INITIAL_SUBSIDY, 30, halvings); }
  }

  lemma EraOfHeight(era: nat, height: nat)
    requires EraStart(era) <= height < EraStart(era + 1)
    ensures height / HALVING_INTERVAL == era
  {
    assert height == era * 1_650_000 + (height - EraStart(era));
  }

  lemma {:induction false} Flat(from: nat, n: nat, s: nat)
    requires from <= n
    requires forall h: nat :: from <= h < n ==> BlockSubsidy(h) == s
    ensures CumulativeSubsidy(n) == CumulativeSubsidy(from) + (n - from) * s
    decreases n
  {
    if n == from {
      assert (n - from) * s == 0;
    } else {
      Flat(from, n - 1, s);
      OneMore(n - 1 - from, s);
      calc {
        CumulativeSubsidy(n);
        CumulativeSubsidy(n - 1) + BlockSubsidy(n - 1);
        CumulativeSubsidy(from) + (n - 1 - from) * s + s;
        CumulativeSubsidy(from) + (n - from) * s;
      }
    }
  }

  lemma {:induction false} WithinEra(era: nat, n: nat)
    requires EraStart(era) <= n <= EraStart(era + 1)
    ensures CumulativeSubsidy(n)
         == CumulativeSubsidy(EraStart(era)) + (n - EraStart(era)) * EraSubsidy(era)
  {
    forall h: nat | EraStart(era) <= h < n ensures BlockSubsidy(h) == EraSubsidy(era) {
      EraOfHeight(era, h);
      SubsidyIsShift(h);
    }
    Flat(EraStart(era), n, EraSubsidy(era));
  }

  /** After `era` eras, what was paid plus what the loop would still add is the cap. */
  lemma {:induction false} ErasLeft(era: nat)
    ensures CumulativeSubsidy(EraStart(era)) + Emission(EraSubsidy(era)) == MAX_SUPPLY
  {
    if era > 0 {
      ErasLeft(era - 1);
      NextEra(era - 1);
    }
  }

  lemma NextEra(era: nat)
    ensures CumulativeSubsidy(EraStart(era + 1)) + Emission(EraSubsidy(era + 1))
         == CumulativeSubsidy(EraStart(era)) + Emission(EraSubsidy(era))
  {
    WithinEra(era, EraStart(era + 1));
    EmissionStep(EraSubsidy(era));
    Commute(EraStart(era + 1) - EraStart(era), EraSubsidy(era));
  }

  lemma {:induction false} EmissionStep(s: nat)
    ensures Emission(s) == s * HALVING_INTERVAL + Emission(s / 2)
  {
  }

  lemma OneMore(k: int, s: int)
    ensures (k + 1) * s == k * s + s
  {
  }

  lemma Commute(a: int, b: int)
    ensures a * b == b * a
  {
  }

  /**
   * The subsidies of any chain, however long, sum to at most the cap the emission loop computes,
   * and to exactly the cap once thirty eras have passed.
   */
  lemma {:induction false} SubsidiesWithinCap(n: nat)
    ensures CumulativeSubsidy(n) <= MAX_SUPPLY
    ensures n >= EraStart(30) ==> CumulativeSubsidy(n) == MAX_SUPPLY
  {
    var era := n / HALVING_INTERVAL;
    assert EraStart(era) <= n <= EraStart(era + 1);
    ErasLeft(era);
    WithinEra(era, n);
    SubsidyIsShift(n);
    Scale(n - EraStart(era), HALVING_INTERVAL, EraSubsidy(era));
  }

  lemma Scale(a: nat, b: nat, s: nat)
    requires a <= b
    ensures 0 <= a * s <= s * b
  {
  }

  /** Five eras of the emission loop at once. */
  /** What ten successive eras pay per block, if the first pays `s`. */
  function TenEras(s: nat): nat {
    s + s / 2 + s / 4 + s / 8 + s / 16 + s / 32 + s / 64 + s / 128 + s / 256 + s / 512
  }

  lemma {:induction false} FiveErasOn(s: nat)
    ensures Emission(s) == (s + s / 2 + s / 4 + s / 8 + s / 16) * HALVING_INTERVAL + Emission(s / 32)
  {
    EmissionStep(s);
    EmissionStep(s / 2);
    EmissionStep(s / 4);
    EmissionStep(s / 8);
    EmissionStep(s / 16);
    assert s / 2 / 2 == s / 4 && s / 4 / 2 == s / 8 && s / 8 / 2 == s / 16 && s / 16 / 2 == s / 32;
  }

  lemma {:induction false} TenErasOn(s: nat)
    ensures Emission(s) == TenEras(s) * HALVING_INTERVAL + Emission(s / 1024)
  {
    FiveErasOn(s);
    FiveErasOn(s / 32);
    assert s / 32 / 2 == s / 64 && s / 32 / 4 == s / 128 && s / 32 / 8 == s / 256 && s / 32 / 16 == s / 512;
    assert s / 32 / 32 == s / 1024;
  }

  lemma {:induction false} ThirtyErasOn(s: nat, t: nat, u: nat)
    requires t == s / 1024 && u == t / 1024 && u < 1024
    ensures Emission(s) == (TenEras(s) + TenEras(t) + TenEras(u)) * HALVING_INTERVAL
  {
    TenErasOn(s);
    TenErasOn(t);
    TenErasOn(u);
  }

  lemma TenErasInCents()
    ensures TenEras(1_000_000_000) == 1_998_046_875 && TenEras(976_562) == 1_951_213 && TenEras(953) == 1_899
  {
  }

  /** The cap in cents: 32,999,999.7855 coins. */
  lemma {:induction false} CapInCents()
    ensures MAX_SUPPLY == 3_299_999_978_550_000
  {
    TenErasInCents();
    ThirtyErasOn(INITIAL_SUBSIDY, 976_562, 953);
  }
}
