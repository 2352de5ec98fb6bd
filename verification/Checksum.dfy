/** The Bech32 checksum of wallet.py: a linear register over bits, after BIP 173, section "Checksum". */
module Checksum {
  import opened Params

  /** A 30-bit register as its bits, bit 0 first. */
  type Reg = r: seq<bool> | |r| == 30 witness seq(30, i => false)

  function Zero(): Reg {
    seq(30, i => false)
  }

  function One(): Reg {
    seq(30, i => i == 0)
  }

  const GENERATOR: seq<nat> := [0x3B6A57B2, 0x26508E6D, 0x1EA119FA, 0x3D4233DD, 0x2A1462B3]

  predicate Symbols(data: seq<int>) {
    forall i :: 0 <= i < |data| ==> 0 <= data[i] < 32
  }

  /** What the register takes in: symbols, and the character codes of any prefix. */
  predicate Words(values: seq<int>) {
    forall i :: 0 <= i < |values| ==> 0 <= values[i] < 0x4000_0000
  }

  predicate BitAt(n: nat, j: nat) {
    n / Pow2(j) % 2 == 1
  }

  function XorReg(a: Reg, b: Reg): Reg {
    seq(30, j requires 0 <= j < 30 => a[j] != b[j])
  }

  function GenReg(i: nat): Reg
    requires i < 5
  {
    seq(30, j requires 0 <= j < 30 => BitAt(GENERATOR[i], j))
  }

  /** `(chk & 0x1ffffff) << 5 ^ value`. */
  function ShiftIn(c: Reg, v: nat): Reg {
    seq(30, j requires 0 <= j < 30 => (j >= 5 && c[j - 5]) != BitAt(v, j))
  }

  /** The first `k` generators, each added when its bit of the old top is set. */
  function Taps(c: Reg, k: nat, s: Reg): Reg
    requires k <= 5
  {
    if k == 0 then s
    else if c[25 + k - 1] then XorReg(Taps(c, k - 1, s), GenReg(k - 1))
    else Taps(c, k - 1, s)
  }

  function Step(c: Reg, v: nat): Reg {
    Taps(c, 5, ShiftIn(c, v))
  }

  function Run(c: Reg, values: seq<int>): Reg
    requires Words(values)
  {
    if |values| == 0 then c else Step(Run(c, values[..|values| - 1]), values[|values| - 1])
  }

  function Polymod(values: seq<int>): Reg
    requires Words(values)
  {
    Run(One(), values)
  }

  /** _bech32_polymod, with its two loops. */
  method ComputePolymod(values: seq<int>) returns (chk: Reg)
    requires Words(values)
    ensures chk == Polymod(values)
  {
    chk := One();
    for n := 0 to |values|
      invariant chk == Polymod(values[..n])
    {
      var top := chk;
      chk := ShiftIn(chk, values[n]);
      for i := 0 to 5
        invariant chk == Taps(top, i, ShiftIn(top, values[n]))
      {
        if top[25 + i] { chk := XorReg(chk, GenReg(i)); }
      }
      assert values[..n + 1][..n] == values[..n];
    }
    assert values[..|values|] == values;
  }

  // ----- linearity ----------------------------------------------------------------- //

  lemma XorPairs(a: Reg, b: Reg, c: Reg, d: Reg)
    ensures XorReg(XorReg(a, b), XorReg(c, d)) == XorReg(XorReg(a, c), XorReg(b, d))
    ensures XorReg(a, Zero()) == a
    ensures XorReg(a, a) == Zero()
    ensures XorReg(XorReg(a, b), b) == a
    ensures XorReg(a, b) == XorReg(b, a)
    ensures XorReg(a, b) == Zero() ==> a == b
  {
    if XorReg(a, b) == Zero() {
      forall j | 0 <= j < 30 ensures a[j] == b[j] {
        assert XorReg(a, b)[j] == Zero()[j];
      }
    }
  }

  lemma XorOne(a: Reg, b: Reg, g: Reg)
    ensures XorReg(XorReg(a, g), b) == XorReg(XorReg(a, b), g)
    ensures XorReg(a, XorReg(b, g)) == XorReg(XorReg(a, b), g)
    ensures XorReg(XorReg(a, g), XorReg(b, g)) == XorReg(a, b)
  {
  }

  /** The taps are linear in the register they read and the one they add to. */
  lemma {:induction false} TapsLinear(a: Reg, b: Reg, k: nat, s: Reg, t: Reg)
    requires k <= 5
    ensures XorReg(Taps(a, k, s), Taps(b, k, t)) == Taps(XorReg(a, b), k, XorReg(s, t))
  {
    if k > 0 {
      TapsLinear(a, b, k - 1, s, t);
      XorOne(Taps(a, k - 1, s), Taps(b, k - 1, t), GenReg(k - 1));
    }
  }

  lemma StepLinear(a: Reg, b: Reg, v: nat, w: nat)
    ensures XorReg(Step(a, v), Step(b, w)) == Taps(XorReg(a, b), 5, XorReg(ShiftIn(a, v), ShiftIn(b, w)))
  {
    TapsLinear(a, b, 5, ShiftIn(a, v), ShiftIn(b, w));
  }

  lemma {:induction false} NoTaps(c: Reg, s: Reg)
    requires forall j :: 25 <= j < 30 ==> !c[j]
    ensures Taps(c, 5, s) == s
  {
    assert Taps(c, 0, s) == s;
    assert Taps(c, 1, s) == s;
    assert Taps(c, 2, s) == s;
    assert Taps(c, 3, s) == s;
    assert Taps(c, 4, s) == s;
  }

  /** The same symbol shifts a difference on as a zero would. */
  lemma SameSymbol(a: Reg, b: Reg, v: nat)
    ensures XorReg(Step(a, v), Step(b, v)) == Step(XorReg(a, b), 0)
  {
    StepLinear(a, b, v, v);
    forall j: nat | j < 5 ensures !BitAt(0, j) {}
    assert XorReg(ShiftIn(a, v), ShiftIn(b, v)) == ShiftIn(XorReg(a, b), 0);
  }

  // ----- the step is injective -------------------------------------------------------- //

  predicate Odd(a: bool, b: bool, c: bool, d: bool, e: bool) {
    ((((a != b) != c) != d) != e)
  }

  /** Bit `j` of the result, written out. */
  lemma {:induction false} TapsBit(c: Reg, s: Reg, j: nat)
    requires j < 30
    ensures Taps(c, 5, s)[j]
         == (s[j] != Odd(c[25] && GenReg(0)[j], c[26] && GenReg(1)[j], c[27] && GenReg(2)[j],
                         c[28] && GenReg(3)[j], c[29] && GenReg(4)[j]))
  {
    assert Taps(c, 1, s)[j] == (s[j] != (c[25] && GenReg(0)[j]));
    assert Taps(c, 2, s)[j] == (Taps(c, 1, s)[j] != (c[26] && GenReg(1)[j]));
    assert Taps(c, 3, s)[j] == (Taps(c, 2, s)[j] != (c[27] && GenReg(2)[j]));
    assert Taps(c, 4, s)[j] == (Taps(c, 3, s)[j] != (c[28] && GenReg(3)[j]));
  }

  lemma SmallPowers()
    ensures Pow2(0) == 1 && Pow2(1) == 2 && Pow2(2) == 4 && Pow2(3) == 8 && Pow2(4) == 16 && Pow2(5) == 32
  {
  }

  /** The low bits of the generators: 18, 13, 26, 29 and 19, independent over GF(2). */
  lemma LowGenerators()
    ensures !GenReg(0)[0] && GenReg(0)[1] && !GenReg(0)[2] && !GenReg(0)[3] && GenReg(0)[4]
    ensures GenReg(1)[0] && !GenReg(1)[1] && GenReg(1)[2] && GenReg(1)[3] && !GenReg(1)[4]
    ensures !GenReg(2)[0] && GenReg(2)[1] && !GenReg(2)[2] && GenReg(2)[3] && GenReg(2)[4]
    ensures GenReg(3)[0] && !GenReg(3)[1] && GenReg(3)[2] && GenReg(3)[3] && GenReg(3)[4]
    ensures GenReg(4)[0] && GenReg(4)[1] && !GenReg(4)[2] && !GenReg(4)[3] && GenReg(4)[4]
  {
    SmallPowers();
  }

  /** Only the zero register is shifted to zero. */
  lemma ZeroKernel(c: Reg)
    requires Step(c, 0) == Zero()
    ensures c == Zero()
  {
    SmallPowers();
    LowGenerators();
    forall j: nat | j < 5 ensures !ShiftIn(c, 0)[j] {
      assert !BitAt(0, j);
    }
    TapsBit(c, ShiftIn(c, 0), 0);
    TapsBit(c, ShiftIn(c, 0), 1);
    TapsBit(c, ShiftIn(c, 0), 2);
    TapsBit(c, ShiftIn(c, 0), 3);
    TapsBit(c, ShiftIn(c, 0), 4);
    TopIsZero(c);
    NoTaps(c, ShiftIn(c, 0));
    forall j | 0 <= j < 25 ensures !c[j] {
      assert ShiftIn(c, 0)[j + 5] == Zero()[j + 5];
    }
  }

  /** Taking in the same symbol keeps different registers apart: a difference never dies out. */
  lemma {:induction false} StepInjective(c: Reg, d: Reg, v: nat)
    requires Step(c, v) == Step(d, v)
    ensures c == d
  {
    SameSymbol(c, d, v);
    XorPairs(Step(c, v), Step(c, v), Step(c, v), Step(c, v));
    ZeroKernel(XorReg(c, d));
    XorPairs(c, d, c, d);
  }

  lemma TopIsZero(c: Reg)
    requires forall j: nat :: j < 5 ==>
               !Odd(c[25] && GenReg(0)[j], c[26] && GenReg(1)[j], c[27] && GenReg(2)[j],
                    c[28] && GenReg(3)[j], c[29] && GenReg(4)[j])
    ensures forall j :: 25 <= j < 30 ==> !c[j]
  {
    LowGenerators();
  }

  // ----- runs over symbol lists -------------------------------------------------------- //

  lemma {:induction false} RunConcat(c: Reg, x: seq<int>, y: seq<int>)
    requires Words(x) && Words(y)
    ensures Run(c, x + y) == Run(Run(c, x), y)
  {
    if |y| == 0 {
      assert x + y == x;
    } else {
      var n := |y| - 1;
      RunConcat(c, x, y[..n]);
      assert (x + y)[..|x + y| - 1] == x + y[..n];
    }
  }

  function Quiet(n: nat): (zeros: seq<int>)
    ensures |zeros| == n && Symbols(zeros) && Words(zeros)
  {
    seq(n, i => 0)
  }

  /** Whatever follows, different registers stay different. */
  lemma {:induction false} RunInjective(a: Reg, b: Reg, values: seq<int>)
    requires Words(values) && Run(a, values) == Run(b, values)
    ensures a == b
  {
    if |values| > 0 {
      var n := |values| - 1;
      StepInjective(Run(a, values[..n]), Run(b, values[..n]), values[n]);
      RunInjective(a, b, values[..n]);
    }
  }

  /** A symbol is determined by its five bits. */
  lemma SymbolBits(v: int, w: int)
    requires 0 <= v < 32 && 0 <= w < 32
    requires forall j: nat :: j < 5 ==> (BitAt(v, j) <==> BitAt(w, j))
    ensures v == w
  {
    SmallPowers();
    assert BitAt(v, 0) <==> BitAt(w, 0);
    assert BitAt(v, 1) <==> BitAt(w, 1);
    assert BitAt(v, 2) <==> BitAt(w, 2);
    assert BitAt(v, 3) <==> BitAt(w, 3);
    assert BitAt(v, 4) <==> BitAt(w, 4);
    FiveBits(v);
    FiveBits(w);
  }

  lemma FiveBits(v: int)
    requires 0 <= v < 32
    ensures v == v % 2 + 2 * (v / 2 % 2) + 4 * (v / 4 % 2) + 8 * (v / 8 % 2) + 16 * (v / 16 % 2)
  {
    assert v / 4 == v / 2 / 2;
    assert v / 8 == v / 4 / 2;
    assert v / 16 == v / 8 / 2;
  }

  /** Different symbols leave different registers. */
  lemma SymbolMatters(c: Reg, v: int, w: int)
    requires 0 <= v < 32 && 0 <= w < 32 && v != w
    ensures Step(c, v) != Step(c, w)
  {
    var d := XorReg(ShiftIn(c, v), ShiftIn(c, w));
    XorPairs(c, c, c, c);
    StepLinear(c, c, v, w);
    NoTaps(Zero(), d);
    if Step(c, v) == Step(c, w) {
      XorPairs(Step(c, v), Step(c, w), c, c);
      forall j: nat | j < 5 ensures BitAt(v, j) <==> BitAt(w, j) {
        assert d[j] == Zero()[j];
      }
      SymbolBits(v, w);
    }
  }

  /** Changing one symbol always changes the checksum register, wherever it stands. */
  lemma OneSymbolMatters(x: seq<int>, v: int, w: int, y: seq<int>)
    requires Words(x) && Words(y) && 0 <= v < 32 && 0 <= w < 32 && v != w
    ensures Words(x + [v] + y) && Words(x + [w] + y)
    ensures Polymod(x + [v] + y) != Polymod(x + [w] + y)
  {
    var c := Run(One(), x);
    RunConcat(One(), x + [v], y);
    RunConcat(One(), x + [w], y);
    RunConcat(One(), x, [v]);
    RunConcat(One(), x, [w]);
    RunOne(c, v);
    RunOne(c, w);
    SymbolMatters(c, v, w);
    var a, b := Step(c, v), Step(c, w);
    if Run(a, y) == Run(b, y) { RunInjective(a, b, y); }
  }

  lemma {:induction false} RunOne(c: Reg, v: int)
    requires 0 <= v < 32
    ensures Run(c, [v]) == Step(c, v)
  {
    assert [v][..0] == [];
  }

  // ----- making a checksum ---------------------------------------------------------------- //

  /** `(polymod >> 5 * (5 - i)) & 31`. */
  function SymbolOf(r: Reg, i: nat): (v: int)
    requires i < 6
    ensures 0 <= v < 32
  {
    var p := 5 * (5 - i);
    (if r[p] then 1 else 0) + (if r[p + 1] then 2 else 0) + (if r[p + 2] then 4 else 0)
      + (if r[p + 3] then 8 else 0) + (if r[p + 4] then 16 else 0)
  }

  /** The register that holds up to six symbols, the last in the low bits. */
  function Packed(s: seq<int>): Reg
    requires Symbols(s) && |s| <= 6
  {
    seq(30, j requires 0 <= j < 30 => j / 5 < |s| && BitAt(s[|s| - 1 - j / 5], j % 5))
  }

  /** Up to six symbols only shift into the register: they reach no tap. */
  lemma {:induction false} SixSymbols(c: Reg, s: seq<int>)
    requires Symbols(s) && |s| <= 6
    ensures XorReg(Run(c, s), Run(c, Quiet(|s|))) == Packed(s)
  {
    if |s| == 0 {
      XorPairs(c, c, c, c);
      assert Packed(s) == Zero();
    } else {
      var n := |s| - 1;
      SixSymbols(c, s[..n]);
      assert Quiet(|s|)[..n] == Quiet(n);
      var a, b := Run(c, s[..n]), Run(c, Quiet(n));
      StepLinear(a, b, s[n], 0);
      ShiftDifference(a, b, s[n]);
      NoTaps(Packed(s[..n]), ShiftIn(Packed(s[..n]), s[n]));
      PackedNext(s);
    }
  }

  lemma ShiftDifference(a: Reg, b: Reg, v: nat)
    ensures XorReg(ShiftIn(a, v), ShiftIn(b, 0)) == ShiftIn(XorReg(a, b), v)
  {
    forall j: nat | j < 5 ensures !BitAt(0, j) {}
  }

  lemma {:induction false} NoHighBits(v: int, j: nat)
    requires 0 <= v < 32 && j >= 5
    ensures !BitAt(v, j)
  {
    SmallPowers();
    if j > 5 { PowersGrow(5, j); }
  }

  lemma {:induction false} PowersGrow(i: nat, j: nat)
    requires i <= j
    ensures Pow2(i) <= Pow2(j)
  {
    if i < j { PowersGrow(i, j - 1); }
  }

  lemma PackedNext(s: seq<int>)
    requires Symbols(s) && 0 < |s| <= 6
    ensures ShiftIn(Packed(s[..|s| - 1]), s[|s| - 1]) == Packed(s)
  {
    var n := |s| - 1;
    forall j | 0 <= j < 30 ensures ShiftIn(Packed(s[..n]), s[n])[j] == Packed(s)[j] {
      if j >= 5 {
        assert (j - 5) / 5 == j / 5 - 1 && (j - 5) % 5 == j % 5;
        NoHighBits(s[n], j);
      }
    }
  }

  lemma SymbolOfBit(r: Reg, i: nat, k: nat)
    requires i < 6 && k < 5
    ensures BitAt(SymbolOf(r, i), k) == r[5 * (5 - i) + k]
  {
    SmallPowers();
  }

  /** Reading the six symbols of a register and packing them again gives the register. */
  lemma PackUnpack(r: Reg)
    ensures Packed(seq(6, i requires 0 <= i < 6 => SymbolOf(r, i))) == r
  {
    var s := seq(6, i requires 0 <= i < 6 => SymbolOf(r, i));
    forall j | 0 <= j < 30 ensures Packed(s)[j] == r[j] {
      SymbolOfBit(r, 5 - j / 5, j % 5);
    }
  }

  lemma UnpackPack(s: seq<int>)
    requires Symbols(s) && |s| == 6
    ensures seq(6, i requires 0 <= i < 6 => SymbolOf(Packed(s), i)) == s
  {
    forall i: nat | i < 6 ensures SymbolOf(Packed(s), i) == s[i] {
      forall k: nat | k < 5 ensures BitAt(SymbolOf(Packed(s), i), k) <==> BitAt(s[i], k) {
        SymbolOfBit(Packed(s), i, k);
        var j := 5 * (5 - i) + k;
        assert j / 5 == 5 - i && j % 5 == k;
      }
      SymbolBits(SymbolOf(Packed(s), i), s[i]);
    }
  }

  /** _bech32_create_checksum on the expanded values. */
  function CreateChecksum(values: seq<int>): (c: seq<int>)
    requires Words(values)
    ensures |c| == 6 && Symbols(c)
  {
    var polymod := XorReg(Polymod(values + Quiet(6)), One());
    seq(6, i requires 0 <= i < 6 => SymbolOf(polymod, i))
  }

  /** Six symbols check exactly when they are the created checksum. */
  lemma ChecksumUnique(values: seq<int>, s: seq<int>)
    requires Words(values) && Symbols(s) && |s| == 6
    ensures Polymod(values + s) == One() <==> s == CreateChecksum(values)
  {
    var c := Polymod(values);
    var z := Run(c, Quiet(6));
    RunConcat(One(), values, s);
    RunConcat(One(), values, Quiet(6));
    SixSymbols(c, s);
    var r := XorReg(z, One());
    if s == CreateChecksum(values) {
      PackUnpack(r);
      XorBack(Run(c, s), z, One());
    }
    if Run(c, s) == One() {
      XorPairs(One(), z, z, z);
      assert Packed(s) == r;
      UnpackPack(s);
    }
  }

  lemma XorBack(a: Reg, z: Reg, u: Reg)
    requires XorReg(a, z) == XorReg(z, u)
    ensures a == u
  {
    forall j | 0 <= j < 30 ensures a[j] == u[j] {
      assert XorReg(a, z)[j] == XorReg(z, u)[j];
    }
  }
}
