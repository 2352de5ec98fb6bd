/**
 * The Bech32 checksum as arithmetic over the field of 32 elements (BIP 173, section "Checksum design"): the register
 * is a remainder, and two wrong symbols never cancel out.
 */
module Detection {
  import opened Params
  import opened Checksum
  import Pow

  // ----- the field -------------------------------------------------------------------------- //

  /** An element of the field: five bits, the lowest first. */
  datatype Element = Element(p: bool, q: bool, r: bool, s: bool, t: bool)

  const ZERO: Element := Element(false, false, false, false, false)
  const ONE: Element := Element(true, false, false, false, false)

  /** The element that a symbol stands for. */
  function Of(v: int): Element
    requires 0 <= v < 32
  {
    Element(BitAt(v, 0), BitAt(v, 1), BitAt(v, 2), BitAt(v, 3), BitAt(v, 4))
  }

  /** Addition: bit by bit, without carries. */
  function Plus(a: Element, b: Element): Element {
    Element(a.p != b.p, a.q != b.q, a.r != b.r, a.s != b.s, a.t != b.t)
  }

  function Sum(a: Element, b: Element, c: Element, d: Element, e: Element): Element {
    Plus(Plus(Plus(Plus(a, b), c), d), e)
  }

  /** Multiplication by the element 2, whose fifth power is 9. */
  function Twice(a: Element): Element {
    Element(a.t, a.p, a.q, a.r != a.t, a.s)
  }

  function If(bit: bool, a: Element): Element {
    if bit then a else ZERO
  }

  /** Multiplication: the multiples of `b` by powers of 2, for the bits of `a`. */
  function Times(a: Element, b: Element): Element {
    var b1 := Twice(b);
    var b2 := Twice(b1);
    var b3 := Twice(b2);
    var b4 := Twice(b3);
    Sum(If(a.p, b), If(a.q, b1), If(a.r, b2), If(a.s, b3), If(a.t, b4))
  }

  /** The multiple of `b` by the `i`-th power of 2. */
  function Raised(b: Element, i: nat): Element {
    if i == 0 then b else Twice(Raised(b, i - 1))
  }

  // ----- the generators ---------------------------------------------------------------------- //

  /** x^6 + 29 x^5 + 22 x^4 + 20 x^3 + 21 x^2 + 29 x + 18, without its first term. */
  function Coefficient(k: nat): (a: int)
    requires k < 6
    ensures 0 <= a < 32
  {
    if k == 0 then 18 else if k == 1 then 29 else if k == 2 then 21 else if k == 3 then 20 else if k == 4 then 22
    else 29
  }

  lemma HighPowers()
    ensures Pow2(10) == 1024 && Pow2(15) == 32_768 && Pow2(20) == 1_048_576 && Pow2(25) == 33_554_432
  {
    SmallPowers();
    assert Pow2(10) == 32 * Pow2(5);
    assert Pow2(15) == 32 * Pow2(10);
    assert Pow2(20) == 32 * Pow2(15);
    assert Pow2(25) == 32 * Pow2(20);
  }

  /** Five bits of a number, from bit `5 * k`. */
  function Chunk(n: nat, k: nat): (v: int)
    ensures 0 <= v < 32
  {
    n / Pow2(5 * k) % 32
  }

  lemma {:induction false} RaisedSteps(b: Element)
    ensures Raised(b, 0) == b && Raised(b, 1) == Twice(b) && Raised(b, 2) == Twice(Twice(b))
    ensures Raised(b, 3) == Twice(Twice(Twice(b))) && Raised(b, 4) == Twice(Twice(Twice(Twice(b))))
  {
    assert Raised(b, 1) == Twice(Raised(b, 0));
    assert Raised(b, 2) == Twice(Raised(b, 1));
    assert Raised(b, 3) == Twice(Raised(b, 2));
  }

  /** A number written with six digits of five bits. */
  function Joined(d: seq<int>): int
    requires |d| == 6 && Symbols(d)
  {
    d[0] + 32 * d[1] + 1_024 * d[2] + 32_768 * d[3] + 1_048_576 * d[4] + 33_554_432 * d[5]
  }

  lemma Quotient(n: int, p: int, low: int, q: int)
    requires p > 0 && 0 <= low < p && n == low + p * q
    ensures n / p == q
  {
    assert n == p * (n / p) + n % p;
    if n / p < q { Apart(p, n / p, q); }
    if n / p > q { Apart(p, q, n / p); }
  }

  lemma Apart(p: int, a: int, b: int)
    requires p > 0 && a < b
    ensures p * a + p <= p * b
  {
    Pow.Order(p, a + 1, b);
    assert p * (a + 1) == p * a + p;
  }

  lemma {:induction false} ChunksOfJoined(d: seq<int>, k: nat)
    requires |d| == 6 && Symbols(d) && k < 6
    ensures Joined(d) >= 0 && Chunk(Joined(d), k) == d[k]
  {
    SmallPowers();
    HighPowers();
    var n := Joined(d);
    var q5 := d[5];
    var q4 := d[4] + 32 * q5;
    var q3 := d[3] + 32 * q4;
    var q2 := d[2] + 32 * q3;
    var q1 := d[1] + 32 * q2;
    if k == 0 { ChunkIs(n, 0, 1, 0, d[0], q1); }
    if k == 1 { ChunkIs(n, 1, 32, d[0], d[1], q2); }
    if k == 2 { ChunkIs(n, 2, 1_024, d[0] + 32 * d[1], d[2], q3); }
    if k == 3 { ChunkIs(n, 3, 32_768, d[0] + 32 * d[1] + 1_024 * d[2], d[3], q4); }
    if k == 4 { ChunkIs(n, 4, 1_048_576, d[0] + 32 * d[1] + 1_024 * d[2] + 32_768 * d[3], d[4], q5); }
    if k == 5 { TopChunk(n, d[0] + 32 * d[1] + 1_024 * d[2] + 32_768 * d[3] + 1_048_576 * d[4], q5); }
  }

  lemma {:induction false} ChunkIs(n: nat, k: nat, p: nat, low: int, d: int, q: int)
    requires p == Pow2(5 * k) && 0 <= low < p && 0 <= d < 32 && n == low + p * (d + 32 * q)
    ensures Chunk(n, k) == d
  {
    Quotient(n, p, low, d + 32 * q);
  }

  lemma TopChunk(n: nat, low: int, d: int)
    requires 0 <= low < 33_554_432 && 0 <= d < 32 && n == low + 33_554_432 * d
    ensures Chunk(n, 5) == d
  {
    SmallPowers();
    HighPowers();
    ChunkIs(n, 5, 33_554_432, low, d, 0);
  }

  /** The symbol of twice an element. */
  function Doubled(v: int): (w: int)
    requires 0 <= v < 32
    ensures 0 <= w < 32
  {
    var w := 2 * v % 32;
    if v < 16 then w else if w / 8 % 2 == 0 then w + 9 else w - 7
  }

  function Bit(b: bool, weight: int): int {
    if b then weight else 0
  }

  lemma BitsOfSum(a: bool, b: bool, c: bool, d: bool, e: bool)
    ensures var v := Bit(a, 1) + Bit(b, 2) + Bit(c, 4) + Bit(d, 8) + Bit(e, 16);
            0 <= v < 32 && Of(v) == Element(a, b, c, d, e)
  {
    SmallPowers();
  }

  lemma SumOfBits(v: int)
    requires 0 <= v < 32
    ensures v == Bit(BitAt(v, 0), 1) + Bit(BitAt(v, 1), 2) + Bit(BitAt(v, 2), 4) + Bit(BitAt(v, 3), 8)
                 + Bit(BitAt(v, 4), 16)
  {
    SmallPowers();
    FiveBits(v);
  }

  lemma DoubledSum(a: bool, b: bool, c: bool, d: bool, e: bool)
    ensures var v := Bit(a, 1) + Bit(b, 2) + Bit(c, 4) + Bit(d, 8) + Bit(e, 16);
            0 <= v < 32 && Doubled(v) == Bit(e, 1) + Bit(a, 2) + Bit(b, 4) + Bit(c != e, 8) + Bit(d, 16)
  {
  }

  lemma DoubledIsTwice(v: int)
    requires 0 <= v < 32
    ensures Of(Doubled(v)) == Twice(Of(v))
  {
    var x := Of(v);
    SumOfBits(v);
    DoubledSum(x.p, x.q, x.r, x.s, x.t);
    BitsOfSum(x.t, x.p, x.q, x.r != x.t, x.s);
  }

  function Multiple(i: nat, k: nat): (v: int)
    requires k < 6
    ensures 0 <= v < 32
  {
    if i == 0 then Coefficient(k) else Doubled(Multiple(i - 1, k))
  }

  function Multiples(i: nat): (d: seq<int>)
    ensures |d| == 6 && Symbols(d)
  {
    [Multiple(i, 0), Multiple(i, 1), Multiple(i, 2), Multiple(i, 3), Multiple(i, 4), Multiple(i, 5)]
  }

  lemma {:induction false} MultipleIsRaised(i: nat, k: nat)
    requires k < 6
    ensures Of(Multiple(i, k)) == Raised(Of(Coefficient(k)), i)
  {
    if i > 0 {
      MultipleIsRaised(i - 1, k);
      DoubledIsTwice(Multiple(i - 1, k));
    }
  }

  lemma {:induction false} MultipleTable()
    ensures Multiple(0, 0) == 18 && Multiple(0, 1) == 29 && Multiple(0, 2) == 21
    ensures Multiple(0, 3) == 20 && Multiple(0, 4) == 22 && Multiple(0, 5) == 29
    ensures Multiple(1, 0) == 13 && Multiple(1, 1) == 19 && Multiple(1, 2) == 3
    ensures Multiple(1, 3) == 1 && Multiple(1, 4) == 5 && Multiple(1, 5) == 19
    ensures Multiple(2, 0) == 26 && Multiple(2, 1) == 15 && Multiple(2, 2) == 6
    ensures Multiple(2, 3) == 2 && Multiple(2, 4) == 10 && Multiple(2, 5) == 15
    ensures Multiple(3, 0) == 29 && Multiple(3, 1) == 30 && Multiple(3, 2) == 12
    ensures Multiple(3, 3) == 4 && Multiple(3, 4) == 20 && Multiple(3, 5) == 30
    ensures Multiple(4, 0) == 19 && Multiple(4, 1) == 21 && Multiple(4, 2) == 24
    ensures Multiple(4, 3) == 8 && Multiple(4, 4) == 1 && Multiple(4, 5) == 21
  {
  }

  lemma {:induction false} MultiplesInFull()
    ensures Multiples(0) == [18, 29, 21, 20, 22, 29] && Multiples(1) == [13, 19, 3, 1, 5, 19]
    ensures Multiples(2) == [26, 15, 6, 2, 10, 15] && Multiples(3) == [29, 30, 12, 4, 20, 30]
    ensures Multiples(4) == [19, 21, 24, 8, 1, 21]
  {
    MultipleTable();
  }

  lemma JoinedIs(d: seq<int>, n: int)
    requires |d| == 6 && Symbols(d)
    requires n == d[0] + 32 * d[1] + 1_024 * d[2] + 32_768 * d[3] + 1_048_576 * d[4] + 33_554_432 * d[5]
    ensures Joined(d) == n
  {
  }

  lemma JoinedMultiples(i: nat)
    requires i < 5
    ensures Joined(Multiples(i)) == GENERATOR[i]
  {
    MultiplesInFull();
    JoinedIs(Multiples(i), GENERATOR[i]);
  }

  /** Generator `i` is the polynomial times the `i`-th power of 2. */
  lemma {:induction false} GeneratorsAreMultiples(i: nat, k: nat)
    requires i < 5 && k < 6
    ensures Of(Chunk(GENERATOR[i], k)) == Raised(Of(Coefficient(k)), i)
  {
    JoinedMultiples(i);
    ChunksOfJoined(Multiples(i), k);
    MultipleIsRaised(i, k);
  }

  // ----- the register is a remainder ------------------------------------------------------------ //

  /** `n >> j`. */
  function Shifted(n: nat, j: nat): nat {
    DivideNat(n, Pow2(j));
    n / Pow2(j)
  }

  lemma DivideNat(n: nat, p: nat)
    requires p > 0
    ensures n / p >= 0
  {
  }

  lemma {:induction false} ShiftedBit(n: nat, j: nat, b: nat)
    ensures BitAt(n, j + b) <==> BitAt(Shifted(n, j), b)
  {
    Pow.Pow2Add(j, b);
    DivideTwice(n, Pow2(j), Pow2(b), Pow2(j + b));
  }

  lemma {:induction false} ChunkBit(n: nat, k: nat, b: nat)
    requires b < 5
    ensures BitAt(n, 5 * k + b) <==> BitAt(Chunk(n, k), b)
  {
    ShiftedBit(n, 5 * k, b);
    LowFive(Shifted(n, 5 * k), b);
  }

  lemma DivideTwice(n: nat, p: nat, q: nat, all: nat)
    requires p > 0 && q > 0 && all == p * q > 0
    ensures n / all == n / p / q
  {
    var m, r := n / p / q, n / p % q;
    assert n == p * (q * m + r) + n % p;
    Pow.Order(p, r, q - 1);
    assert p * (q * m + r) == p * (q * m) + p * r;
    assert p * (q * m) == (p * q) * m;
    assert p * (q - 1) == p * q - p;
    Quotient(n, all, p * r + n % p, m);
  }

  /** The low five bits of a number are those of its remainder by 32. */
  lemma LowFive(q: nat, b: nat)
    requires b < 5
    ensures BitAt(q, b) <==> BitAt(q % 32, b)
  {
    SmallPowers();
    var h, r := q / 32, q % 32;
    if b == 0 { Parity(q, 16 * h, r); }
    if b == 1 { Quotient(q, 2, r % 2, 16 * h + r / 2); Parity(q / 2, 8 * h, r / 2); }
    if b == 2 { Quotient(q, 4, r % 4, 8 * h + r / 4); Parity(q / 4, 4 * h, r / 4); }
    if b == 3 { Quotient(q, 8, r % 8, 4 * h + r / 8); Parity(q / 8, 2 * h, r / 8); }
    if b == 4 { Quotient(q, 16, r % 16, 2 * h + r / 16); Parity(q / 16, h, r / 16); }
  }

  lemma Parity(n: int, h: int, r: int)
    requires n == 2 * h + r
    ensures n % 2 == r % 2
  {
  }

  /** A polynomial of degree five at most, the highest coefficient first. */
  datatype Poly = Poly(a: Element, b: Element, c: Element, d: Element, e: Element, f: Element)

  /** The five bits of a register from bit `5 * k`. */
  function Part(r: Reg, k: nat): Element
    requires k < 6
  {
    Element(r[5 * k], r[5 * k + 1], r[5 * k + 2], r[5 * k + 3], r[5 * k + 4])
  }

  function PolyOf(r: Reg): Poly {
    Poly(Part(r, 5), Part(r, 4), Part(r, 3), Part(r, 2), Part(r, 1), Part(r, 0))
  }

  /** Multiply by x, add `v`, and divide by the polynomial of the checksum: what remains. */
  function Remainder(g: Poly, v: Element): Poly {
    Poly(Reduced(g.b, g.a, 5), Reduced(g.c, g.a, 4), Reduced(g.d, g.a, 3),
         Reduced(g.e, g.a, 2), Reduced(g.f, g.a, 1), Reduced(v, g.a, 0))
  }

  /** The coefficient `x` of x^k when the multiple by `top` of the polynomial is taken away. */
  function Reduced(x: Element, top: Element, k: nat): Element
    requires k < 6
  {
    Plus(x, Times(top, Of(Coefficient(k))))
  }

  lemma {:induction false} GenPart(i: nat, k: nat)
    requires i < 5 && k < 6
    ensures Part(GenReg(i), k) == Raised(Of(Coefficient(k)), i)
  {
    PartOfGen(i, k);
    GeneratorsAreMultiples(i, k);
  }

  lemma {:induction false} PartOfGen(i: nat, k: nat)
    requires i < 5 && k < 6
    ensures Part(GenReg(i), k) == Of(Chunk(GENERATOR[i], k))
  {
    var n := GENERATOR[i];
    ChunkBit(n, k, 0);
    ChunkBit(n, k, 1);
    ChunkBit(n, k, 2);
    ChunkBit(n, k, 3);
    ChunkBit(n, k, 4);
  }

  lemma PartOfXor(a: Reg, b: Reg, k: nat)
    requires k < 6
    ensures Part(XorReg(a, b), k) == Plus(Part(a, k), Part(b, k))
  {
  }

  lemma {:induction false} OneTap(c: Reg, s: Reg, n: nat, k: nat)
    requires n < 5 && k < 6
    ensures Part(Taps(c, n + 1, s), k) == Plus(Part(Taps(c, n, s), k), If(c[25 + n], Raised(Of(Coefficient(k)), n)))
  {
    if c[25 + n] {
      PartOfXor(Taps(c, n, s), GenReg(n), k);
      GenPart(n, k);
    }
  }

  lemma PlusOrder(a: Element, b: Element, c: Element)
    ensures Plus(Plus(a, b), c) == Plus(a, Plus(b, c))
  {
  }

  /** Adding the multiples one after the other adds the product. */
  lemma SumOfTaps(x: Element, b: Element, a0: Element, a1: Element, a2: Element, a3: Element, a4: Element, a5: Element)
    requires a1 == Plus(a0, If(x.p, b)) && a2 == Plus(a1, If(x.q, Twice(b)))
    requires a3 == Plus(a2, If(x.r, Twice(Twice(b)))) && a4 == Plus(a3, If(x.s, Twice(Twice(Twice(b)))))
    requires a5 == Plus(a4, If(x.t, Twice(Twice(Twice(Twice(b))))))
    ensures a5 == Plus(a0, Times(x, b))
  {
    var m0 := If(x.p, b);
    var m1 := Plus(m0, If(x.q, Twice(b)));
    var m2 := Plus(m1, If(x.r, Twice(Twice(b))));
    var m3 := Plus(m2, If(x.s, Twice(Twice(Twice(b)))));
    PlusOrder(a0, m0, If(x.q, Twice(b)));
    PlusOrder(a0, m1, If(x.r, Twice(Twice(b))));
    PlusOrder(a0, m2, If(x.s, Twice(Twice(Twice(b)))));
    PlusOrder(a0, m3, If(x.t, Twice(Twice(Twice(Twice(b))))));
  }

  lemma {:induction false} TapsInTurn(c: Reg, s: Reg, b: Element, k: nat)
    requires k < 6 && b == Of(Coefficient(k))
    ensures Taps(c, 0, s) == s
    ensures Part(Taps(c, 1, s), k) == Plus(Part(s, k), If(c[25], b))
    ensures Part(Taps(c, 2, s), k) == Plus(Part(Taps(c, 1, s), k), If(c[26], Twice(b)))
    ensures Part(Taps(c, 3, s), k) == Plus(Part(Taps(c, 2, s), k), If(c[27], Twice(Twice(b))))
    ensures Part(Taps(c, 4, s), k) == Plus(Part(Taps(c, 3, s), k), If(c[28], Twice(Twice(Twice(b)))))
    ensures Part(Taps(c, 5, s), k) == Plus(Part(Taps(c, 4, s), k), If(c[29], Twice(Twice(Twice(Twice(b))))))
  {
    RaisedSteps(b);
    OneTap(c, s, 0, k);
    OneTap(c, s, 1, k);
    OneTap(c, s, 2, k);
    OneTap(c, s, 3, k);
    OneTap(c, s, 4, k);
  }

  lemma {:induction false} AllTaps(c: Reg, s: Reg, b: Element, k: nat)
    requires k < 6 && b == Of(Coefficient(k))
    ensures Part(Taps(c, 5, s), k) == Plus(Part(s, k), Times(Part(c, 5), b))
  {
    TapsInTurn(c, s, b, k);
    SumOfTaps(Part(c, 5), b, Part(s, k), Part(Taps(c, 1, s), k), Part(Taps(c, 2, s), k), Part(Taps(c, 3, s), k),
        Part(Taps(c, 4, s), k), Part(Taps(c, 5, s), k));
  }

  lemma {:induction false} ShiftedPart(c: Reg, v: int, k: nat)
    requires 0 <= v < 32 && k < 6
    ensures Part(ShiftIn(c, v), k) == if k == 0 then Of(v) else Part(c, k - 1)
  {
    if k > 0 {
      NoHighBits(v, 5 * k);
      NoHighBits(v, 5 * k + 1);
      NoHighBits(v, 5 * k + 2);
      NoHighBits(v, 5 * k + 3);
      NoHighBits(v, 5 * k + 4);
    }
  }

  lemma {:induction false} StepPart(c: Reg, v: int, k: nat)
    requires 0 <= v < 32 && k < 6
    ensures Part(Step(c, v), k)
         == Plus(if k == 0 then Of(v) else Part(c, k - 1), Times(Part(c, 5), Of(Coefficient(k))))
  {
    AllTaps(c, ShiftIn(c, v), Of(Coefficient(k)), k);
    ShiftedPart(c, v, k);
  }

  /** The coefficient of x^k. */
  function At(g: Poly, k: nat): Element
    requires k < 6
  {
    if k == 0 then g.f else if k == 1 then g.e else if k == 2 then g.d else if k == 3 then g.c else if k == 4 then g.b
    else g.a
  }

  lemma RemainderAt(g: Poly, v: Element, k: nat)
    requires k < 6
    ensures At(Remainder(g, v), k) == Reduced(if k == 0 then v else At(g, k - 1), g.a, k)
  {
    var h := Remainder(g, v);
    AtEach(h, h.a, h.b, h.c, h.d, h.e, h.f, k);
    AtEach(g, g.a, g.b, g.c, g.d, g.e, g.f, if k > 0 then k - 1 else 0);
  }

  lemma AtEach(g: Poly, a: Element, b: Element, c: Element, d: Element, e: Element, f: Element, k: nat)
    requires k < 6 && g == Poly(a, b, c, d, e, f)
    ensures k == 0 ==> At(g, k) == f
    ensures k == 1 ==> At(g, k) == e
    ensures k == 2 ==> At(g, k) == d
    ensures k == 3 ==> At(g, k) == c
    ensures k == 4 ==> At(g, k) == b
    ensures k == 5 ==> At(g, k) == a
  {
  }

  lemma PartsOf(c: Reg, k: nat)
    requires k < 6
    ensures At(PolyOf(c), k) == Part(c, k) && PolyOf(c).a == Part(c, 5)
  {
  }

  lemma SamePoly(g: Poly, h: Poly)
    requires forall k: nat :: k < 6 ==> At(g, k) == At(h, k)
    ensures g == h
  {
    assert At(g, 0) == At(h, 0) && At(g, 1) == At(h, 1) && At(g, 2) == At(h, 2);
    assert At(g, 3) == At(h, 3) && At(g, 4) == At(h, 4) && At(g, 5) == At(h, 5);
  }

  lemma {:induction false} StepAt(c: Reg, v: int, k: nat)
    requires 0 <= v < 32 && k < 6
    ensures At(PolyOf(Step(c, v)), k) == At(Remainder(PolyOf(c), Of(v)), k)
  {
    StepInPoly(c, Step(c, v), v, k, PolyOf(c));
    RemainderAt(PolyOf(c), Of(v), k);
  }

  lemma {:induction false} StepInPoly(c: Reg, next: Reg, v: int, k: nat, g: Poly)
    requires 0 <= v < 32 && k < 6 && next == Step(c, v) && g == PolyOf(c)
    ensures At(PolyOf(next), k) == Reduced(if k == 0 then Of(v) else At(g, k - 1), g.a, k)
  {
    PartsOf(next, k);
    PartsOf(c, k);
    if k > 0 { PartsOf(c, k - 1); }
    StepPart(c, v, k);
  }

  /** One step of the checksum is one step of polynomial division over the field. */
  lemma {:induction false} StepIsDivision(c: Reg, v: int)
    requires 0 <= v < 32
    ensures PolyOf(Step(c, v)) == Remainder(PolyOf(c), Of(v))
  {
    var g, h := PolyOf(Step(c, v)), Remainder(PolyOf(c), Of(v));
    forall k: nat | k < 6 ensures At(g, k) == At(h, k) {
      StepAt(c, v, k);
    }
    SamePoly(g, h);
  }

  // ----- scaling -------------------------------------------------------------------------------- //

  lemma TwiceOfPlus(a: Element, b: Element)
    ensures Twice(Plus(a, b)) == Plus(Twice(a), Twice(b))
  {
  }

  lemma TwiceOfIf(bit: bool, a: Element)
    ensures Twice(If(bit, a)) == If(bit, Twice(a))
  {
  }

  lemma FifthPower(b: Element)
    ensures Twice(Twice(Twice(Twice(Twice(b))))) == Plus(Twice(Twice(Twice(b))), b)
  {
  }

  lemma TwiceOfSum(a: Element, b: Element, c: Element, d: Element, e: Element)
    ensures Twice(Sum(a, b, c, d, e)) == Sum(Twice(a), Twice(b), Twice(c), Twice(d), Twice(e))
  {
    TwiceOfPlus(a, b);
    TwiceOfPlus(Plus(a, b), c);
    TwiceOfPlus(Plus(Plus(a, b), c), d);
    TwiceOfPlus(Plus(Plus(Plus(a, b), c), d), e);
  }

  lemma Carried(r: bool, t: bool, b: Element, b3: Element, b5: Element)
    requires b5 == Plus(b3, b)
    ensures Plus(If(t, b), If(r != t, b3)) == Plus(If(r, b3), If(t, b5))
  {
  }

  lemma Rearranged(a: Element, b: Element, c: Element, d: Element, e: Element, f: Element, g: Element)
    requires Plus(a, d) == Plus(f, g)
    ensures Sum(a, b, c, d, e) == Sum(b, c, f, e, g)
  {
  }

  /** Doubling a factor doubles the product. */
  lemma {:induction false} TimesOfTwice(x: Element, b: Element)
    ensures Times(Twice(x), b) == Twice(Times(x, b))
  {
    var b1 := Twice(b);
    var b2 := Twice(b1);
    var b3 := Twice(b2);
    var b4 := Twice(b3);
    var b5 := Twice(b4);
    TwiceOfSum(If(x.p, b), If(x.q, b1), If(x.r, b2), If(x.s, b3), If(x.t, b4));
    TwiceOfIf(x.p, b);
    TwiceOfIf(x.q, b1);
    TwiceOfIf(x.r, b2);
    TwiceOfIf(x.s, b3);
    TwiceOfIf(x.t, b4);
    FifthPower(b);
    Carried(x.r, x.t, b, b3, b5);
    Rearranged(If(x.t, b), If(x.p, b1), If(x.q, b2), If(x.r != x.t, b3), If(x.s, b4), If(x.r, b3), If(x.t, b5));
  }

  lemma ReducedScales(x: Element, top: Element, k: nat)
    requires k < 6
    ensures Reduced(Twice(x), Twice(top), k) == Twice(Reduced(x, top, k))
  {
    TimesOfTwice(top, Of(Coefficient(k)));
    TwiceOfPlus(x, Times(top, Of(Coefficient(k))));
  }

  function TwiceAll(g: Poly): Poly {
    Poly(Twice(g.a), Twice(g.b), Twice(g.c), Twice(g.d), Twice(g.e), Twice(g.f))
  }

  lemma DivisionScales(g: Poly)
    ensures Remainder(TwiceAll(g), ZERO) == TwiceAll(Remainder(g, ZERO))
  {
    ReducedScales(g.b, g.a, 5);
    ReducedScales(g.c, g.a, 4);
    ReducedScales(g.d, g.a, 3);
    ReducedScales(g.e, g.a, 2);
    ReducedScales(g.f, g.a, 1);
    ReducedScales(ZERO, g.a, 0);
  }

  function Iterate<T>(f: T -> T, x: T, d: nat): T {
    if d == 0 then x else f(Iterate(f, x, d - 1))
  }

  lemma {:induction false} IterateThrough<T, U>(f: T -> T, g: U -> U, h: T -> U, x: T, d: nat)
    requires forall y :: h(f(y)) == g(h(y))
    ensures h(Iterate(f, x, d)) == Iterate(g, h(x), d)
  {
    if d > 0 { IterateThrough(f, g, h, x, d - 1); }
  }

  /** What remains of `g` times x. */
  function Next(g: Poly): Poly {
    Remainder(g, ZERO)
  }

  /** What remains of `g` times x^d. */
  function After(g: Poly, d: nat): Poly {
    Iterate(Next, g, d)
  }

  lemma {:induction false} AfterScales(g: Poly, d: nat)
    ensures After(TwiceAll(g), d) == TwiceAll(After(g, d))
  {
    forall y ensures TwiceAll(Next(y)) == Next(TwiceAll(y)) {
      DivisionScales(y);
    }
    IterateThrough(Next, Next, TwiceAll, g, d);
  }

  predicate Constant(g: Poly) {
    g.a == ZERO && g.b == ZERO && g.c == ZERO && g.d == ZERO && g.e == ZERO
  }

  function Just(x: Element): Poly {
    Poly(ZERO, ZERO, ZERO, ZERO, ZERO, x)
  }

  // ----- the powers of x, in machine words ------------------------------------------------------------ //

  /** An element as a machine word of five bits, for long calculations. */
  type Word = bv5

  function Pick(bit: bool, w: Word): Word {
    if bit then w else 0
  }

  function WordOf(a: Element): Word {
    Pick(a.p, 1) ^ Pick(a.q, 2) ^ Pick(a.r, 4) ^ Pick(a.s, 8) ^ Pick(a.t, 16)
  }

  lemma WordOfPlus(a: Element, b: Element)
    ensures WordOf(Plus(a, b)) == WordOf(a) ^ WordOf(b)
  {
  }

  lemma WordOfIf(bit: bool, a: Element)
    ensures WordOf(If(bit, a)) == if bit then WordOf(a) else 0
  {
  }

  lemma WordBits(a: Element)
    ensures var w := WordOf(a);
            && (w & 1 != 0) == a.p && (w & 2 != 0) == a.q && (w & 4 != 0) == a.r
            && (w & 8 != 0) == a.s && (w & 16 != 0) == a.t
  {
  }

  lemma WordOfSum(a: Element, b: Element, c: Element, d: Element, e: Element)
    ensures WordOf(Sum(a, b, c, d, e)) == WordOf(a) ^ WordOf(b) ^ WordOf(c) ^ WordOf(d) ^ WordOf(e)
  {
    var ab := Plus(a, b);
    var abc := Plus(ab, c);
    var abcd := Plus(abc, d);
    WordOfPlus(a, b);
    WordOfPlus(ab, c);
    WordOfPlus(abc, d);
    WordOfPlus(abcd, e);
    Chained(WordOf(a), WordOf(b), WordOf(c), WordOf(d), WordOf(e), WordOf(ab), WordOf(abc), WordOf(abcd),
        WordOf(Plus(abcd, e)));
  }

  lemma Chained(a: Word, b: Word, c: Word, d: Word, e: Word, ab: Word, abc: Word, abcd: Word, all: Word)
    requires ab == a ^ b && abc == ab ^ c && abcd == abc ^ d && all == abcd ^ e
    ensures all == a ^ b ^ c ^ d ^ e
  {
  }

  /** `x` and the multiple by `top` of an element, whose own multiples by 1, 2, 4, 8 and 16 are given. */
  function AddMultiple(x: Word, top: Word, m0: Word, m1: Word, m2: Word, m3: Word, m4: Word): Word {
    x ^ ((if top & 1 != 0 then m0 else 0) ^ (if top & 2 != 0 then m1 else 0) ^ (if top & 4 != 0 then m2 else 0)
         ^ (if top & 8 != 0 then m3 else 0) ^ (if top & 16 != 0 then m4 else 0))
  }

  lemma {:induction false} AddsProduct(x: Word, p: Element, q: Element, r: Element, s: Element, t: Element, v: Word,
                                       m0: Word, m1: Word, m2: Word, m3: Word, m4: Word)
    requires WordOf(p) == (if v & 1 != 0 then m0 else 0) && WordOf(q) == (if v & 2 != 0 then m1 else 0)
    requires WordOf(r) == (if v & 4 != 0 then m2 else 0) && WordOf(s) == (if v & 8 != 0 then m3 else 0)
    requires WordOf(t) == if v & 16 != 0 then m4 else 0
    ensures AddMultiple(x, v, m0, m1, m2, m3, m4) == x ^ WordOf(Sum(p, q, r, s, t))
  {
    WordOfSum(p, q, r, s, t);
  }

  lemma {:induction false} WordOfProduct(x: Word, top: Element, v: Word, b0: Element, b1: Element, b2: Element,
                                         b3: Element, b4: Element, m0: Word, m1: Word, m2: Word, m3: Word, m4: Word)
    requires m0 == WordOf(b0) && m1 == WordOf(b1) && m2 == WordOf(b2) && m3 == WordOf(b3) && m4 == WordOf(b4)
    requires (v & 1 != 0) == top.p && (v & 2 != 0) == top.q && (v & 4 != 0) == top.r
    requires (v & 8 != 0) == top.s && (v & 16 != 0) == top.t
    ensures AddMultiple(x, v, m0, m1, m2, m3, m4)
         == x ^ WordOf(Sum(If(top.p, b0), If(top.q, b1), If(top.r, b2), If(top.s, b3), If(top.t, b4)))
  {
    WordOfIf(top.p, b0);
    WordOfIf(top.q, b1);
    WordOfIf(top.r, b2);
    WordOfIf(top.s, b3);
    WordOfIf(top.t, b4);
    AddsProduct(x, If(top.p, b0), If(top.q, b1), If(top.r, b2), If(top.s, b3), If(top.t, b4), v, m0, m1, m2, m3, m4);
  }

  lemma {:induction false} TimesIsSum(x: Element, b: Element)
    ensures Times(x, b) == Sum(If(x.p, Raised(b, 0)), If(x.q, Raised(b, 1)), If(x.r, Raised(b, 2)),
                               If(x.s, Raised(b, 3)), If(x.t, Raised(b, 4)))
  {
    RaisedSteps(b);
  }

  lemma {:induction false} WordOfTimes(x: Word, top: Element, b: Element, m0: Word, m1: Word, m2: Word, m3: Word,
                                       m4: Word)
    requires m0 == WordOf(Raised(b, 0)) && m1 == WordOf(Raised(b, 1)) && m2 == WordOf(Raised(b, 2))
    requires m3 == WordOf(Raised(b, 3)) && m4 == WordOf(Raised(b, 4))
    ensures AddMultiple(x, WordOf(top), m0, m1, m2, m3, m4) == x ^ WordOf(Times(top, b))
  {
    TimesIsSum(top, b);
    WordBits(top);
    WordOfProduct(x, top, WordOf(top), Raised(b, 0), Raised(b, 1), Raised(b, 2), Raised(b, 3), Raised(b, 4),
        m0, m1, m2, m3, m4);
  }

  lemma {:induction false} WordOfReduced(x: Element, top: Element, k: nat, m0: Word, m1: Word, m2: Word, m3: Word,
                                         m4: Word)
    requires k < 6 && m0 == WordOf(Of(Multiple(0, k))) && m1 == WordOf(Of(Multiple(1, k)))
    requires m2 == WordOf(Of(Multiple(2, k))) && m3 == WordOf(Of(Multiple(3, k))) && m4 == WordOf(Of(Multiple(4, k)))
    ensures WordOf(Reduced(x, top, k)) == AddMultiple(WordOf(x), WordOf(top), m0, m1, m2, m3, m4)
  {
    MultipleIsRaised(0, k);
    MultipleIsRaised(1, k);
    MultipleIsRaised(2, k);
    MultipleIsRaised(3, k);
    MultipleIsRaised(4, k);
    WordOfTimes(WordOf(x), top, Of(Coefficient(k)), m0, m1, m2, m3, m4);
    WordOfPlus(x, Times(top, Of(Coefficient(k))));
  }

  lemma WordTable()
    ensures WordOf(Of(1)) == 1 && WordOf(Of(2)) == 2 && WordOf(Of(3)) == 3 && WordOf(Of(4)) == 4
    ensures WordOf(Of(5)) == 5 && WordOf(Of(6)) == 6 && WordOf(Of(8)) == 8 && WordOf(Of(10)) == 10
    ensures WordOf(Of(12)) == 12 && WordOf(Of(13)) == 13 && WordOf(Of(15)) == 15 && WordOf(Of(18)) == 18
    ensures WordOf(Of(19)) == 19 && WordOf(Of(20)) == 20 && WordOf(Of(21)) == 21 && WordOf(Of(22)) == 22
    ensures WordOf(Of(24)) == 24 && WordOf(Of(26)) == 26 && WordOf(Of(29)) == 29 && WordOf(Of(30)) == 30
  {
    SmallPowers();
  }

  /** From the coefficients in `a` to `f` one step leads to those in `a'` to `f'`. */
  predicate Linked(a: Word, b: Word, c: Word, d: Word, e: Word, f: Word,
                   a': Word, b': Word, c': Word, d': Word, e': Word, f': Word)
  {
    && a' == AddMultiple(b, a, 29, 19, 15, 30, 21) && b' == AddMultiple(c, a, 22, 5, 10, 20, 1)
    && c' == AddMultiple(d, a, 20, 1, 2, 4, 8) && d' == AddMultiple(e, a, 21, 3, 6, 12, 24)
    && e' == AddMultiple(f, a, 29, 19, 15, 30, 21) && f' == AddMultiple(0, a, 18, 13, 26, 29, 19)
  }

  lemma WordOfZero()
    ensures WordOf(ZERO) == 0 && WordOf(ONE) == 1
  {
  }

  lemma {:induction false} NextIsLinked(g: Poly)
    ensures var h := Next(g);
            Linked(WordOf(g.a), WordOf(g.b), WordOf(g.c), WordOf(g.d), WordOf(g.e), WordOf(g.f),
                   WordOf(h.a), WordOf(h.b), WordOf(h.c), WordOf(h.d), WordOf(h.e), WordOf(h.f))
  {
    MultipleTable();
    WordTable();
    WordOfZero();
    WordOfReduced(g.b, g.a, 5, 29, 19, 15, 30, 21);
    WordOfReduced(g.c, g.a, 4, 22, 5, 10, 20, 1);
    WordOfReduced(g.d, g.a, 3, 20, 1, 2, 4, 8);
    WordOfReduced(g.e, g.a, 2, 21, 3, 6, 12, 24);
    WordOfReduced(g.f, g.a, 1, 29, 19, 15, 30, 21);
    WordOfReduced(ZERO, g.a, 0, 18, 13, 26, 29, 19);
  }

  /** `p` follows the steps. */
  ghost predicate Follows(p: (nat, Word, Word, Word, Word, Word, Word) -> bool) {
    forall n: nat, a, b, c, d, e, f, a', b', c', d', e', f'
      {:trigger p(n, a, b, c, d, e, f), Linked(a, b, c, d, e, f, a', b', c', d', e', f')} ::
      p(n, a, b, c, d, e, f) && Linked(a, b, c, d, e, f, a', b', c', d', e', f') ==> p(n + 1, a', b', c', d', e', f')
  }

  /** What has a coefficient other than the constant one is `good`. */
  ghost predicate Spots(p: (nat, Word, Word, Word, Word, Word, Word) -> bool, good: nat -> bool) {
    forall n: nat, a, b, c, d, e, f {:trigger p(n, a, b, c, d, e, f)} ::
      p(n, a, b, c, d, e, f) && (a != 0 || b != 0 || c != 0 || d != 0 || e != 0) ==> good(n)
  }

  lemma {:induction false} Powers1(p: (nat, Word, Word, Word, Word, Word, Word) -> bool, good: nat -> bool)
    requires Follows(p) && Spots(p, good) && p(0, 0, 0, 0, 0, 0, 1)
    ensures p(11, 14, 12, 4, 3, 14, 26) && forall n: nat :: 0 < n <= 11 ==> good(n)
  {
    assert Linked(0, 0, 0, 0, 0, 1, 0, 0, 0, 0, 1, 0);
    assert Linked(0, 0, 0, 0, 1, 0, 0, 0, 0, 1, 0, 0);
    assert Linked(0, 0, 0, 1, 0, 0, 0, 0, 1, 0, 0, 0);
    assert Linked(0, 0, 1, 0, 0, 0, 0, 1, 0, 0, 0, 0);
    assert Linked(0, 1, 0, 0, 0, 0, 1, 0, 0, 0, 0, 0);
    assert Linked(1, 0, 0, 0, 0, 0, 29, 22, 20, 21, 29, 18);
    assert Linked(29, 22, 20, 21, 29, 18, 15, 29, 15, 26, 11, 6);
    assert Linked(15, 29, 15, 26, 11, 6, 2, 2, 9, 23, 25, 24);
    assert Linked(2, 2, 9, 23, 25, 24, 17, 12, 22, 26, 11, 13);
    assert Linked(17, 12, 22, 26, 11, 13, 4, 1, 6, 6, 5, 1);
    assert Linked(4, 1, 6, 6, 5, 1, 14, 12, 4, 3, 14, 26);
  }

  lemma {:induction false} Powers2(p: (nat, Word, Word, Word, Word, Word, Word) -> bool, good: nat -> bool)
    requires Follows(p) && Spots(p, good) && p(11, 14, 12, 4, 3, 14, 26)
    ensures p(22, 9, 6, 14, 13, 16, 0) && forall n: nat :: 11 < n <= 22 ==> good(n)
  {
    assert Linked(14, 12, 4, 3, 14, 26, 14, 31, 4, 7, 24, 10);
    assert Linked(14, 31, 4, 7, 24, 10, 29, 31, 0, 17, 8, 10);
    assert Linked(29, 31, 0, 17, 8, 10, 6, 9, 11, 15, 19, 6);
    assert Linked(6, 9, 11, 15, 19, 6, 21, 4, 12, 22, 26, 23);
    assert Linked(21, 4, 12, 22, 26, 23, 3, 17, 8, 17, 16, 27);
    assert Linked(3, 17, 8, 17, 16, 27, 31, 27, 4, 6, 21, 31);
    assert Linked(31, 27, 4, 6, 21, 31, 17, 8, 29, 17, 21, 11);
    assert Linked(17, 8, 29, 17, 21, 11, 0, 10, 13, 24, 3, 1);
    assert Linked(0, 10, 13, 24, 3, 1, 10, 13, 24, 3, 1, 0);
    assert Linked(10, 13, 24, 3, 1, 0, 0, 9, 6, 14, 13, 16);
    assert Linked(0, 9, 6, 14, 13, 16, 9, 6, 14, 13, 16, 0);
  }

  lemma {:induction false} Powers3(p: (nat, Word, Word, Word, Word, Word, Word) -> bool, good: nat -> bool)
    requires Follows(p) && Spots(p, good) && p(22, 9, 6, 14, 13, 16, 0)
    ensures p(33, 9, 3, 16, 26, 19, 21) && forall n: nat :: 22 < n <= 33 ==> good(n)
  {
    assert Linked(9, 6, 14, 13, 16, 0, 5, 12, 29, 9, 3, 15);
    assert Linked(5, 12, 29, 9, 3, 15, 30, 1, 31, 16, 29, 8);
    assert Linked(30, 1, 31, 16, 29, 8, 22, 5, 31, 12, 31, 25);
    assert Linked(22, 5, 31, 12, 31, 25, 12, 17, 7, 2, 16, 4);
    assert Linked(12, 17, 7, 2, 16, 4, 0, 25, 4, 26, 21, 7);
    assert Linked(0, 25, 4, 26, 21, 7, 25, 4, 26, 21, 7, 0);
    assert Linked(25, 4, 26, 21, 7, 0, 18, 25, 13, 6, 22, 28);
    assert Linked(18, 25, 13, 6, 22, 28, 31, 9, 15, 13, 26, 30);
    assert Linked(31, 9, 15, 13, 26, 30, 3, 3, 22, 30, 20, 11);
    assert Linked(3, 3, 22, 30, 20, 11, 13, 5, 11, 2, 5, 31);
    assert Linked(13, 5, 11, 2, 5, 31, 9, 3, 16, 26, 19, 21);
  }

  lemma {:induction false} Powers4(p: (nat, Word, Word, Word, Word, Word, Word) -> bool, good: nat -> bool)
    requires Follows(p) && Spots(p, good) && p(33, 9, 3, 16, 26, 19, 21)
    ensures p(44, 3, 30, 2, 17, 9, 8) && forall n: nat :: 33 < n <= 44 ==> good(n)
  {
    assert Linked(9, 3, 16, 26, 19, 21, 0, 18, 10, 10, 22, 15);
    assert Linked(0, 18, 10, 10, 22, 15, 18, 10, 10, 22, 15, 0);
    assert Linked(18, 10, 10, 22, 15, 0, 12, 14, 31, 20, 6, 30);
    assert Linked(12, 14, 31, 20, 6, 30, 31, 1, 18, 12, 15, 7);
    assert Linked(31, 1, 18, 12, 15, 7, 11, 30, 23, 11, 13, 11);
    assert Linked(11, 30, 23, 11, 13, 11, 14, 16, 26, 23, 27, 2);
    assert Linked(14, 16, 26, 23, 27, 2, 18, 1, 16, 18, 0, 10);
    assert Linked(18, 1, 16, 18, 0, 10, 7, 20, 27, 27, 12, 30);
    assert Linked(7, 20, 27, 27, 12, 30, 21, 2, 12, 28, 31, 5);
    assert Linked(21, 2, 12, 28, 31, 5, 5, 17, 2, 20, 2, 27);
    assert Linked(5, 17, 2, 20, 2, 27, 3, 30, 2, 17, 9, 8);
  }

  lemma {:induction false} Powers5(p: (nat, Word, Word, Word, Word, Word, Word) -> bool, good: nat -> bool)
    requires Follows(p) && Spots(p, good) && p(44, 3, 30, 2, 17, 9, 8)
    ensures p(55, 30, 2, 15, 11, 0, 5) && forall n: nat :: 44 < n <= 55 ==> good(n)
  {
    assert Linked(3, 30, 2, 17, 9, 8, 16, 17, 4, 31, 6, 31);
    assert Linked(16, 17, 4, 31, 6, 31, 4, 5, 23, 30, 10, 19);
    assert Linked(4, 5, 23, 30, 10, 19, 10, 29, 28, 12, 28, 26);
    assert Linked(10, 29, 28, 12, 28, 26, 16, 13, 9, 19, 23, 16);
    assert Linked(16, 13, 9, 19, 23, 16, 24, 8, 27, 15, 5, 19);
    assert Linked(24, 8, 27, 15, 5, 19, 3, 14, 3, 17, 24, 14);
    assert Linked(3, 14, 3, 17, 24, 14, 0, 16, 4, 14, 0, 31);
    assert Linked(0, 16, 4, 14, 0, 31, 16, 4, 14, 0, 31, 0);
    assert Linked(16, 4, 14, 0, 31, 0, 17, 15, 8, 7, 21, 19);
    assert Linked(17, 15, 8, 7, 21, 19, 7, 31, 27, 24, 27, 1);
    assert Linked(7, 31, 27, 24, 27, 1, 30, 2, 15, 11, 0, 5);
  }

  lemma {:induction false} Powers6(p: (nat, Word, Word, Word, Word, Word, Word) -> bool, good: nat -> bool)
    requires Follows(p) && Spots(p, good) && p(55, 30, 2, 15, 11, 0, 5)
    ensures p(66, 12, 5, 24, 0, 19, 24) && forall n: nat :: 55 < n <= 66 ==> good(n)
  {
    assert Linked(30, 2, 15, 11, 0, 5, 21, 21, 4, 17, 18, 25);
    assert Linked(21, 21, 4, 17, 18, 25, 18, 25, 15, 25, 30, 27);
    assert Linked(18, 25, 15, 25, 30, 27, 31, 11, 16, 5, 29, 30);
    assert Linked(31, 11, 16, 5, 29, 30, 1, 28, 30, 25, 20, 11);
    assert Linked(1, 28, 30, 25, 20, 11, 1, 8, 13, 1, 22, 18);
    assert Linked(1, 8, 13, 1, 22, 18, 21, 27, 21, 3, 15, 18);
    assert Linked(21, 27, 21, 3, 15, 18, 28, 8, 29, 4, 21, 27);
    assert Linked(28, 8, 29, 4, 21, 27, 12, 2, 10, 7, 31, 20);
    assert Linked(12, 2, 10, 7, 31, 20, 19, 20, 1, 21, 5, 7);
    assert Linked(19, 20, 1, 21, 5, 7, 15, 19, 8, 11, 28, 12);
    assert Linked(15, 19, 8, 11, 28, 12, 12, 5, 24, 0, 19, 24);
  }

  lemma {:induction false} Powers7(p: (nat, Word, Word, Word, Word, Word, Word) -> bool, good: nat -> bool)
    requires Follows(p) && Spots(p, good) && p(66, 12, 5, 24, 0, 19, 24)
    ensures p(77, 28, 16, 21, 9, 11, 0) && forall n: nat :: 66 < n <= 77 ==> good(n)
  {
    assert Linked(12, 5, 24, 0, 19, 24, 20, 6, 6, 25, 9, 7);
    assert Linked(20, 6, 6, 25, 9, 7, 28, 13, 19, 23, 29, 9);
    assert Linked(28, 13, 19, 23, 29, 9, 9, 12, 25, 15, 13, 20);
    assert Linked(9, 12, 25, 15, 13, 20, 15, 27, 31, 20, 23, 15);
    assert Linked(15, 27, 31, 20, 23, 15, 4, 18, 7, 11, 16, 24);
    assert Linked(4, 18, 7, 11, 16, 24, 29, 13, 9, 22, 23, 26);
    assert Linked(29, 13, 9, 22, 23, 26, 20, 0, 12, 16, 3, 6);
    assert Linked(20, 0, 12, 16, 3, 6, 26, 7, 26, 29, 28, 9);
    assert Linked(26, 7, 26, 29, 28, 9, 31, 10, 16, 11, 17, 3);
    assert Linked(31, 10, 16, 11, 17, 3, 0, 28, 16, 21, 9, 11);
    assert Linked(0, 28, 16, 21, 9, 11, 28, 16, 21, 9, 11, 0);
  }

  lemma {:induction false} Powers8(p: (nat, Word, Word, Word, Word, Word, Word) -> bool, good: nat -> bool)
    requires Follows(p) && Spots(p, good) && p(77, 28, 16, 21, 9, 11, 0)
    ensures p(88, 10, 5, 22, 8, 17, 30) && forall n: nat :: 77 < n <= 88 ==> good(n)
  {
    assert Linked(28, 16, 21, 9, 11, 0, 20, 10, 7, 25, 4, 20);
    assert Linked(20, 10, 7, 25, 4, 20, 16, 12, 19, 26, 14, 9);
    assert Linked(16, 12, 19, 26, 14, 9, 25, 18, 18, 22, 28, 19);
    assert Linked(25, 18, 18, 22, 28, 19, 4, 17, 14, 29, 5, 28);
    assert Linked(4, 17, 14, 29, 5, 28, 30, 4, 31, 3, 19, 26);
    assert Linked(30, 4, 31, 3, 19, 26, 19, 5, 12, 2, 13, 25);
    assert Linked(19, 5, 12, 2, 13, 25, 30, 30, 31, 3, 2, 12);
    assert Linked(30, 30, 31, 3, 2, 12, 9, 5, 12, 19, 27, 25);
    assert Linked(9, 5, 12, 19, 27, 25, 6, 14, 3, 2, 26, 15);
    assert Linked(6, 14, 3, 2, 26, 15, 18, 12, 1, 31, 19, 23);
    assert Linked(18, 12, 1, 31, 19, 23, 10, 5, 22, 8, 17, 30);
  }

  lemma AfterNext(d: nat)
    ensures After(Just(ONE), d + 1) == Next(After(Just(ONE), d))
  {
  }

  predicate WordsAre(g: Poly, a: Word, b: Word, c: Word, d: Word, e: Word, f: Word) {
    WordOf(g.a) == a && WordOf(g.b) == b && WordOf(g.c) == c && WordOf(g.d) == d && WordOf(g.e) == e && WordOf(g.f) == f
  }

  lemma {:induction false} LinkedWords(g: Poly, a: Word, b: Word, c: Word, d: Word, e: Word, f: Word,
                                       a': Word, b': Word, c': Word, d': Word, e': Word, f': Word)
    requires WordsAre(g, a, b, c, d, e, f) && Linked(a, b, c, d, e, f, a', b', c', d', e', f')
    ensures WordsAre(Next(g), a', b', c', d', e', f')
  {
    NextIsLinked(g);
  }

  lemma WordsNotConstant(g: Poly, a: Word, b: Word, c: Word, d: Word, e: Word, f: Word)
    requires WordsAre(g, a, b, c, d, e, f) && (a != 0 || b != 0 || c != 0 || d != 0 || e != 0)
    ensures !Constant(g)
  {
    WordOfZero();
  }

  function PowerInWords(n: nat, a: Word, b: Word, c: Word, d: Word, e: Word, f: Word): bool {
    WordsAre(After(Just(ONE), n), a, b, c, d, e, f)
  }

  function PowerNotConstant(n: nat): bool {
    !Constant(After(Just(ONE), n))
  }

  lemma {:induction false} OneMorePower(n: nat, a: Word, b: Word, c: Word, d: Word, e: Word, f: Word,
                                        a': Word, b': Word, c': Word, d': Word, e': Word, f': Word)
    requires PowerInWords(n, a, b, c, d, e, f) && Linked(a, b, c, d, e, f, a', b', c', d', e', f')
    ensures PowerInWords(n + 1, a', b', c', d', e', f')
  {
    AfterNext(n);
    LinkedWords(After(Just(ONE), n), a, b, c, d, e, f, a', b', c', d', e', f');
  }

  lemma {:induction false} PowersFollow()
    ensures Follows(PowerInWords)
  {
    forall n: nat, a, b, c, d, e, f, a', b', c', d', e', f'
      | PowerInWords(n, a, b, c, d, e, f) && Linked(a, b, c, d, e, f, a', b', c', d', e', f')
      ensures PowerInWords(n + 1, a', b', c', d', e', f')
    {
      OneMorePower(n, a, b, c, d, e, f, a', b', c', d', e', f');
    }
  }

  lemma {:induction false} PowersSpotted()
    ensures Spots(PowerInWords, PowerNotConstant)
  {
    forall n: nat, a, b, c, d, e, f
      | PowerInWords(n, a, b, c, d, e, f) && (a != 0 || b != 0 || c != 0 || d != 0 || e != 0)
      ensures PowerNotConstant(n)
    {
      WordsNotConstant(After(Just(ONE), n), a, b, c, d, e, f);
    }
  }

  /** Up to the 88th, no power of x leaves a constant. */
  lemma {:induction false} NoPowerIsConstant(n: nat)
    requires 1 <= n <= 88
    ensures !Constant(After(Just(ONE), n))
  {
    PowersFollow();
    PowersSpotted();
    WordOfZero();
    assert PowerInWords(0, 0, 0, 0, 0, 0, 1);
    AllPowers(PowerInWords, PowerNotConstant);
    assert PowerNotConstant(n);
  }

  lemma {:induction false} AllPowers(p: (nat, Word, Word, Word, Word, Word, Word) -> bool, good: nat -> bool)
    requires Follows(p) && Spots(p, good) && p(0, 0, 0, 0, 0, 0, 1)
    ensures forall n: nat :: 0 < n <= 88 ==> good(n)
  {
    Powers1(p, good);
    Powers2(p, good);
    Powers3(p, good);
    Powers4(p, good);
    Powers5(p, good);
    Powers6(p, good);
    Powers7(p, good);
    Powers8(p, good);
  }

  // ----- every element is a power of 2 ------------------------------------------------------------------ //

  /** Doubling leads from a symbol to one. */
  ghost predicate Reaches(v: int)
    requires 0 <= v < 32
  {
    exists n: nat :: Raised(Of(v), n) == ONE
  }

  lemma {:induction false} Back(v: int, w: int)
    requires 0 <= v < 32 && 0 <= w < 32 && Doubled(v) == w && Reaches(w)
    ensures Reaches(v)
  {
    var n: nat :| Raised(Of(w), n) == ONE;
    DoubledIsTwice(v);
    RaisedInside(Of(v), n);
  }

  lemma OneReaches()
    ensures Reaches(1)
  {
    SmallPowers();
    assert Raised(Of(1), 0) == ONE;
  }

  lemma {:induction false} Reach1()
    requires Reaches(1)
    ensures Reaches(20) && Reaches(10) && Reaches(5) && Reaches(22) && Reaches(11)
  {
    Back(20, 1);
    Back(10, 20);
    Back(5, 10);
    Back(22, 5);
    Back(11, 22);
  }

  lemma {:induction false} Reach2()
    requires Reaches(11)
    ensures Reaches(17) && Reaches(28) && Reaches(14) && Reaches(7) && Reaches(23)
  {
    Back(17, 11);
    Back(28, 17);
    Back(14, 28);
    Back(7, 14);
    Back(23, 7);
  }

  lemma {:induction false} Reach3()
    requires Reaches(23)
    ensures Reaches(31) && Reaches(27) && Reaches(25) && Reaches(24) && Reaches(12)
  {
    Back(31, 23);
    Back(27, 31);
    Back(25, 27);
    Back(24, 25);
    Back(12, 24);
  }

  lemma {:induction false} Reach4()
    requires Reaches(12)
    ensures Reaches(6) && Reaches(3) && Reaches(21) && Reaches(30) && Reaches(15)
  {
    Back(6, 12);
    Back(3, 6);
    Back(21, 3);
    Back(30, 21);
    Back(15, 30);
  }

  lemma {:induction false} Reach5()
    requires Reaches(15)
    ensures Reaches(19) && Reaches(29) && Reaches(26) && Reaches(13) && Reaches(18)
  {
    Back(19, 15);
    Back(29, 19);
    Back(26, 29);
    Back(13, 26);
    Back(18, 13);
  }

  lemma {:induction false} Reach6()
    requires Reaches(18)
    ensures Reaches(9) && Reaches(16) && Reaches(8) && Reaches(4) && Reaches(2)
  {
    Back(9, 18);
    Back(16, 9);
    Back(8, 16);
    Back(4, 8);
    Back(2, 4);
  }

  lemma AllSymbols(r: int -> bool)
    requires r(1) && r(2) && r(3) && r(4) && r(5) && r(6) && r(7) && r(8)
    requires r(9) && r(10) && r(11) && r(12) && r(13) && r(14) && r(15) && r(16)
    requires r(17) && r(18) && r(19) && r(20) && r(21) && r(22) && r(23) && r(24)
    requires r(25) && r(26) && r(27) && r(28) && r(29) && r(30) && r(31)
    ensures forall v :: 1 <= v < 32 ==> r(v)
  {
  }

  /** Every element but zero is a power of 2, so doubling leads from it to one. */
  lemma {:induction false} AllReach(v: int)
    requires 1 <= v < 32
    ensures Reaches(v)
  {
    OneReaches();
    Reach1();
    Reach2();
    Reach3();
    Reach4();
    Reach5();
    Reach6();
    ghost var r := (v: int) => 0 <= v < 32 && Reaches(v);
    AllSymbols(r);
    assert r(v);
  }

  lemma {:induction false} RaisedInside(b: Element, n: nat)
    ensures Raised(Twice(b), n) == Raised(b, n + 1)
  {
    if n > 0 { RaisedInside(b, n - 1); }
  }

  // ----- two wrong symbols -------------------------------------------------------------------------------- //

  lemma ConstantScales(g: Poly)
    ensures Constant(g) ==> Constant(TwiceAll(g))
  {
  }

  lemma TwiceOfJust(x: Element)
    ensures TwiceAll(Just(x)) == Just(Twice(x))
  {
  }

  lemma {:induction false} ConstantTwice(x: Element, d: nat)
    requires Constant(After(Just(x), d))
    ensures Constant(After(Just(Twice(x)), d))
  {
    AfterScales(Just(x), d);
    ConstantScales(After(Just(x), d));
    TwiceOfJust(x);
  }

  lemma {:induction false} Keeps<T>(f: T -> T, p: T -> bool, x: T, n: nat)
    requires p(x) && forall y :: p(y) ==> p(f(y))
    ensures p(Iterate(f, x, n))
  {
    if n > 0 { Keeps(f, p, x, n - 1); }
  }

  lemma {:induction false} RaisedIterates(x: Element, n: nat)
    ensures Raised(x, n) == Iterate(Twice, x, n)
  {
    if n > 0 { RaisedIterates(x, n - 1); }
  }

  lemma {:induction false} ConstantRaised(x: Element, d: nat, n: nat)
    requires Constant(After(Just(x), d))
    ensures Constant(After(Just(Raised(x, n)), d))
  {
    var p := (y: Element) => Constant(After(Just(y), d));
    forall y | p(y) ensures p(Twice(y)) {
      ConstantTwice(y, d);
    }
    Keeps(Twice, p, x, n);
    RaisedIterates(x, n);
    assert p(Raised(x, n));
  }

  /** Up to the 88th, no power of x times an element other than zero leaves a constant. */
  lemma {:induction false} NoMultipleIsConstant(x: Element, d: nat)
    requires x != ZERO && 1 <= d <= 88
    ensures !Constant(After(Just(x), d))
  {
    if Constant(After(Just(x), d)) {
      var v := SymbolOfElement(x);
      AllReach(v);
      var n: nat :| Raised(Of(v), n) == ONE;
      ConstantRaised(x, d, n);
      NoPowerIsConstant(d);
    }
  }

  lemma SymbolOfElement(x: Element) returns (v: int)
    requires x != ZERO
    ensures 1 <= v < 32 && Of(v) == x
  {
    v := Bit(x.p, 1) + Bit(x.q, 2) + Bit(x.r, 4) + Bit(x.s, 8) + Bit(x.t, 16);
    BitsOfSum(x.p, x.q, x.r, x.s, x.t);
  }

  lemma ZeroIsZero()
    ensures Of(0) == ZERO
  {
    SmallPowers();
  }

  lemma {:induction false} QuietIsAfter(r: Reg, d: nat)
    ensures PolyOf(Run(r, Quiet(d))) == After(PolyOf(r), d)
  {
    var quiet := (n: nat) => PolyOf(Run(r, Quiet(n)));
    forall n: nat ensures quiet(n + 1) == Next(quiet(n)) {
      OneMoreQuiet(r, n);
      StepIsDivision(Run(r, Quiet(n)), 0);
      ZeroIsZero();
    }
    StepByStep(Next, quiet, d);
  }

  lemma {:induction false} StepByStep<T>(f: T -> T, q: nat -> T, d: nat)
    requires forall n: nat :: q(n + 1) == f(q(n))
    ensures q(d) == Iterate(f, q(0), d)
  {
    if d > 0 {
      StepByStep(f, q, d - 1);
      assert q((d - 1) + 1) == f(q(d - 1));
    }
  }

  /** The same symbols shift a difference on as zeros would. */
  lemma {:induction false} RunDifference(a: Reg, b: Reg, y: seq<int>)
    requires Words(y)
    ensures XorReg(Run(a, y), Run(b, y)) == Run(XorReg(a, b), Quiet(|y|))
  {
    if |y| > 0 {
      var n := |y| - 1;
      RunDifference(a, b, y[..n]);
      assert Quiet(|y|)[..n] == Quiet(n);
      SameSymbol(Run(a, y[..n]), Run(b, y[..n]), y[n]);
    }
  }

  lemma {:induction false} PolyOfXor(a: Reg, b: Reg, k: nat)
    requires k < 6
    ensures At(PolyOf(XorReg(a, b)), k) == Plus(At(PolyOf(a), k), At(PolyOf(b), k))
  {
    PartsOf(XorReg(a, b), k);
    PartsOf(a, k);
    PartsOf(b, k);
    PartOfXor(a, b, k);
  }

  lemma PlusItself(a: Element, b: Element)
    ensures Plus(a, a) == ZERO && (Plus(a, b) == ZERO ==> a == b)
  {
  }

  lemma PlusSame(x: Element, y: Element, t: Element)
    ensures Plus(Plus(x, t), Plus(y, t)) == Plus(x, y)
  {
  }

  lemma AtReaches(g: Poly, x: Element)
    requires At(g, 0) == x && forall k: nat :: 1 <= k < 6 ==> At(g, k) == ZERO
    ensures g == Just(x)
  {
    assert At(g, 1) == ZERO && At(g, 2) == ZERO && At(g, 3) == ZERO && At(g, 4) == ZERO && At(g, 5) == ZERO;
  }

  /** Different symbols leave a difference in the constant coefficient only. */
  lemma {:induction false} SymbolDifference(c: Reg, v: int, w: int)
    requires 0 <= v < 32 && 0 <= w < 32
    ensures PolyOf(XorReg(Step(c, v), Step(c, w))) == Just(Plus(Of(v), Of(w)))
  {
    var a, b := Step(c, v), Step(c, w);
    forall k: nat | k < 6
      ensures At(PolyOf(XorReg(a, b)), k) == if k == 0 then Plus(Of(v), Of(w)) else ZERO
    {
      PolyOfXor(a, b, k);
      StepAt(c, v, k);
      StepAt(c, w, k);
      RemainderAt(PolyOf(c), Of(v), k);
      RemainderAt(PolyOf(c), Of(w), k);
      PlusItself(At(PolyOf(a), k), At(PolyOf(a), k));
      PlusSame(Of(v), Of(w), Times(PolyOf(c).a, Of(Coefficient(k))));
    }
    AtReaches(PolyOf(XorReg(a, b)), Plus(Of(v), Of(w)));
  }

  lemma DifferentElements(v: int, w: int)
    requires 0 <= v < 32 && 0 <= w < 32 && v != w
    ensures Plus(Of(v), Of(w)) != ZERO
  {
    PlusItself(Of(v), Of(w));
    SumOfBits(v);
    SumOfBits(w);
  }

  /** After a wrong symbol and at most 87 right ones, no symbol repairs the register. */
  lemma {:induction false} NotRepaired(c: Reg, v: int, v': int, y: seq<int>, w: int, w': int)
    requires 0 <= v < 32 && 0 <= v' < 32 && v != v' && Words(y) && |y| <= 87 && 0 <= w < 32 && 0 <= w' < 32
    ensures Step(Run(Step(c, v), y), w) != Step(Run(Step(c, v'), y), w')
  {
    var a, b := Run(Step(c, v), y), Run(Step(c, v'), y);
    if Step(a, w) == Step(b, w') {
      var x := XorReg(Step(c, v), Step(c, v'));
      SameSymbol(a, b, w);
      RunDifference(Step(c, v), Step(c, v'), y);
      assert Step(Run(x, Quiet(|y|)), 0) == XorReg(Step(b, w'), Step(b, w));
      SymbolDifference(b, w', w);
      SymbolDifference(c, v, v');
      DifferentElements(v, v');
      OneMoreQuiet(x, |y|);
      QuietIsAfter(x, |y| + 1);
      NoMultipleIsConstant(Plus(Of(v), Of(v')), |y| + 1);
      assert false;
    }
  }

  lemma {:induction false} OneMoreQuiet(x: Reg, n: nat)
    ensures Run(x, Quiet(n + 1)) == Step(Run(x, Quiet(n)), 0)
  {
    assert Quiet(n + 1)[..n] == Quiet(n);
  }

  /** Changing two symbols at most 88 places apart always changes the checksum register. */
  lemma {:induction false} TwoSymbolsMatter(x: seq<int>, v: int, v': int, y: seq<int>, w: int, w': int, z: seq<int>)
    requires Words(x) && Words(y) && Words(z) && |y| <= 87
    requires 0 <= v < 32 && 0 <= v' < 32 && v != v' && 0 <= w < 32 && 0 <= w' < 32
    ensures Words(x + [v] + y + [w] + z) && Words(x + [v'] + y + [w'] + z)
    ensures Polymod(x + [v] + y + [w] + z) != Polymod(x + [v'] + y + [w'] + z)
  {
    var c := Run(One(), x);
    RunFive(x, v, y, w, z);
    RunFive(x, v', y, w', z);
    NotRepaired(c, v, v', y, w, w');
    var a, b := Step(Run(Step(c, v), y), w), Step(Run(Step(c, v'), y), w');
    if Run(a, z) == Run(b, z) { RunInjective(a, b, z); }
  }

  lemma {:induction false} RunFive(x: seq<int>, v: int, y: seq<int>, w: int, z: seq<int>)
    requires Words(x) && Words(y) && Words(z) && 0 <= v < 32 && 0 <= w < 32
    ensures Words(x + [v] + y + [w] + z)
    ensures Polymod(x + [v] + y + [w] + z) == Run(Step(Run(Step(Run(One(), x), v), y), w), z)
  {
    RunConcat(One(), x + [v] + y + [w], z);
    RunConcat(One(), x + [v] + y, [w]);
    RunConcat(One(), x + [v], y);
    RunConcat(One(), x, [v]);
    RunOne(Run(One(), x), v);
    RunOne(Run(Step(Run(One(), x), v), y), w);
  }
}
