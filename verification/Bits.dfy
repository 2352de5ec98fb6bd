/** Bit strings: numbers as bits, lists of small numbers as one stream, and the regrouping loop of wallet.py. */
module Bits {
  import opened Params
  import opened Results

  /** The low `k` bits of `n`, most significant first. */
  function LowBits(n: nat, k: nat): (bits: seq<bool>)
    ensures |bits| == k
  {
    if k == 0 then [] else LowBits(n / 2, k - 1) + [n % 2 == 1]
  }

  function NumOf(bits: seq<bool>): (n: nat) {
    if |bits| == 0 then 0 else 2 * NumOf(bits[..|bits| - 1]) + if bits[|bits| - 1] then 1 else 0
  }

  function Zeros(k: nat): seq<bool> {
    seq(k, i => false)
  }

  predicate InRange(data: seq<int>, width: nat) {
    forall i :: 0 <= i < |data| ==> 0 <= data[i] < Pow2(width)
  }

  /** The bits of a list of `width`-bit numbers, one after the other. */
  function Stream(data: seq<int>, width: nat): (bits: seq<bool>)
    requires InRange(data, width)
    ensures |bits| == |data| * width
  {
    if |data| == 0 then []
    else
      var init := Stream(data[..|data| - 1], width);
      assert |data| * width == (|data| - 1) * width + width;
      init + LowBits(data[|data| - 1], width)
  }

  /** Cut a stream into numbers of `width` bits; a shorter rest is dropped. */
  function Regroup(bits: seq<bool>, width: nat): seq<int>
    requires width > 0
  {
    if |bits| < width then [] else [NumOf(bits[..width])] + Regroup(bits[width..], width)
  }

  /**
   * What `_convertbits` computes: the stream of `data`, regrouped, padded with zeros or checked to end in few zeros.
   */
  function ConvertBits(data: seq<int>, from: nat, to: nat, pad: bool): Option<seq<int>>
    requires from > 0 && to > 0
  {
    if !InRange(data, from) then None
    else
      var bits := Stream(data, from);
      var extra := |bits| % to;
      var whole := |bits| - extra;
      if pad then Some(Regroup(if extra == 0 then bits else bits + Zeros(to - extra), to))
      else if extra >= from || bits[whole..] != Zeros(extra) then None
      else Some(Regroup(bits[..whole], to))
  }

  // ----- numbers and their bits ------------------------------------------------------ //

  lemma {:induction false} NumOfLowBits(n: nat, k: nat)
    requires n < Pow2(k)
    ensures NumOf(LowBits(n, k)) == n
  {
    if k > 0 {
      NumOfLowBits(n / 2, k - 1);
      assert LowBits(n, k)[..k - 1] == LowBits(n / 2, k - 1);
    }
  }

  lemma {:induction false} LowBitsOfNum(bits: seq<bool>)
    ensures NumOf(bits) < Pow2(|bits|) && LowBits(NumOf(bits), |bits|) == bits
  {
    if |bits| > 0 {
      LowBitsOfNum(bits[..|bits| - 1]);
    }
  }

  /** Shifting in `v` appends its bits. */
  lemma {:induction false} ShiftIn(n: nat, k: nat, v: nat, f: nat)
    requires v < Pow2(f)
    ensures LowBits(n * Pow2(f) + v, k + f) == LowBits(n, k) + LowBits(v, f)
  {
    if f == 0 {
      assert n * Pow2(0) + v == n;
      assert LowBits(n, k) + LowBits(v, 0) == LowBits(n, k);
    } else {
      ShiftIn(n, k, v / 2, f - 1);
      Halve(n, Pow2(f - 1), v);
      assert LowBits(n, k) + (LowBits(v / 2, f - 1) + [v % 2 == 1])
             == (LowBits(n, k) + LowBits(v / 2, f - 1)) + [v % 2 == 1];
    }
  }

  lemma Halve(n: nat, p: nat, v: nat)
    ensures (n * (2 * p) + v) / 2 == n * p + v / 2
    ensures (n * (2 * p) + v) % 2 == v % 2
  {
    assert n * (2 * p) == 2 * (n * p);
  }

  /** Masking to `m` bits keeps the low `k <= m`. */
  lemma {:induction false} MaskKeeps(n: nat, k: nat, m: nat)
    requires k <= m
    ensures LowBits(n % Pow2(m), k) == LowBits(n, k)
  {
    if k > 0 {
      HalveMod(n, Pow2(m - 1));
      MaskKeeps(n / 2, k - 1, m - 1);
    }
  }

  lemma HalveMod(n: nat, p: nat)
    requires p > 0
    ensures (n % (2 * p)) / 2 == (n / 2) % p
    ensures (n % (2 * p)) % 2 == n % 2
  {
    var q, r := n / (2 * p), n % (2 * p);
    assert n == 2 * p * q + r;
    assert 2 * p * q == 2 * (p * q);
    assert n / 2 == p * q + r / 2;
    ModUnique(n / 2, p, q, r / 2);
  }

  lemma ModUnique(x: nat, p: nat, q: nat, r: nat)
    requires p > 0 && x == p * q + r && r < p
    ensures x % p == r && x / p == q
  {
    var d := x / p;
    assert x == p * d + x % p;
    if d < q {
      ProductOrder(p, d + 1, q);
    } else if d > q {
      ProductOrder(p, q + 1, d);
    }
  }

  lemma ProductOrder(p: nat, a: nat, b: nat)
    requires a <= b
    ensures p * a <= p * b
  {
  }

  /** `n >> j`. */
  function Down(n: nat, j: nat): nat {
    if j == 0 then n else Down(n / 2, j - 1)
  }

  lemma {:induction false} DownIsQuotient(n: nat, j: nat)
    ensures Down(n, j) == n / Pow2(j)
  {
    if j > 0 {
      DownIsQuotient(n / 2, j - 1);
      DivTwice(n, Pow2(j - 1));
    }
  }

  /** The low `k` bits are the bits above position `j` followed by the low `j`. */
  lemma {:induction false} SplitLow(n: nat, k: nat, j: nat)
    requires j <= k
    ensures LowBits(n, k) == LowBits(Down(n, j), k - j) + LowBits(n, j)
  {
    if j > 0 {
      SplitLow(n / 2, k - 1, j - 1);
      LastBit(n, k, j, LowBits(Down(n, j), k - j));
    }
  }

  lemma LastBit(n: nat, k: nat, j: nat, high: seq<bool>)
    requires k > 0 && j > 0 && LowBits(n / 2, k - 1) == high + LowBits(n / 2, j - 1)
    ensures LowBits(n, k) == high + LowBits(n, j)
  {
  }

  lemma DivTwice(n: nat, p: nat)
    requires p > 0
    ensures n / 2 / p == n / (2 * p)
  {
    var q, r := n / 2 / p, n / 2 % p;
    assert n / 2 == p * q + r;
    assert n == 2 * (p * q + r) + n % 2;
    assert 2 * (p * q) == (2 * p) * q;
    ModUnique(n, 2 * p, q, 2 * r + n % 2);
  }

  /** The low bits are all zero exactly when the number they spell is 0. */
  lemma {:induction false} ZeroBits(n: nat, k: nat)
    ensures LowBits(n, k) == Zeros(k) <==> n % Pow2(k) == 0
  {
    if k > 0 {
      ZeroBits(n / 2, k - 1);
      HalveMod(n, Pow2(k - 1));
      assert Zeros(k) == Zeros(k - 1) + [false];
      assert LowBits(n, k)[..k - 1] == LowBits(n / 2, k - 1) && LowBits(n, k)[k - 1] == (n % 2 == 1);
    }
  }

  // ----- streams and groups ------------------------------------------------------------ //

  lemma {:induction false} RegroupAppend(bits: seq<bool>, group: seq<bool>, width: nat)
    requires width > 0 && |bits| % width == 0 && |group| == width
    ensures Regroup(bits + group, width) == Regroup(bits, width) + [NumOf(group)]
    decreases |bits|
  {
    if |bits| == 0 {
      assert bits + group == group && group[..width] == group && Regroup(group[width..], width) == [];
    } else {
      assert |bits| >= width;
      ModLess(|bits|, width);
      RegroupAppend(bits[width..], group, width);
      assert (bits + group)[..width] == bits[..width];
      assert (bits + group)[width..] == bits[width..] + group;
    }
  }

  lemma ModLess(n: nat, w: nat)
    requires w > 0 && n >= w && n % w == 0
    ensures (n - w) % w == 0
  {
    var q := n / w;
    assert n - w == w * (q - 1) + 0;
    ModUnique(n - w, w, q - 1, 0);
  }

  lemma MultipleMod(k: nat, w: nat)
    requires w > 0
    ensures (k * w) % w == 0
  {
    ModUnique(k * w, w, k, 0);
  }

  /** Regrouping a stream by its own width gives the list back. */
  lemma {:induction false} RegroupStream(data: seq<int>, width: nat)
    requires width > 0 && InRange(data, width)
    ensures Regroup(Stream(data, width), width) == data
  {
    if |data| > 0 {
      var init, last := data[..|data| - 1], data[|data| - 1];
      RegroupStream(init, width);
      MultipleMod(|init|, width);
      RegroupAppend(Stream(init, width), LowBits(last, width), width);
      NumOfLowBits(last, width);
    }
  }

  /** A stream of whole groups is the stream of its groups. */
  lemma {:induction false} StreamRegroup(bits: seq<bool>, width: nat)
    requires width > 0 && |bits| % width == 0
    ensures InRange(Regroup(bits, width), width) && Stream(Regroup(bits, width), width) == bits
    ensures |Regroup(bits, width)| == |bits| / width
    decreases |bits|
  {
    if |bits| > 0 {
      var n := |bits| - width;
      ModLess(|bits|, width);
      StreamRegroup(bits[..n], width);
      RegroupLast(bits, n, width);
      StreamSnoc(Regroup(bits[..n], width), bits[n..], width);
      assert bits == bits[..n] + bits[n..];
      OneMoreGroup(|bits|, width);
    }
  }

  lemma {:induction false} RegroupLast(bits: seq<bool>, n: nat, width: nat)
    requires width > 0 && |bits| == n + width && n % width == 0
    ensures Regroup(bits, width) == Regroup(bits[..n], width) + [NumOf(bits[n..])]
  {
    RegroupAppend(bits[..n], bits[n..], width);
    assert bits == bits[..n] + bits[n..];
  }

  lemma {:induction false} StreamSnoc(data: seq<int>, group: seq<bool>, width: nat)
    requires InRange(data, width) && |group| == width
    ensures InRange(data + [NumOf(group)], width)
    ensures Stream(data + [NumOf(group)], width) == Stream(data, width) + group
  {
    LowBitsOfNum(group);
    assert (data + [NumOf(group)])[..|data|] == data;
  }

  lemma OneMoreGroup(n: nat, width: nat)
    requires width > 0 && n >= width && n % width == 0
    ensures (n - width) / width + 1 == n / width
  {
    var q := n / width;
    assert n - width == width * (q - 1) + 0;
    ModUnique(n - width, width, q - 1, 0);
  }

  // ----- the loop ------------------------------------------------------------------------- //

  /** Part of the stream has been put out as `ret`; the rest is the low `bits` bits of `acc`. */
  ghost predicate Pending(ret: seq<int>, acc: nat, bits: nat, stream: seq<bool>, to: nat)
    requires to > 0
  {
    InRange(ret, to) && Stream(ret, to) + LowBits(acc, bits) == stream
  }

  lemma {:induction false} PutOut(ret: seq<int>, acc: nat, bits: nat, stream: seq<bool>, to: nat)
    requires to > 0 && Pending(ret, acc, bits + to, stream, to)
    ensures Pending(ret + [acc / Pow2(bits) % Pow2(to)], acc, bits, stream, to)
  {
    var high := acc / Pow2(bits);
    SplitLow(acc, bits + to, bits);
    DownIsQuotient(acc, bits);
    MaskKeeps(high, to, to);
    OnePutOut(ret, high % Pow2(to), acc, bits, stream, to);
  }

  lemma {:induction false} OnePutOut(ret: seq<int>, digit: nat, acc: nat, bits: nat, stream: seq<bool>, to: nat)
    requires to > 0 && digit < Pow2(to) && Pending(ret, acc, bits + to, stream, to)
    requires LowBits(acc, bits + to) == LowBits(digit, to) + LowBits(acc, bits)
    ensures Pending(ret + [digit], acc, bits, stream, to)
  {
    assert (ret + [digit])[..|ret|] == ret;
    Regrouped(Stream(ret, to), LowBits(digit, to), LowBits(acc, bits));
  }

  lemma {:induction false} TakeIn(ret: seq<int>, acc: nat, bits: nat, data: seq<int>, i: nat, from: nat, to: nat,
                                  next: nat)
    requires from > 0 && to > 0 && i < |data| && InRange(data, from) && bits < to
    requires Pending(ret, acc, bits, Stream(data[..i], from), to)
    requires LowBits(next, bits + from) == LowBits(acc, bits) + LowBits(data[i], from)
    ensures Pending(ret, next, bits + from, Stream(data[..i + 1], from), to)
  {
    StreamOneMore(data, i, from);
    Regrouped(Stream(ret, to), LowBits(acc, bits), LowBits(data[i], from));
  }

  /** Shifting a value in under the mask loses no pending bit. */
  lemma {:induction false} ShiftMasked(acc: nat, bits: nat, value: nat, from: nat, to: nat)
    requires from > 0 && bits < to && value < Pow2(from)
    ensures LowBits((acc * Pow2(from) + value) % Pow2(from + to - 1), bits + from)
            == LowBits(acc, bits) + LowBits(value, from)
  {
    ShiftIn(acc, bits, value, from);
    MaskKeeps(acc * Pow2(from) + value, bits + from, from + to - 1);
  }

  lemma {:induction false} StreamOneMore(data: seq<int>, i: nat, width: nat)
    requires i < |data| && InRange(data, width)
    ensures Stream(data[..i + 1], width) == Stream(data[..i], width) + LowBits(data[i], width)
  {
    assert data[..i + 1][..i] == data[..i];
  }

  lemma Regrouped(a: seq<bool>, b: seq<bool>, c: seq<bool>)
    ensures a + (b + c) == (a + b) + c
  {
  }

  /** What is put out and what is pending determine the quotient and the remainder of the stream's length. */
  lemma {:induction false} PendingLengths(ret: seq<int>, acc: nat, bits: nat, stream: seq<bool>, to: nat)
    requires to > 0 && bits < to && Pending(ret, acc, bits, stream, to)
    ensures bits == |stream| % to && ret == Regroup(stream[..|stream| - bits], to)
    ensures stream[|stream| - bits..] == LowBits(acc, bits)
  {
    assert |stream| == |ret| * to + bits;
    ModUnique(|stream|, to, |ret|, bits);
    RegroupStream(ret, to);
    assert stream[..|stream| - bits] == Stream(ret, to);
  }

  lemma {:induction false} PadGroup(ret: seq<int>, acc: nat, bits: nat, stream: seq<bool>, to: nat)
    requires to > 0 && 0 < bits < to && Pending(ret, acc, bits, stream, to)
    ensures ret + [acc * Pow2(to - bits) % Pow2(to)] == Regroup(stream + Zeros(to - bits), to)
  {
    var pad := to - bits;
    var whole, group := stream[..|stream| - bits], LowBits(acc, bits) + Zeros(pad);
    PendingLengths(ret, acc, bits, stream, to);
    Padded(acc, bits, to);
    PendingWhole(ret, acc, bits, stream, to);
    assert stream + Zeros(pad) == whole + group;
    RegroupAppend(whole, group, to);
  }

  lemma {:induction false} PendingWhole(ret: seq<int>, acc: nat, bits: nat, stream: seq<bool>, to: nat)
    requires to > 0 && bits < to && Pending(ret, acc, bits, stream, to)
    ensures |stream[..|stream| - bits]| % to == 0
    ensures stream == stream[..|stream| - bits] + LowBits(acc, bits)
  {
    StreamLength(ret, to);
    assert stream[..|stream| - bits] == Stream(ret, to);
  }

  lemma Padded(acc: nat, bits: nat, to: nat)
    requires bits < to
    ensures acc * Pow2(to - bits) % Pow2(to) == NumOf(LowBits(acc, bits) + Zeros(to - bits))
  {
    var pad := to - bits;
    ShiftIn(acc, bits, 0, pad);
    ZeroBits(0, pad);
    MaskKeeps(acc * Pow2(pad), to, to);
    NumOfLowBits(acc * Pow2(pad) % Pow2(to), to);
  }

  lemma {:induction false} StreamLength(data: seq<int>, width: nat)
    requires width > 0 && InRange(data, width)
    ensures |Stream(data, width)| % width == 0
  {
    MultipleMod(|data|, width);
  }

  /** `(acc << (to - bits)) & maxv` is 0 exactly when the pending bits are. */
  lemma RestIsZero(acc: nat, bits: nat, to: nat)
    requires bits < to
    ensures acc * Pow2(to - bits) % Pow2(to) == 0 <==> LowBits(acc, bits) == Zeros(bits)
  {
    var pad := to - bits;
    ShiftIn(acc, bits, 0, pad);
    ZeroBits(0, pad);
    ZeroBits(acc * Pow2(pad), to);
    assert LowBits(acc * Pow2(pad), to) == LowBits(acc, bits) + Zeros(pad);
    assert Zeros(to) == Zeros(bits) + Zeros(pad);
    assert LowBits(acc * Pow2(pad), to)[..bits] == LowBits(acc, bits) && Zeros(to)[..bits] == Zeros(bits);
  }

  /** `_convertbits`: a masked accumulator takes `from` bits at a time and puts out `to`. */
  method Convert(data: seq<int>, from: nat, to: nat, pad: bool) returns (r: Option<seq<int>>)
    requires from > 0 && to > 0
    ensures r == ConvertBits(data, from, to, pad)
  {
    var acc: nat, bits: nat, ret: seq<int> := 0, 0, [];
    for i := 0 to |data|
      invariant InRange(data[..i], from) && bits < to
      invariant Pending(ret, acc, bits, Stream(data[..i], from), to)
    {
      var value := data[i];
      var fits := Fits(value, from);
      if !fits {
        assert !InRange(data, from);
        return None;
      }
      acc, bits, ret := TakeValue(value, from, to, acc, bits, ret, data[..i]);
      OneMore(data, i);
    }
    OneMore(data, |data|);
    r := Finish(data, from, to, pad, acc, bits, ret);
  }

  /** What is done with the bits that are left over: padded with zeros, or refused unless they are few and zero. */
  method Finish(data: seq<int>, from: nat, to: nat, pad: bool, acc: nat, bits: nat, ret: seq<int>)
    returns (r: Option<seq<int>>)
    requires from > 0 && to > 0 && InRange(data, from) && bits < to && Pending(ret, acc, bits, Stream(data, from), to)
    ensures r == ConvertBits(data, from, to, pad)
  {
    ghost var stream := Stream(data, from);
    PendingLengths(ret, acc, bits, stream, to);
    RestIsZero(acc, bits, to);
    if pad {
      if bits > 0 {
        PadGroup(ret, acc, bits, stream, to);
        return Some(ret + [acc * Pow2(to - bits) % Pow2(to)]);
      }
      assert stream[..|stream| - 0] == stream;
    } else if bits >= from || acc * Pow2(to - bits) % Pow2(to) != 0 {
      return None;
    }
    r := Some(ret);
  }

  /** `value < 0 or value >> from`, the other way round. */
  method Fits(value: int, from: nat) returns (fits: bool)
    ensures fits <==> 0 <= value < Pow2(from)
  {
    if value < 0 { return false; }
    QuotientIsZero(value, Pow2(from));
    fits := value / Pow2(from) == 0;
  }

  lemma QuotientIsZero(value: nat, p: nat)
    requires p > 0
    ensures value / p == 0 <==> value < p
  {
  }

  lemma OneMore(data: seq<int>, i: nat)
    requires i <= |data|
    ensures if i == |data| then data[..i] == data else data[..i + 1] == data[..i] + [data[i]]
  {
  }

  lemma {:induction false} TakeInValue(ret: seq<int>, acc: nat, bits: nat, data: seq<int>, value: int,
                                       from: nat, to: nat, next: nat)
    requires from > 0 && to > 0 && InRange(data, from) && 0 <= value < Pow2(from) && bits < to
    requires Pending(ret, acc, bits, Stream(data, from), to)
    requires LowBits(next, bits + from) == LowBits(acc, bits) + LowBits(value, from)
    ensures InRange(data + [value], from)
    ensures Pending(ret, next, bits + from, Stream(data + [value], from), to)
  {
    var more := data + [value];
    OneMore(more, |data|);
    assert more[..|data|] == data && more[..|data| + 1] == more;
    TakeIn(ret, acc, bits, more, |data|, from, to, next);
  }

  /** One round of the outer loop: shift `value` in under the mask, then put out what is complete. */
  method TakeValue(value: int, from: nat, to: nat, acc: nat, bits: nat, ret: seq<int>, ghost data: seq<int>)
    returns (acc': nat, bits': nat, ret': seq<int>)
    requires from > 0 && to > 0 && bits < to && 0 <= value < Pow2(from) && InRange(data, from)
    requires Pending(ret, acc, bits, Stream(data, from), to)
    ensures InRange(data + [value], from)
    ensures bits' < to && Pending(ret', acc', bits', Stream(data + [value], from), to)
  {
    acc' := ShiftValue(value, from, to, acc, bits);
    TakeInValue(ret, acc, bits, data, value, from, to, acc');
    bits', ret' := PutOutWhole(to, acc', bits + from, ret, Stream(data + [value], from));
  }

  /** The inner loop: put out digits while there are enough bits. */
  method PutOutWhole(to: nat, acc: nat, bits: nat, ret: seq<int>, ghost stream: seq<bool>)
    returns (bits': nat, ret': seq<int>)
    requires to > 0 && Pending(ret, acc, bits, stream, to)
    ensures bits' < to && Pending(ret', acc, bits', stream, to)
  {
    bits', ret' := bits, ret;
    while bits' >= to
      invariant Pending(ret', acc, bits', stream, to)
    {
      bits' := bits' - to;
      var digit := TopDigit(acc, bits', to, ret', stream);
      ret' := ret' + [digit];
    }
  }

  /** `((acc << from) | value) & max_acc`. */
  method ShiftValue(value: int, from: nat, to: nat, acc: nat, bits: nat) returns (next: nat)
    requires from > 0 && bits < to && 0 <= value < Pow2(from)
    ensures LowBits(next, bits + from) == LowBits(acc, bits) + LowBits(value, from)
  {
    ShiftMasked(acc, bits, value, from, to);
    next := (acc * Pow2(from) + value) % Pow2(from + to - 1);
  }

  /** `(acc >> bits) & maxv`. */
  method TopDigit(acc: nat, bits: nat, to: nat, ghost ret: seq<int>, ghost stream: seq<bool>) returns (digit: nat)
    requires to > 0 && Pending(ret, acc, bits + to, stream, to)
    ensures Pending(ret + [digit], acc, bits, stream, to)
  {
    PutOut(ret, acc, bits, stream, to);
    digit := acc / Pow2(bits) % Pow2(to);
  }

  // ----- the stream as one number --------------------------------------------------------------- //

  /** The number that `data` spells to the base `base`, the first digit counting most. */
  function Spelled(data: seq<int>, base: nat): int {
    if |data| == 0 then 0 else Spelled(data[..|data| - 1], base) * base + data[|data| - 1]
  }

  lemma {:induction false} NumOfJoined(a: seq<bool>, b: seq<bool>)
    ensures NumOf(a + b) == NumOf(a) * Pow2(|b|) + NumOf(b)
  {
    if |b| == 0 {
      assert a + b == a;
    } else {
      var n := |b| - 1;
      NumOfJoined(a, b[..n]);
      assert (a + b)[..|a + b| - 1] == a + b[..n];
      TwiceJoined(NumOf(a), Pow2(n), NumOf(b[..n]));
    }
  }

  lemma TwiceJoined(x: nat, p: nat, low: nat)
    ensures 2 * (x * p + low) == x * (2 * p) + 2 * low
  {
    assert x * (2 * p) == 2 * (x * p);
  }

  /** The bits of a list spell the number that the list spells. */
  lemma {:induction false} StreamSpells(data: seq<int>, width: nat)
    requires InRange(data, width)
    ensures NumOf(Stream(data, width)) == Spelled(data, Pow2(width))
  {
    if |data| > 0 {
      var init, last := data[..|data| - 1], data[|data| - 1];
      StreamSpells(init, width);
      NumOfJoined(Stream(init, width), LowBits(last, width));
      NumOfLowBits(last, width);
    }
  }

  lemma {:induction false} ZerosSpellNothing(k: nat)
    ensures NumOf(Zeros(k)) == 0
  {
    if k > 0 {
      assert Zeros(k)[..k - 1] == Zeros(k - 1);
      ZerosSpellNothing(k - 1);
    }
  }
}
