/** Script pushes, script numbers and the HTLC redeem script (swap_verifier.py). Hex text stands for its bytes. */
module Script {
  import opened Ledger
  import opened Results

  type Bytes = seq<Byte>

  /** `_pushdata`; None is the ValueError for more than 255 bytes. */
  function PushData(data: Bytes): Option<Bytes> {
    if |data| < 0x4C then Some([|data|] + data)
    else if |data| <= 0xFF then Some([0x4C, |data|] + data)
    else None
  }

  // ----- pushes can be read back -------------------------------------------------- //

  /** `lo | hi << 8`. */
  function Word(lo: int, hi: int): int {
    lo + 256 * hi
  }

  /** The opcode at the head of a script: how many bytes it spans and how many it pushes; None stops the parser. */
  function PushHead(blob: Bytes): Option<(nat, nat)>
    requires |blob| > 0
  {
    var op := blob[0];
    if op < 0x4C then Some((1, op))
    else if op == 0x4C && |blob| > 1 then Some((2, blob[1]))
    else if op == 0x4D && |blob| > 2 then Some((3, Word(blob[1], blob[2])))
    else None
  }

  function Clip(i: nat, n: nat): nat {
    if i < n then i else n
  }

  /** The pushed items of a script; a push that runs past the end gives what is there. */
  function Pushes(blob: Bytes): seq<Bytes>
    decreases |blob|
  {
    if |blob| == 0 then []
    else
      var head := PushHead(blob);
      if head.None? then []
      else
        var from := head.value.0;
        var to := Clip(from + head.value.1, |blob|);
        [blob[from..to]] + Pushes(blob[to..])
  }

  /** `_parse_scriptsig_pushes`: one cursor over the bytes. */
  method ParseScriptSigPushes(blob: Bytes) returns (items: seq<Bytes>)
    ensures items == Pushes(blob)
  {
    items := [];
    var i := 0;
    while i < |blob|
      invariant i <= |blob|
      invariant items + Pushes(blob[i..]) == Pushes(blob)
    {
      var op := blob[i];
      var size: nat := 0;
      var from := i + 1;
      if op < 0x4C {
        size := op;
      } else if op == 0x4C && from < |blob| {
        size := blob[from];
        from := from + 1;
      } else if op == 0x4D && from + 1 < |blob| {
        size := Word(blob[from], blob[from + 1]);
        from := from + 2;
      } else {
        NoPush(items, blob, i);
        return;
      }
      var to := Clip(from + size, |blob|);
      PushesStep(blob, i, from, size);
      PushesGrow(items, blob[from..to], Pushes(blob[to..]));
      items := items + [blob[from..to]];
      i := to;
    }
  }

  lemma NoPush(items: seq<Bytes>, blob: Bytes, i: nat)
    requires i < |blob| && PushHead(blob[i..]).None?
    ensures items + Pushes(blob[i..]) == items
  {
  }

  lemma {:induction false} PushesUnfold(blob: Bytes, from: nat, size: nat)
    requires |blob| > 0 && 0 < from <= |blob| && PushHead(blob) == Some((from, size))
    ensures Pushes(blob) == [blob[from..Clip(from + size, |blob|)]] + Pushes(blob[Clip(from + size, |blob|)..])
  {
  }

  lemma {:induction false} PushesStep(blob: Bytes, i: nat, from: nat, size: nat)
    requires i < |blob| && i < from <= |blob| && PushHead(blob[i..]) == Some((from - i, size))
    ensures var to := Clip(from + size, |blob|);
            Pushes(blob[i..]) == [blob[from..to]] + Pushes(blob[to..])
  {
    var to := Clip(from + size, |blob|);
    PushesUnfold(blob[i..], from - i, size);
    SliceOfSlice(blob, i, from, to);
    assert Clip(from - i + size, |blob[i..]|) == to - i;
  }

  lemma {:induction false} SliceOfSlice(blob: Bytes, i: nat, from: nat, to: nat)
    requires i <= from <= to <= |blob|
    ensures blob[i..][from - i..to - i] == blob[from..to] && blob[i..][to - i..] == blob[to..]
  {
  }

  lemma PushesGrow(items: seq<Bytes>, item: Bytes, rest: seq<Bytes>)
    ensures items + ([item] + rest) == (items + [item]) + rest
  {
  }

  /** The script that pushes `items` one after the other. */
  function PushAll(items: seq<Bytes>): Bytes
    requires forall i :: 0 <= i < |items| ==> |items[i]| <= 0xFF
  {
    if |items| == 0 then [] else PushData(items[0]).value + PushAll(items[1..])
  }

  /** Any list of items of at most 255 bytes survives being written and parsed. */
  lemma {:induction false} PushesRoundTrip(items: seq<Bytes>)
    requires forall i :: 0 <= i < |items| ==> |items[i]| <= 0xFF
    ensures Pushes(PushAll(items)) == items
  {
    if |items| > 0 {
      PushesRoundTrip(items[1..]);
      PushThenRest(items[0], PushAll(items[1..]));
    }
  }

  lemma {:induction false} PushThenRest(item: Bytes, rest: Bytes)
    requires |item| <= 0xFF
    ensures Pushes(PushData(item).value + rest) == [item] + Pushes(rest)
  {
    var push := PushData(item).value;
    var blob := push + rest;
    var from := |push| - |item|;
    assert PushHead(blob) == Some((from, |item|));
    assert blob[from..|push|] == item;
    assert blob[|push|..] == rest;
  }

  /** Longer items, up to 65,535 bytes, are read behind a length of two bytes, the low one first. */
  lemma {:induction false} LongPush(item: Bytes, lo: Byte, hi: Byte, rest: Bytes)
    requires |item| == lo + 256 * hi
    ensures Pushes([0x4D, lo, hi] + item + rest) == [item] + Pushes(rest)
  {
    var blob := [0x4D, lo, hi] + item + rest;
    assert PushHead(blob) == Some((3, |item|));
    assert blob[3..3 + |item|] == item && blob[3 + |item|..] == rest;
    PushesUnfold(blob, 3, |item|);
  }

  /** A push can be told apart from what follows it. */
  lemma PushIsPrefixFree(a: Bytes, b: Bytes, x: Bytes, y: Bytes)
    requires |a| <= 0xFF && |b| <= 0xFF
    requires PushData(a).value + x == PushData(b).value + y
    ensures a == b && x == y
  {
    var p, q := PushData(a).value, PushData(b).value;
    var s := p + x;
    assert s == q + y;
    assert s[0] == p[0] && s[0] == q[0];
    if |a| >= 0x4C {
      assert s[1] == p[1] && s[1] == q[1];
    }
    assert |a| == |b|;
    assert s[..|p|] == p && s[..|q|] == q && s[|p|..] == x && s[|q|..] == y;
    assert p[|p| - |a|..] == a && q[|q| - |b|..] == b;
  }

  // ----- script numbers -------------------------------------------------------------- //

  function LittleEndian(m: nat): Bytes {
    if m == 0 then [] else [m % 256] + LittleEndian(m / 256)
  }

  function FromLittleEndian(bs: Bytes): nat {
    if |bs| == 0 then 0 else bs[0] + 256 * FromLittleEndian(bs[1..])
  }

  function Abs(n: int): nat {
    if n < 0 then -n else n
  }

  /** The bytes of the magnitude, then a sign bit put where it changes no magnitude bit. */
  function SignBytes(le: Bytes, negative: bool): Bytes
    requires |le| > 0
  {
    var last := le[|le| - 1];
    if last >= 0x80 then le + [if negative then 0x80 else 0x00]
    else if negative then le[|le| - 1 := last + 0x80]
    else le
  }

  function ScriptNum(n: int): Bytes {
    if n == 0 then []
    else
      LittleEndianNonEmpty(Abs(n));
      SignBytes(LittleEndian(Abs(n)), n < 0)
  }

  lemma {:induction false} LittleEndianNonEmpty(m: nat)
    ensures m > 0 ==> |LittleEndian(m)| > 0 && LittleEndian(m)[|LittleEndian(m)| - 1] > 0
    ensures FromLittleEndian(LittleEndian(m)) == m
  {
    if m > 0 {
      LittleEndianNonEmpty(m / 256);
      assert LittleEndian(m)[1..] == LittleEndian(m / 256);
    }
  }

  lemma {:induction false} ShiftOut(out: Bytes, rest: nat)
    requires rest > 0
    ensures out + LittleEndian(rest) == (out + [rest % 256]) + LittleEndian(rest / 256)
  {
  }

  /** The loop of `_encode_scriptnum`: shift the magnitude out byte by byte. */
  method MagnitudeBytes(m: nat) returns (out: Bytes)
    ensures out == LittleEndian(m)
  {
    var rest := m;
    out := [];
    while rest > 0
      invariant out + LittleEndian(rest) == LittleEndian(m)
    {
      ShiftOut(out, rest);
      out := out + [rest % 256];
      rest := rest / 256;
    }
  }

  /** `_encode_scriptnum`: the magnitude, with the sign bit put into its last byte or into one more. */
  method EncodeScriptNum(n: int) returns (out: Bytes)
    ensures out == ScriptNum(n)
  {
    if n == 0 { return []; }
    out := MagnitudeBytes(if n < 0 then -n else n);
    LittleEndianNonEmpty(Abs(n));
    var last := out[|out| - 1];
    if last >= 0x80 {
      out := out + [if n < 0 then 0x80 else 0x00];
    } else if n < 0 {
      out := out[|out| - 1 := last + 0x80];
    }
  }

  /** How a script reads a number: little-endian, the top bit of the last byte being the sign. */
  function ReadScriptNum(bs: Bytes): int {
    if |bs| == 0 then 0
    else
      var last := bs[|bs| - 1];
      if last >= 0x80 then 0 - FromLittleEndian(bs[|bs| - 1 := last - 0x80]) else FromLittleEndian(bs)
  }

  lemma {:induction false} TrailingZero(bs: Bytes)
    ensures FromLittleEndian(bs + [0]) == FromLittleEndian(bs)
  {
    if |bs| > 0 {
      TrailingZero(bs[1..]);
      assert (bs + [0])[1..] == bs[1..] + [0];
    }
  }

  /** Script numbers read back, so no two numbers share an encoding. */
  lemma {:induction false} LittleEndianLength(m: nat, k: nat)
    requires m < Power256(k)
    ensures |LittleEndian(m)| <= k
  {
    if m > 0 { LittleEndianLength(m / 256, k - 1); }
  }

  /** A number of eight bytes needs at most nine. */
  lemma {:induction false} ScriptNumLength(n: int)
    requires 0 <= n < 0x1_0000_0000_0000_0000
    ensures |ScriptNum(n)| <= 9
  {
    EightBytes();
    LittleEndianLength(n, 8);
  }

  lemma EightBytes()
    ensures Power256(8) == 0x1_0000_0000_0000_0000
  {
    assert Power256(2) == 0x1_0000 && Power256(4) == 0x1_0000_0000;
  }

  lemma ScriptNumRoundTrip(n: int)
    ensures ReadScriptNum(ScriptNum(n)) == n
  {
    var le := LittleEndian(Abs(n));
    LittleEndianNonEmpty(Abs(n));
    if n != 0 {
      var bs := ScriptNum(n);
      if le[|le| - 1] >= 0x80 {
        TrailingZero(le);
        assert bs[|bs| - 1 := 0] == le + [0];
      } else if n < 0 {
        assert bs[|bs| - 1 := le[|le| - 1]] == le;
      }
    }
  }

  lemma {:induction false} SizeBound(bs: Bytes)
    requires |bs| > 0
    ensures bs[|bs| - 1] * Power256(|bs| - 1) <= FromLittleEndian(bs) < (bs[|bs| - 1] + 1) * Power256(|bs| - 1)
  {
    if |bs| == 1 {
      assert FromLittleEndian(bs[1..]) == 0 && Power256(0) == 1;
    } else {
      SizeBound(bs[1..]);
      var last: int, p: nat := bs[|bs| - 1], Power256(|bs| - 2);
      assert Power256(|bs| - 1) == 256 * p;
      Times256(last, p);
      Times256(last + 1, p);
    }
  }

  lemma MulOrder(a: int, b: int, p: nat)
    requires a <= b
    ensures a * p <= b * p
  {
  }

  lemma Times256(a: int, p: int)
    ensures a * (256 * p) == 256 * (a * p)
  {
  }

  lemma {:induction false} Power256Grows(a: nat, b: nat)
    requires a <= b
    ensures 1 <= Power256(a) <= Power256(b)
  {
    if a < b { Power256Grows(a, b - 1); }
    else if a > 0 { Power256Grows(a - 1, a - 1); }
  }

  /** What `k` bytes can say stays below 128 * 256^(k-1) in magnitude. */
  lemma {:induction false} ReadBound(bs: Bytes)
    requires |bs| > 0
    ensures Abs(ReadScriptNum(bs)) < 0x80 * Power256(|bs| - 1)
  {
    var last: int, p: nat := bs[|bs| - 1], Power256(|bs| - 1);
    Power256Grows(0, |bs| - 1);
    if last >= 0x80 {
      SizeBound(bs[|bs| - 1 := last - 0x80]);
      MulOrder(last - 0x80 + 1, 0x80, p);
    } else {
      SizeBound(bs);
      MulOrder(last + 1, 0x80, p);
    }
  }

  /** A number encoded in `k` bytes is at least 128 * 256^(k-2) in magnitude. */
  lemma NumBound(n: int)
    requires |ScriptNum(n)| > 1
    ensures Abs(n) >= 0x80 * Power256(|ScriptNum(n)| - 2)
  {
    var le := LittleEndian(Abs(n));
    LittleEndianNonEmpty(Abs(n));
    SizeBound(le);
    var last: int := le[|le| - 1];
    if last >= 0x80 {
      MulOrder(0x80, last, Power256(|le| - 1));
    } else {
      Power256Grows(0, |le| - 2);
      MulOrder(1, last, Power256(|le| - 1));
      assert Power256(|le| - 1) == 256 * Power256(|le| - 2);
    }
  }

  /** Minimality: no shorter byte string reads as the same number. */
  lemma ScriptNumMinimal(n: int, bs: Bytes)
    requires |bs| < |ScriptNum(n)|
    ensures ReadScriptNum(bs) != n
  {
    if |bs| > 0 {
      ReadBound(bs);
      NumBound(n);
      Power256Grows(|bs| - 1, |ScriptNum(n)| - 2);
    }
  }

  // ----- the redeem script -------------------------------------------------------------- //

  const OP_IF_SHA256: Bytes := [0x63, 0xA8]
  const OP_EQUALVERIFY: Bytes := [0x88]
  const OP_CHECKSIG_ELSE: Bytes := [0xAC, 0x67]
  const OP_CLTV_DROP: Bytes := [0xB1, 0x75]
  const OP_CHECKSIG_ENDIF: Bytes := [0xAC, 0x68]

  predicate RedeemArgsOk(hashlock: Bytes, recipient: Bytes, refund: Bytes, locktime: int) {
    |hashlock| == 32 && |recipient| <= 0xFF && |refund| <= 0xFF && |ScriptNum(locktime)| <= 0xFF
  }

  /** `htlc_redeemscript`; None is a ValueError. */
  function RedeemScript(hashlock: Bytes, recipient: Bytes, refund: Bytes, locktime: int): Option<Bytes> {
    if !RedeemArgsOk(hashlock, recipient, refund, locktime) then None
    else Some(OP_IF_SHA256 + (PushData(hashlock).value + (OP_EQUALVERIFY + (PushData(recipient).value
            + (OP_CHECKSIG_ELSE + (PushData(ScriptNum(locktime)).value
            + (OP_CLTV_DROP + (PushData(refund).value + OP_CHECKSIG_ENDIF))))))))
  }

  lemma SamePrefix(p: Bytes, x: Bytes, y: Bytes)
    requires p + x == p + y
    ensures x == y
  {
    assert (p + x)[|p|..] == x && (p + y)[|p|..] == y;
  }

  /** A redeem script determines its hashlock, both keys and its locktime. */
  lemma RedeemScriptInjective(h: Bytes, recipient: Bytes, refund: Bytes, locktime: int,
                              h': Bytes, recipient': Bytes, refund': Bytes, locktime': int)
    requires RedeemScript(h, recipient, refund, locktime).Some?
    requires RedeemScript(h, recipient, refund, locktime) == RedeemScript(h', recipient', refund', locktime')
    ensures h == h' && recipient == recipient' && refund == refund' && locktime == locktime'
  {
    var d, d' := PushData(refund).value + OP_CHECKSIG_ENDIF, PushData(refund').value + OP_CHECKSIG_ENDIF;
    var c, c' := PushData(ScriptNum(locktime)).value + (OP_CLTV_DROP + d),
        PushData(ScriptNum(locktime')).value + (OP_CLTV_DROP + d');
    var b, b' := PushData(recipient).value + (OP_CHECKSIG_ELSE + c),
        PushData(recipient').value + (OP_CHECKSIG_ELSE + c');
    var a, a' := PushData(h).value + (OP_EQUALVERIFY + b), PushData(h').value + (OP_EQUALVERIFY + b');
    SamePrefix(OP_IF_SHA256, a, a');
    PushIsPrefixFree(h, h', OP_EQUALVERIFY + b, OP_EQUALVERIFY + b');
    SamePrefix(OP_EQUALVERIFY, b, b');
    PushIsPrefixFree(recipient, recipient', OP_CHECKSIG_ELSE + c, OP_CHECKSIG_ELSE + c');
    SamePrefix(OP_CHECKSIG_ELSE, c, c');
    PushIsPrefixFree(ScriptNum(locktime), ScriptNum(locktime'), OP_CLTV_DROP + d, OP_CLTV_DROP + d');
    SamePrefix(OP_CLTV_DROP, d, d');
    PushIsPrefixFree(refund, refund', OP_CHECKSIG_ENDIF, OP_CHECKSIG_ENDIF);
    ScriptNumRoundTrip(locktime);
    ScriptNumRoundTrip(locktime');
  }
}
