/** Bech32 text and MoonBite addresses (wallet.py), after BIP 173, section "Bech32". */
module Address {
  import opened Params
  import opened Results
  import Bits
  import opened Checksum
  import Detection

  const CHARSET: string := "qpzry9x8gf2tvdw0s3jn54khce6mua7l"
  const MOONBITE_HRP: string := "moon"

  /** `_BECH32_CHARSET.find(c)` from position `i`: the index, or -1. */
  function FindFrom(c: char, i: nat): (r: int)
    requires i <= 32
    ensures -1 <= r < 32 && (r >= 0 ==> r < |CHARSET| && CHARSET[r] == c)
    ensures r == -1 ==> forall j :: i <= j < 32 ==> CHARSET[j] != c
    decreases 32 - i
  {
    if i == 32 then -1 else if CHARSET[i] == c then i else FindFrom(c, i + 1)
  }

  function Find(c: char): int {
    FindFrom(c, 0)
  }

  function LowerChar(c: char): char {
    if 'A' <= c <= 'Z' then (c as int + 32) as char else c
  }

  function UpperChar(c: char): char {
    if 'a' <= c <= 'z' then (c as int - 32) as char else c
  }

  function Lower(s: string): (l: string)
    ensures |l| == |s|
  {
    seq(|s|, i requires 0 <= i < |s| => LowerChar(s[i]))
  }

  function Upper(s: string): (u: string)
    ensures |u| == |s|
  {
    seq(|s|, i requires 0 <= i < |s| => UpperChar(s[i]))
  }

  predicate Printable(s: string) {
    forall i :: 0 <= i < |s| ==> 33 <= s[i] as int <= 126
  }

  /** `rfind("1")`. */
  function RFind(s: string): (r: int)
    ensures -1 <= r < |s| && (r >= 0 ==> s[r] == '1')
    ensures forall i :: r < i < |s| ==> s[i] != '1'
  {
    if |s| == 0 then -1 else if s[|s| - 1] == '1' then |s| - 1 else RFind(s[..|s| - 1])
  }

  function HrpExpand(hrp: string): (values: seq<int>)
    ensures Words(values)
  {
    seq(|hrp|, i requires 0 <= i < |hrp| => hrp[i] as int / 32) + [0]
      + seq(|hrp|, i requires 0 <= i < |hrp| => hrp[i] as int % 32)
  }

  /** The expansion spells the prefix: the high bits of every character, a zero, then the low five of each. */
  lemma {:induction false} HrpExpandSpells(hrp: string, i: nat)
    requires i < |hrp|
    ensures var e := HrpExpand(hrp);
            && |e| == 2 * |hrp| + 1 && e[|hrp|] == 0 && 0 <= e[|hrp| + 1 + i] < 32
            && hrp[i] as int == 32 * e[i] + e[|hrp| + 1 + i]
  {
  }

  function Chars(data: seq<int>): (s: string)
    requires Symbols(data)
    ensures |s| == |data|
  {
    seq(|data|, i requires 0 <= i < |data| => CHARSET[data[i]])
  }

  predicate AllInCharset(s: string) {
    forall i :: 0 <= i < |s| ==> Find(s[i]) >= 0
  }

  function Values(s: string): (data: seq<int>)
    requires AllInCharset(s)
    ensures |data| == |s| && Symbols(data)
  {
    seq(|s|, i requires 0 <= i < |s| => Find(s[i]))
  }

  function Encode(hrp: string, data: seq<int>): string
    requires Symbols(data)
  {
    hrp + "1" + Chars(data + CreateChecksum(HrpExpand(hrp) + data))
  }

  datatype Parsed = Parsed(hrp: string, data: seq<int>)

  /** The part of `_bech32_decode` after the case check, on lower-case text. */
  function DecodeLower(s: string): Option<Parsed>
  {
    var pos := RFind(s);
    if pos < 1 || pos + 7 > |s| || |s| > 90 then None
    else if !AllInCharset(s[pos + 1..]) then None
    else
      var data := Values(s[pos + 1..]);
      if Polymod(HrpExpand(s[..pos]) + data) != One() then None
      else Some(Parsed(s[..pos], data[..|data| - 6]))
  }

  function Decode(s: string): Option<Parsed> {
    if !Printable(s) || (Lower(s) != s && Upper(s) != s) then None
    else DecodeLower(Lower(s))
  }

  lemma LowerPrintable(s: string)
    requires Printable(s)
    ensures Printable(Lower(s))
  {
  }

  // ----- the charset -------------------------------------------------------------------- //

  lemma CharsetDistinct()
    ensures |CHARSET| == 32
    ensures forall i, j :: 0 <= i < j < 32 ==> CHARSET[i] != CHARSET[j]
  {
  }

  lemma CharsetPlain(v: int)
    requires 0 <= v < 32
    ensures 33 <= CHARSET[v] as int <= 126 && LowerChar(CHARSET[v]) == CHARSET[v] && CHARSET[v] != '1'
  {
  }

  lemma FindChar(v: int)
    requires 0 <= v < 32
    ensures Find(CHARSET[v]) == v
  {
    CharsetDistinct();
  }

  lemma ValuesOfChars(data: seq<int>)
    requires Symbols(data)
    ensures AllInCharset(Chars(data)) && Values(Chars(data)) == data
  {
    forall i | 0 <= i < |data| ensures Find(Chars(data)[i]) == data[i] {
      FindChar(data[i]);
    }
  }

  lemma CharsOfValues(s: string)
    requires AllInCharset(s)
    ensures Chars(Values(s)) == s
  {
  }

  // ----- text round trips ----------------------------------------------------------------- //

  lemma {:induction false} LastOne(s: string, pos: nat)
    requires pos < |s| && s[pos] == '1' && forall i :: pos < i < |s| ==> s[i] != '1'
    ensures RFind(s) == pos
  {
  }

  /** The shape of an encoded text: plain characters, lower case, its last '1' after the prefix. */
  lemma {:induction false} EncodedShape(hrp: string, data: seq<int>)
    requires Printable(hrp) && Lower(hrp) == hrp && Symbols(data)
    ensures var s := Encode(hrp, data);
            && Printable(s) && Lower(s) == s && RFind(s) == |hrp| && |s| == |hrp| + 7 + |data|
            && s[..|hrp|] == hrp && s[|hrp| + 1..] == Chars(data + CreateChecksum(HrpExpand(hrp) + data))
  {
    var all := data + CreateChecksum(HrpExpand(hrp) + data);
    var s := Encode(hrp, data);
    forall i | 0 <= i < |s|
      ensures 33 <= s[i] as int <= 126 && LowerChar(s[i]) == s[i] && (i > |hrp| ==> s[i] != '1')
    {
      EncodedChar(hrp, all, i);
    }
    assert s[|hrp|] == '1';
    LastOne(s, |hrp|);
    assert Lower(s) == s;
  }

  lemma {:induction false} EncodedChar(hrp: string, all: seq<int>, i: nat)
    requires Printable(hrp) && Lower(hrp) == hrp && Symbols(all) && i < |hrp + "1" + Chars(all)|
    ensures var c := (hrp + "1" + Chars(all))[i];
            33 <= c as int <= 126 && LowerChar(c) == c && (i > |hrp| ==> c != '1')
  {
    if i < |hrp| {
      assert Lower(hrp)[i] == hrp[i];
    } else if i > |hrp| {
      CharsetPlain(all[i - |hrp| - 1]);
    }
  }

  /**
   * What is encoded decodes, exactly when the prefix is lower-case, printable and not empty, and the text within 90
   * characters.
   */
  lemma {:induction false} EncodeThenDecode(hrp: string, data: seq<int>)
    requires Symbols(data)
    ensures Decode(Encode(hrp, data)) == Some(Parsed(hrp, data))
            <==> Printable(hrp) && Lower(hrp) == hrp && |hrp| >= 1 && |hrp| + 7 + |data| <= 90
    ensures !Printable(hrp) || (Lower(hrp) == hrp && (|hrp| == 0 || |hrp| + 7 + |data| > 90))
            ==> Decode(Encode(hrp, data)).None?
  {
    var s := Encode(hrp, data);
    assert s[..|hrp|] == hrp;
    if !Printable(hrp) {
      var i :| 0 <= i < |hrp| && !(33 <= hrp[i] as int <= 126);
      assert s[i] == hrp[i];
    } else if Lower(hrp) == hrp {
      PlainPrefix(hrp, data);
    } else if Decode(s).Some? {
      DecodesToLower(s);
    }
  }

  lemma {:induction false} PlainPrefix(hrp: string, data: seq<int>)
    requires Printable(hrp) && Lower(hrp) == hrp && Symbols(data)
    ensures Decode(Encode(hrp, data)) == if |hrp| >= 1 && |hrp| + 7 + |data| <= 90 then Some(Parsed(hrp, data))
            else None
  {
    var all := data + CreateChecksum(HrpExpand(hrp) + data);
    EncodedShape(hrp, data);
    ValuesOfChars(all);
    ChecksumUnique(HrpExpand(hrp) + data, CreateChecksum(HrpExpand(hrp) + data));
    assert HrpExpand(hrp) + data + CreateChecksum(HrpExpand(hrp) + data) == HrpExpand(hrp) + all;
    assert all[..|all| - 6] == data;
  }

  lemma {:induction false} DecodesToLower(s: string)
    requires Decode(s).Some?
    ensures Lower(Decode(s).value.hrp) == Decode(s).value.hrp
  {
    var hrp := Decode(s).value.hrp;
    forall i | 0 <= i < |hrp| ensures LowerChar(hrp[i]) == hrp[i] {
      assert hrp[i] == Lower(s)[i];
    }
  }

  lemma CutAt(s: string, pos: nat)
    requires pos < |s| && s[pos] == '1'
    ensures s == s[..pos] + "1" + s[pos + 1..]
  {
  }

  /** Symbols that check end with the created checksum of what comes before. */
  lemma {:induction false} ChecksumAtEnd(prefix: seq<int>, data: seq<int>)
    requires Words(prefix) && Symbols(data) && |data| >= 6 && Polymod(prefix + data) == One()
    ensures data == data[..|data| - 6] + CreateChecksum(prefix + data[..|data| - 6])
  {
    var front, sum := data[..|data| - 6], data[|data| - 6..];
    assert data == front + sum && prefix + data == prefix + front + sum;
    ChecksumUnique(prefix + front, sum);
  }

  /** What decodes is the encoding of its parts, in lower case. */
  lemma {:induction false} DecodeThenEncode(s: string)
    requires Decode(s).Some?
    ensures var p := Decode(s).value;
            && Printable(p.hrp) && Symbols(p.data) && |p.hrp| >= 1 && |s| <= 90
            && Encode(p.hrp, p.data) == Lower(s)
  {
    var low := Lower(s);
    LowerPrintable(s);
    var pos := RFind(low);
    var data := Values(low[pos + 1..]);
    var p := Decode(s).value;
    ChecksumAtEnd(HrpExpand(p.hrp), data);
    CharsOfValues(low[pos + 1..]);
    CutAt(low, pos);
  }

  // ----- error detection ------------------------------------------------------------------- //

  lemma LowerUpdate(s: string, i: nat, c: char)
    requires i < |s|
    ensures Lower(s[i := c]) == Lower(s)[i := LowerChar(c)]
  {
  }

  /**
   * Error detection: in a text that decodes, replacing any one character after the separator by another
   * character of the charset, in either case, gives a text that does not decode.
   */
  lemma OneSubstitutionDetected(s: string, i: nat, c: char)
    requires Decode(s).Some? && RFind(Lower(s)) < i < |s|
    requires Find(LowerChar(c)) >= 0 && LowerChar(c) != LowerChar(s[i])
    ensures Decode(s[i := c]).None?
  {
    var low, s' := Lower(s), s[i := c];
    if Printable(s') && (Lower(s') == s' || Upper(s') == s') {
      LowerUpdate(s, i, c);
      SubstitutedLower(low, i, LowerChar(c));
    }
  }

  lemma SubstitutedLower(low: string, i: nat, c: char)
    requires DecodeLower(low).Some? && RFind(low) < i < |low|
    requires Find(c) >= 0 && c != low[i]
    ensures DecodeLower(low[i := c]).None?
  {
    var pos := RFind(low);
    var low' := low[i := c];
    CharsetPlain(Find(c));
    LastOne(low', pos);
    var tail, k := low[pos + 1..], i - pos - 1;
    assert low'[pos + 1..] == tail[k := c] && low'[..pos] == low[..pos];
    SubstitutedTail(HrpExpand(low[..pos]), tail, k, c);
  }

  lemma SubstitutedTail(head: seq<int>, tail: string, k: nat, c: char)
    requires Words(head) && AllInCharset(tail) && k < |tail| && Find(c) >= 0 && c != tail[k]
    ensures AllInCharset(tail[k := c])
    ensures Polymod(head + Values(tail)) != Polymod(head + Values(tail[k := c]))
  {
    var tail' := tail[k := c];
    forall j | 0 <= j < |tail'| ensures Find(tail'[j]) >= 0 {
      if j != k { assert tail'[j] == tail[j]; }
    }
    var data, data' := Values(tail), Values(tail');
    FindTellsApart(tail[k], c);
    OneSymbolMatters(head + data[..k], data[k], data'[k], data[k + 1..]);
    assert head + data == head + data[..k] + [data[k]] + data[k + 1..];
    assert head + data' == head + data[..k] + [data'[k]] + data[k + 1..];
  }

  /**
   * Error detection goes further: two wrong characters never make up for each other. In a text that decodes, replacing
   * any two characters after the separator by others of the charset gives a text that does not decode.
   */
  lemma {:induction false} TwoSubstitutionsDetected(s: string, i: nat, c: char, j: nat, d: char)
    requires Decode(s).Some? && RFind(Lower(s)) < i < j < |s|
    requires Find(LowerChar(c)) >= 0 && LowerChar(c) != LowerChar(s[i])
    requires Find(LowerChar(d)) >= 0 && LowerChar(d) != LowerChar(s[j])
    ensures Decode(s[i := c][j := d]).None?
  {
    var low, s' := Lower(s), s[i := c][j := d];
    if Printable(s') && (Lower(s') == s' || Upper(s') == s') {
      LowerUpdate(s, i, c);
      LowerUpdate(s[i := c], j, d);
      TwoSubstitutedLower(low, i, LowerChar(c), j, LowerChar(d));
    }
  }

  lemma {:induction false} DecodedParts(low: string)
    requires DecodeLower(low).Some?
    ensures var pos := RFind(low);
            && 1 <= pos && pos + 7 <= |low| <= 90 && AllInCharset(low[pos + 1..])
            && Polymod(HrpExpand(low[..pos]) + Values(low[pos + 1..])) == One()
  {
  }

  lemma {:induction false} WrongChecksum(low: string, pos: nat, head: string, tail: string)
    requires pos < |low| && RFind(low) == pos && head == low[..pos] && tail == low[pos + 1..] && AllInCharset(tail)
    requires Polymod(HrpExpand(head) + Values(tail)) != One()
    ensures DecodeLower(low).None?
  {
  }

  lemma {:induction false} TwoSubstitutedLower(low: string, i: nat, c: char, j: nat, d: char)
    requires DecodeLower(low).Some? && RFind(low) < i < j < |low|
    requires Find(c) >= 0 && c != low[i] && Find(d) >= 0 && d != low[j]
    ensures DecodeLower(low[i := c][j := d]).None?
  {
    DecodedParts(low);
    var pos := RFind(low);
    var low' := low[i := c][j := d];
    CharsetPlain(Find(c));
    CharsetPlain(Find(d));
    LastOne(low', pos);
    var head, tail, k, l := low[..pos], low[pos + 1..], i - pos - 1, j - pos - 1;
    TwoInTail(low, pos, i, c, j, d);
    TwoSubstitutedTail(HrpExpand(head), tail, k, c, l, d);
    WrongChecksum(low', pos, head, tail[k := c][l := d]);
  }

  lemma TwoInTail(low: string, pos: nat, i: nat, c: char, j: nat, d: char)
    requires pos < i < j < |low|
    ensures low[i := c][j := d][..pos] == low[..pos]
    ensures low[i := c][j := d][pos + 1..] == low[pos + 1..][i - pos - 1 := c][j - pos - 1 := d]
  {
  }

  lemma {:induction false} TwoSubstitutedTail(head: seq<int>, tail: string, k: nat, c: char, l: nat, d: char)
    requires Words(head) && AllInCharset(tail) && k < l < |tail| <= 88
    requires Find(c) >= 0 && c != tail[k] && Find(d) >= 0 && d != tail[l]
    ensures AllInCharset(tail[k := c][l := d])
    ensures Polymod(head + Values(tail)) != Polymod(head + Values(tail[k := c][l := d]))
  {
    var tail' := tail[k := c][l := d];
    forall n | 0 <= n < |tail'| ensures Find(tail'[n]) >= 0 {
      if n != k && n != l { assert tail'[n] == tail[n]; }
    }
    var data, data' := Values(tail), Values(tail');
    FindTellsApart(tail[k], c);
    FindTellsApart(tail[l], d);
    InFive(head, data, k, l);
    InFive(head, data', k, l);
    SameElsewhere(data, data', k, l);
    Detection.TwoSymbolsMatter(head + data[..k], data[k], data'[k], data[k + 1..l], data[l], data'[l], data[l + 1..]);
  }

  lemma InFive(head: seq<int>, data: seq<int>, k: nat, l: nat)
    requires k < l < |data|
    ensures head + data == head + data[..k] + [data[k]] + data[k + 1..l] + [data[l]] + data[l + 1..]
  {
  }

  lemma SameElsewhere(data: seq<int>, data': seq<int>, k: nat, l: nat)
    requires k < l < |data| == |data'| && forall n :: 0 <= n < |data| && n != k && n != l ==> data'[n] == data[n]
    ensures data'[..k] == data[..k] && data'[k + 1..l] == data[k + 1..l] && data'[l + 1..] == data[l + 1..]
  {
  }

  lemma FindTellsApart(a: char, b: char)
    requires Find(a) >= 0 && a != b
    ensures Find(a) != Find(b)
  {
  }

  // ----- addresses ---------------------------------------------------------------------------- //

  predicate ByteString(p: seq<int>) {
    Bits.InRange(p, 8)
  }

  lemma FiveBitSymbols(data: seq<int>)
    ensures Bits.InRange(data, 5) <==> Symbols(data)
  {
    SmallPowers();
  }

  /** Regrouping 8-bit bytes into 5-bit symbols, and what comes of reading them back. */
  lemma EightToFive(p: seq<int>)
    requires ByteString(p)
    ensures var d := Bits.ConvertBits(p, 8, 5, true);
            && d.Some? && Symbols(d.value) && |d.value| == (8 * |p| + 4) / 5
            && Bits.ConvertBits(d.value, 5, 8, false) == Some(p)
  {
    var bits := Bits.Stream(p, 8);
    var pad := if |bits| % 5 == 0 then 0 else 5 - |bits| % 5;
    var padded := bits + Bits.Zeros(pad);
    PadLengths(|p|, |bits|, pad);
    assert pad == 0 ==> padded == bits;
    var d := Bits.Regroup(padded, 5);
    Bits.StreamRegroup(padded, 5);
    FiveBitSymbols(d);
    assert Bits.ConvertBits(p, 8, 5, true) == Some(d);
    ReadBack(p, d, pad);
  }

  /** The symbols of an address spell the number of its bytes, times the power of two that the padding adds. */
  lemma {:induction false} SymbolsSpellBytes(p: seq<int>)
    requires ByteString(p)
    ensures var d := Bits.ConvertBits(p, 8, 5, true);
            && d.Some? && 0 <= 5 * |d.value| - 8 * |p| < 5
            && Bits.Spelled(d.value, 32) == Bits.Spelled(p, 256) * Pow2(5 * |d.value| - 8 * |p|)
  {
    EightToFive(p);
    var d, bits := Bits.ConvertBits(p, 8, 5, true).value, Bits.Stream(p, 8);
    var pad := if |bits| % 5 == 0 then 0 else 5 - |bits| % 5;
    PadLengths(|p|, |bits|, pad);
    FiveBitSymbols(d);
    PaddedStream(p, d, pad);
    SpelledPadded(p, d, pad);
  }

  lemma {:induction false} SpelledPadded(p: seq<int>, d: seq<int>, pad: nat)
    requires ByteString(p) && Bits.InRange(d, 5) && Bits.Stream(d, 5) == Bits.Stream(p, 8) + Bits.Zeros(pad)
    ensures Bits.Spelled(d, 32) == Bits.Spelled(p, 256) * Pow2(pad)
  {
    Bits.StreamSpells(p, 8);
    Bits.StreamSpells(d, 5);
    Bits.NumOfJoined(Bits.Stream(p, 8), Bits.Zeros(pad));
    Bits.ZerosSpellNothing(pad);
    SmallPowers();
    assert Pow2(8) == 256;
  }

  lemma {:induction false} PaddedStream(p: seq<int>, d: seq<int>, pad: nat)
    requires ByteString(p) && Bits.InRange(d, 5) && Bits.ConvertBits(p, 8, 5, true) == Some(d)
    requires pad == if 8 * |p| % 5 == 0 then 0 else 5 - 8 * |p| % 5
    ensures Bits.Stream(d, 5) == Bits.Stream(p, 8) + Bits.Zeros(pad) && 5 * |d| == 8 * |p| + pad
  {
    var padded := Bits.Stream(p, 8) + Bits.Zeros(pad);
    PadLengths(|p|, |Bits.Stream(p, 8)|, pad);
    PaddedIs(p, d, pad, padded);
    Bits.StreamRegroup(padded, 5);
  }

  lemma {:induction false} PaddedIs(p: seq<int>, d: seq<int>, pad: nat, padded: seq<bool>)
    requires ByteString(p) && Bits.ConvertBits(p, 8, 5, true) == Some(d)
    requires padded == Bits.Stream(p, 8) + Bits.Zeros(pad)
    requires pad == if 8 * |p| % 5 == 0 then 0 else 5 - 8 * |p| % 5
    ensures d == Bits.Regroup(padded, 5)
  {
    assert pad == 0 ==> padded == Bits.Stream(p, 8);
  }

  lemma PadLengths(n: nat, len: nat, pad: nat)
    requires len == n * 8 && pad == if len % 5 == 0 then 0 else 5 - len % 5
    ensures (len + pad) % 5 == 0 && (len + pad) / 5 == (8 * n + 4) / 5
    ensures pad < 5 && (len + pad) % 8 == pad
  {
    var q, r := len / 5, len % 5;
    FullGroups(q, r, pad);
    assert 8 * n + 4 == 5 * q + (r + 4);
  }

  /** `q` groups of five, and the last one filled up. */
  lemma FullGroups(q: nat, r: nat, pad: nat)
    requires r < 5 && pad == if r == 0 then 0 else 5 - r
    ensures (5 * q + r + pad) % 5 == 0 && (5 * q + r + pad) / 5 == q + (if r == 0 then 0 else 1)
    ensures (5 * q + (r + 4)) / 5 == q + (if r == 0 then 0 else 1)
  {
  }

  lemma {:induction false} ReadBack(p: seq<int>, d: seq<int>, pad: nat)
    requires ByteString(p) && Bits.InRange(d, 5) && pad < 5
    requires Bits.Stream(d, 5) == Bits.Stream(p, 8) + Bits.Zeros(pad) && |Bits.Stream(d, 5)| % 8 == pad
    ensures Bits.ConvertBits(d, 5, 8, false) == Some(p)
  {
    var all, bits := Bits.Stream(d, 5), Bits.Stream(p, 8);
    assert all[..|all| - pad] == bits && all[|all| - pad..] == Bits.Zeros(pad);
    Bits.RegroupStream(p, 8);
  }

  /** The other way round: symbols that regroup into bytes are the regrouping of those bytes. */
  lemma {:induction false} FiveToEight(d: seq<int>, p: seq<int>)
    requires Symbols(d) && Bits.ConvertBits(d, 5, 8, false) == Some(p)
    ensures ByteString(p) && Bits.ConvertBits(p, 8, 5, true) == Some(d)
  {
    FiveBitSymbols(d);
    var bits := Bits.Stream(d, 5);
    var extra := |bits| % 8;
    var whole := bits[..|bits| - extra];
    WholeBytes(|bits|, |d|, extra);
    Bits.StreamRegroup(whole, 8);
    WholeAndZeros(bits, extra);
    PadBack(d, p, whole, extra);
  }

  lemma WholeAndZeros(bits: seq<bool>, extra: nat)
    requires extra <= |bits| && bits[|bits| - extra..] == Bits.Zeros(extra)
    ensures bits == bits[..|bits| - extra] + Bits.Zeros(extra)
  {
  }

  lemma WholeBytes(len: nat, n: nat, extra: nat)
    requires len == n * 5 && extra == len % 8
    ensures (len - extra) % 8 == 0
    ensures extra < 5 ==> (len - extra) % 5 == if extra == 0 then 0 else 5 - extra
  {
  }

  lemma {:induction false} PadBack(d: seq<int>, p: seq<int>, whole: seq<bool>, extra: nat)
    requires Bits.InRange(d, 5) && Bits.InRange(p, 8) && Bits.Stream(p, 8) == whole && extra < 5
    requires Bits.Stream(d, 5) == whole + Bits.Zeros(extra) && |whole| % 5 == if extra == 0 then 0 else 5 - extra
    ensures Bits.ConvertBits(p, 8, 5, true) == Some(d)
  {
    Bits.RegroupStream(d, 5);
    assert extra == 0 ==> whole == Bits.Stream(d, 5);
  }

  /** address_from_pubkey_hash; the hash is given as bytes. */
  function AddressFromPubkeyHash(p: seq<int>, hrp: string): (s: string)
    requires ByteString(p)
  {
    EightToFive(p);
    Encode(hrp, Bits.ConvertBits(p, 8, 5, true).value)
  }

  /** pubkey_hash_from_address; None is the ValueError. */
  function PubkeyHashFromAddress(s: string): Option<seq<int>> {
    var parsed := Decode(s);
    if parsed.None? then None
    else Bits.ConvertBits(parsed.value.data, 5, 8, false)
  }

  lemma MoonIsPlain()
    ensures Printable(MOONBITE_HRP) && Lower(MOONBITE_HRP) == MOONBITE_HRP && |MOONBITE_HRP| == 4
  {
  }

  /** A hash survives its address exactly when it has at most 49 bytes: a longer address is refused. */
  lemma AddressRoundTrip(p: seq<int>)
    requires ByteString(p)
    ensures PubkeyHashFromAddress(AddressFromPubkeyHash(p, MOONBITE_HRP)) == (if |p| <= 49 then Some(p) else None)
    ensures |p| <= 49 ==> Decode(AddressFromPubkeyHash(p, MOONBITE_HRP)).value.hrp == MOONBITE_HRP
  {
    MoonIsPlain();
    EightToFive(p);
    var d := Bits.ConvertBits(p, 8, 5, true).value;
    EncodeThenDecode(MOONBITE_HRP, d);
    assert |MOONBITE_HRP| + 7 + |d| <= 90 <==> |p| <= 49;
  }

  /** Re-encoding what an address holds, under its own prefix, gives its lower-case text. */
  lemma AddressCanonical(s: string)
    requires PubkeyHashFromAddress(s).Some?
    ensures var p, hrp := PubkeyHashFromAddress(s).value, Decode(s).value.hrp;
            ByteString(p) && AddressFromPubkeyHash(p, hrp) == Lower(s)
  {
    DecodeThenEncode(s);
    FiveToEight(Decode(s).value.data, PubkeyHashFromAddress(s).value);
  }
}
