/**
 * Why a swap is all or nothing: what spends its two outputs (the scripts of swap_verifier.py, run), and what the
 * verifier reads off such a spend.
 */
module Atomicity {
  import opened Ledger
  import opened Results
  import opened Script
  import opened Interpreter
  import opened Swap
  import opened Exchange
  import Wallets

  /** What the verifier sees of a spend: the items of its witness, and the script they unlock. */
  function SeenItems(items: seq<Bytes>, script: Bytes): seq<Bytes> {
    items + [script]
  }

  /** The columns of a swap say who may spend its two outputs. */
  lemma {:induction false} LegsUnlock(s: Row, e: Spending, items: seq<Bytes>)
    requires ScriptsOk(s)
    ensures Unlocks(e, BaseScript(s).value, items) <==>
            || Claims(e, items, s.hashlock, KeyBytes(s.baseRecipient).value)
            || Refunds(e, items, KeyBytes(s.baseRefund).value, s.baseLocktime)
    ensures Unlocks(e, QuoteScript(s).value, items) <==>
            || Claims(e, items, s.hashlock, KeyBytes(s.quoteRecipient).value)
            || Refunds(e, items, KeyBytes(s.quoteRefund).value, s.quoteLocktime)
  {
    WhoMaySpend(e, s.hashlock, KeyBytes(s.baseRecipient).value, KeyBytes(s.baseRefund).value, s.baseLocktime, items);
    WhoMaySpend(e, s.hashlock, KeyBytes(s.quoteRecipient).value, KeyBytes(s.quoteRefund).value, s.quoteLocktime, items);
  }

  /** A secret behind the hashlock, however it was found, lets the recipient claim the base output at any time. */
  lemma {:induction false} SecretClaimsBase(w: Watch, s: Row, e: Spending, signature: Bytes, x: Bytes)
    requires ScriptsOk(s) && e.sha256 == w.sha256 && w.sha256(x) == s.hashlock
    requires e.checkSig(KeyBytes(s.baseRecipient).value, signature)
    ensures Unlocks(e, BaseScript(s).value, [signature, x, [1]])
  {
    OneIsTrue();
    LegsUnlock(s, e, [signature, x, [1]]);
  }

  lemma SeenAmong(items: seq<Bytes>, script: Bytes, i: nat)
    requires i < |items|
    ensures SeenItems(items, script)[i] == items[i]
  {
  }

  /**
   * Whoever spends the quote output either hands over the secret, with which the base output can be claimed, or takes
   * a refund, which the quote locktime forbids until it is reached. The verifier tells the two apart: it finds a
   * secret, or there was a refund. Only an empty secret, which it passes over, would be missed.
   */
  lemma {:induction false} QuoteSpendHandsOver(w: Watch, s: Row, e: Spending, items: seq<Bytes>)
    requires ScriptsOk(s) && e.sha256 == w.sha256 && Unlocks(e, QuoteScript(s).value, items)
    ensures var found := FindPreimage(w, SeenItems(items, QuoteScript(s).value), s.hashlock);
            && (found.Some? ==> forall e': Spending, signature ::
                  e'.sha256 == w.sha256 && e'.checkSig(KeyBytes(s.baseRecipient).value, signature) ==>
                  Unlocks(e', BaseScript(s).value, [signature, found.value, [1]]))
            && (found.None? && w.sha256([]) != s.hashlock ==>
                  Refunds(e, items, KeyBytes(s.quoteRefund).value, s.quoteLocktime))
            && (e.locktime < s.quoteLocktime && w.sha256([]) != s.hashlock ==> found.Some?)
  {
    var script := QuoteScript(s).value;
    var found := FindPreimage(w, SeenItems(items, script), s.hashlock);
    LegsUnlock(s, e, items);
    if Claims(e, items, s.hashlock, KeyBytes(s.quoteRecipient).value) { SeenAmong(items, script, 1); }
    if found.Some? {
      forall e': Spending, signature | e'.sha256 == w.sha256 && e'.checkSig(KeyBytes(s.baseRecipient).value, signature)
        ensures Unlocks(e', BaseScript(s).value, [signature, found.value, [1]])
      {
        SecretClaimsBase(w, s, e', signature, found.value);
      }
    }
  }

  /** Without the secret the base output stays put until six hours after the quote output may be refunded. */
  lemma {:induction false} BaseRefundIsLater(w: Watch, orders: Orders, s: Row, e: Spending, items: seq<Bytes>)
    requires TermsOk(orders, s) && ScriptsOk(s) && e.sha256 == w.sha256 && Unlocks(e, BaseScript(s).value, items)
    ensures e.locktime >= s.quoteLocktime + 6 * 60 * 60
            || exists i :: 0 <= i < |items| && w.sha256(items[i]) == s.hashlock
  {
    LegsUnlock(s, e, items);
    if Claims(e, items, s.hashlock, KeyBytes(s.baseRecipient).value) { assert w.sha256(items[1]) == s.hashlock; }
  }

  /** CHECKLOCKTIMEVERIFY reads five bytes: a later locktime, which registration lets pass, is never reached. */
  lemma {:induction false} LateLocksNeverOpen(t: int)
    requires t > 0
    ensures (exists e: Spending, items, key :: Refunds(e, items, key, t)) <==> t < 0x80_0000_0000
  {
    FiveByteNumbers(t);
    if t < 0x80_0000_0000 {
      var e := Spending((x: Bytes) => x, (k: Bytes, s: Bytes) => true, t, false);
      OneIsTrue();
      assert Refunds(e, [[], []], [], t);
    }
  }

  lemma {:induction false} FiveByteNumbers(t: int)
    requires t > 0
    ensures |ScriptNum(t)| <= 5 <==> t < 0x80_0000_0000
  {
    FourAndFiveBytes();
    var le := LittleEndian(t);
    LittleEndianNonEmpty(t);
    if |ScriptNum(t)| > 5 {
      NumBound(t);
      Power256Grows(4, |ScriptNum(t)| - 2);
    } else {
      ReadBound(ScriptNum(t));
      ScriptNumRoundTrip(t);
      Power256Grows(|ScriptNum(t)| - 1, 4);
    }
  }

  lemma FourAndFiveBytes()
    ensures Power256(4) == 0x1_0000_0000
  {
    assert Power256(2) == 0x1_0000;
  }

  // ----- key hashes as text --------------------------------------------------------------------- //

  lemma {:induction false} KeyBytesMore(text: string, bs: Bytes, hi: char, lo: char)
    requires KeyBytes(text) == Some(bs) && HexValue(hi) >= 0 && HexValue(lo) >= 0
    ensures KeyBytes(text + [hi, lo]) == Some(bs + [16 * HexValue(hi) + HexValue(lo)])
  {
    if |text| == 0 {
      var v: Byte := 16 * HexValue(hi) + HexValue(lo);
      assert text + [hi, lo] == [hi, lo] && [hi, lo][2..] == [] && KeyBytes([]) == Some([]);
      assert KeyBytes([hi, lo]) == Some([v] + []) && bs + [v] == [v] && [v] + [] == [v];
    } else {
      KeyBytesMore(text[2..], bs[1..], hi, lo);
      assert (text + [hi, lo])[2..] == text[2..] + [hi, lo];
      assert bs == [bs[0]] + bs[1..];
      var last := [16 * HexValue(hi) + HexValue(lo)];
      assert [bs[0]] + (bs[1..] + last) == bs + last;
    }
  }

  /** The hex text that the wallet writes for bytes is read back as these bytes. */
  lemma {:induction false} KeyBytesOfHex(bs: Bytes)
    ensures KeyBytes(Wallets.Hex(bs)) == Some(bs)
  {
    if |bs| > 0 {
      var init, last := bs[..|bs| - 1], bs[|bs| - 1];
      KeyBytesOfHex(init);
      DigitsRead(last / 16 % 16);
      DigitsRead(last % 16);
      assert bs == init + [last] && last == 16 * (last / 16 % 16) + last % 16;
      KeyBytesMore(Wallets.Hex(init), init, Wallets.HEX_DIGITS[last / 16 % 16], Wallets.HEX_DIGITS[last % 16]);
    }
  }

  lemma DigitsRead(v: int)
    requires 0 <= v < 16
    ensures HexValue(Wallets.HEX_DIGITS[v]) == v
  {
  }
}
