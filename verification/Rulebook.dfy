/**
 * The rules of the chain, said of the blocks of a branch and nothing else: no index, no running state. Validation
 * with the index (node.py, utxo.py, transaction.py) accepts exactly what these rules allow.
 */
module Rulebook {
  import opened Params
  import opened Ledger
  import opened Results
  import opened CoinSet
  import opened Chain
  import opened Lineage
  import opened NodeChain
  import Merkle
  import MedianTime
  import Pow

  // ----- what a transaction may take ---------------------------------------------------------- //

  /** `t` stands on the branch, or among the transactions `before` of the block on top, behind its coinbase. */
  ghost predicate Known(s: seq<Block>, before: seq<Transaction>, t: Transaction) {
    OnBranch(s, t) || exists m :: 1 <= m < |before| && before[m] == t
  }

  /** A known transaction has made `o`, and none has taken it. */
  ghost predicate Unspent(s: seq<Block>, before: seq<Transaction>, o: Outpoint) {
    && o.txid.TxId? && Made(o.txid.tx, o) && Known(s, before, o.txid.tx)
    && forall t :: Known(s, before, t) ==> !Takes(t, o)
  }

  /** The coinbase of a block fewer than `maturity` blocks below the next one. */
  ghost predicate Young(maturity: nat, s: seq<Block>, t: Transaction) {
    exists i: nat :: StandsAt(s, i, 0, t) && |s| - i < maturity
  }

  /** The output that an outpoint names: the digest carries the transaction. */
  function Named(o: Outpoint): Option<TxOutput> {
    if o.txid.TxId? && Made(o.txid.tx, o) then Some(o.txid.tx.outputs[o.index]) else None
  }

  /** Input `n` of `tx` takes an unspent, mature output with the key and the signature of its owner. */
  ghost predicate MayTake(rules: Rules, s: seq<Block>, before: seq<Transaction>, tx: Transaction, n: nat)
    requires n < |tx.inputs|
  {
    var input, o := tx.inputs[n], Outpoint(tx.inputs[n].prevTxid, tx.inputs[n].outputIndex);
    && Unspent(s, before, o) && !Young(rules.maturity, s, o.txid.tx)
    && rules.keyHash(input.pubkey) == Some(Named(o).value.pubkeyHash)
    && |input.signature| == 64 && 1 <= FromBytes(input.signature[32..]) <= CURVE_N / 2
    && rules.sigVerifies(input.pubkey, SigningForm(tx), input.signature) == Some(true)
  }

  /** What the inputs bring in. */
  function Brought(inputs: seq<TxInput>): int {
    if |inputs| == 0 then 0
    else
      var o := Named(OutpointOf(inputs[|inputs| - 1]));
      Brought(inputs[..|inputs| - 1]) + if o.Some? then o.value.amount else 0
  }

  /** `tx` may follow the transactions `before` in a block on top of `s`. */
  ghost predicate Allowed(rules: Rules, s: seq<Block>, before: seq<Transaction>, tx: Transaction) {
    && |tx.inputs| > 0 && |tx.outputs| > 0
    && (forall k :: 0 <= k < |tx.outputs| ==> 0 < tx.outputs[k].amount) && SumOut(tx.outputs) <= MAX_SUPPLY
    && (forall m, n :: 0 <= m < n < |tx.inputs| ==> OutpointOf(tx.inputs[m]) != OutpointOf(tx.inputs[n]))
    && (forall n: nat :: n < |tx.inputs| ==> MayTake(rules, s, before, tx, n))
    && Brought(tx.inputs) >= SumOut(tx.outputs)
  }

  // ----- the index says the same --------------------------------------------------------------- //

  /** The state of the transaction loop after the transactions `before` of a block on top of `s`. */
  ghost predicate Reached(rules: Rules, s: seq<Block>, before: seq<Transaction>, w: Coins) {
    && ValidBranch(rules, s)
    && (|before| > 0 ==> CoinbaseFirst(before, |s|))
    && var checked := CheckTxs(rules, Replay(s), before, |s|);
       checked.Some? && checked.value.coins == w
  }

  ghost predicate HoldsBehind(s: seq<Block>, before: seq<Transaction>, w: Coins) {
    && w.outs.Keys == w.meta.Keys
    && (forall o :: o in w.outs ==> HoldsOutput(w, o))
    && (forall o :: o in w.outs <==> Unspent(s, before, o))
    && (forall o :: o in w.outs ==>
          DatedOn(w.meta[o], s, o.txid.tx) || (Known([], before, o.txid.tx) && !w.meta[o].isCoinbase))
  }

  lemma {:induction false} TakenByKnown(s: seq<Block>, before: seq<Transaction>, o: Outpoint)
    requires o.txid.TxId? && (|before| > 0 ==> IsCoinbase(before[0]))
    ensures TakenIn(AllTxs(s) + before, o) <==> exists t :: Known(s, before, t) && Takes(t, o)
  {
    var all := AllTxs(s) + before;
    if t :| t in all && Takes(t, o) {
      OnBranchInAll(s, t);
      if t !in AllTxs(s) {
        var m :| 0 <= m < |before| && before[m] == t;
        assert m > 0;
      }
      assert Known(s, before, t);
    }
    if t :| Known(s, before, t) && Takes(t, o) {
      OnBranchInAll(s, t);
      if m :| 1 <= m < |before| && before[m] == t { assert t in before; }
      assert t in all;
    }
  }

  lemma {:induction false} HoldsWithoutBlock(rules: Rules, s: seq<Block>)
    requires ValidBranch(rules, s)
    ensures HoldsBehind(s, [], Replay(s))
  {
    BranchHistory(rules, s);
    HoldsOnBranch(rules, s);
    DatedBranch(rules, s);
    HoldsAlone(s, Replay(s));
  }

  lemma {:induction false} HoldsAlone(s: seq<Block>, c: Coins)
    requires c.outs.Keys == c.meta.Keys && HoldsUnspent(c, AllTxs(s)) && Dated(c.meta, s, [])
    ensures HoldsBehind(s, [], c)
  {
    forall o ensures o in c.outs <==> Unspent(s, [], o) {
      if o.txid.TxId? {
        OnBranchInAll(s, o.txid.tx);
        TakenAlone(s, o);
      }
    }
  }

  lemma {:induction false} TakenAlone(s: seq<Block>, o: Outpoint)
    requires o.txid.TxId?
    ensures TakenIn(AllTxs(s), o) <==> exists t :: Known(s, [], t) && Takes(t, o)
  {
    assert AllTxs(s) + [] == AllTxs(s);
    TakenByKnown(s, [], o);
  }

  lemma {:induction false} HoldsWithBlock(rules: Rules, s: seq<Block>, before: seq<Transaction>, w: Coins)
    requires Reached(rules, s, before, w) && |before| > 0
    ensures HoldsBehind(s, before, w)
  {
    BranchHistory(rules, s);
    HoldsOnBranch(rules, s);
    DatedBranch(rules, s);
    BlockStep(rules, Replay(s), AllTxs(s), before, |s|);
    HoldsAfterBlock(rules, Replay(s), AllTxs(s), before, |s|);
    DatedTxs(s, before);
    var full := ApplyTxs(Replay(s), before, |s|);
    HoldsBehindCoinbase(s, before, full, w);
  }

  lemma {:induction false} HoldsBehindCoinbase(s: seq<Block>, before: seq<Transaction>, full: Coins, w: Coins)
    requires |before| > 0 && CoinbaseFirst(before, |s|) && Ahead(full, w, before[0], |s|)
    requires History(full, AllTxs(s) + before) && HoldsUnspent(full, AllTxs(s) + before)
    requires Dated(full.meta, s, before)
    ensures HoldsBehind(s, before, w)
  {
    Apart(AllTxs(s), before);
    forall o ensures o in w.outs <==> Unspent(s, before, o) {
      if o.txid.TxId? {
        TakenByKnown(s, before, o);
        KnownInAll(s, before, o.txid.tx);
      }
    }
    forall o | o in w.outs
      ensures DatedOn(w.meta[o], s, o.txid.tx) || (Known([], before, o.txid.tx) && !w.meta[o].isCoinbase)
    {
      assert o in full.meta && full.meta[o] == w.meta[o];
    }
  }

  /** Known is everything but the coinbase of the block. */
  lemma {:induction false} KnownInAll(s: seq<Block>, before: seq<Transaction>, t: Transaction)
    requires |before| > 0 && (forall t :: t in AllTxs(s) ==> t !in before)
    requires forall k, l :: 0 <= k < l < |before| ==> before[k] != before[l]
    ensures Known(s, before, t) <==> t in AllTxs(s) + before && t != before[0]
  {
    OnBranchInAll(s, t);
  }

  lemma {:induction false} IndexHolds(rules: Rules, s: seq<Block>, before: seq<Transaction>, w: Coins)
    requires Reached(rules, s, before, w)
    ensures HoldsBehind(s, before, w)
  {
    if |before| == 0 { HoldsWithoutBlock(rules, s); } else { HoldsWithBlock(rules, s, before, w); }
  }

  lemma {:induction false} OldEnough(rules: Rules, s: seq<Block>, before: seq<Transaction>, w: Coins, o: Outpoint)
    requires Reached(rules, s, before, w) && HoldsBehind(s, before, w) && o in w.outs
    ensures Mature(rules, w, o, |s|) <==> !Young(rules.maturity, s, o.txid.tx)
  {
    var t := o.txid.tx;
    if DatedOn(w.meta[o], s, t) {
      var i: nat, k: nat :| StandsAt(s, i, k, t) && w.meta[o] == Meta(k == 0, i);
      forall j: nat | StandsAt(s, j, 0, t) ensures i == j && k == 0 {
        OnePlace(rules, s, t, i, k, j, 0);
      }
    } else {
      NotBelow(rules, s, before, w, t);
    }
  }

  /** What stands in the block on top stands nowhere below. */
  lemma {:induction false} NotBelow(rules: Rules, s: seq<Block>, before: seq<Transaction>, w: Coins, t: Transaction)
    requires Reached(rules, s, before, w) && Known([], before, t)
    ensures !OnBranch(s, t)
  {
    assert forall i: nat, k: nat :: !StandsAt([], i, k, t);
    BranchHistory(rules, s);
    BlockStep(rules, Replay(s), AllTxs(s), before, |s|);
    Apart(AllTxs(s), before);
    OnBranchInAll(s, t);
  }

  /** Input `n` passes the checks of the index. */
  predicate Ready(rules: Rules, w: Coins, tx: Transaction, n: nat, height: nat)
    requires n < |tx.inputs|
  {
    InputOk(rules, w.outs, tx.inputs[n], SigningForm(tx)) && Mature(rules, w, OutpointOf(tx.inputs[n]), height)
  }

  predicate EachReady(rules: Rules, w: Coins, tx: Transaction, height: nat) {
    forall n: nat :: n < |tx.inputs| ==> Ready(rules, w, tx, n, height)
  }

  lemma {:induction false} InputExactly(rules: Rules, s: seq<Block>, before: seq<Transaction>, w: Coins,
                                        tx: Transaction, n: nat)
    requires Reached(rules, s, before, w) && HoldsBehind(s, before, w) && n < |tx.inputs|
    ensures Ready(rules, w, tx, n, |s|) <==> MayTake(rules, s, before, tx, n)
  {
    var o := OutpointOf(tx.inputs[n]);
    if o in w.outs {
      OldEnough(rules, s, before, w, o);
      assert HoldsOutput(w, o);
      ReadyOrNot(rules, s, before, w, tx, n);
    }
  }

  lemma {:induction false} ReadyOrNot(rules: Rules, s: seq<Block>, before: seq<Transaction>, w: Coins,
                                      tx: Transaction, n: nat)
    requires n < |tx.inputs| && var o := OutpointOf(tx.inputs[n]);
             && o in w.outs && HoldsOutput(w, o) && Unspent(s, before, o)
             && (Mature(rules, w, o, |s|) <==> !Young(rules.maturity, s, o.txid.tx))
    ensures Ready(rules, w, tx, n, |s|) <==> MayTake(rules, s, before, tx, n)
  {
  }

  lemma {:induction false} BroughtIsSum(outs: map<Outpoint, TxOutput>, inputs: seq<TxInput>)
    requires forall i :: 0 <= i < |inputs| ==>
               var o := OutpointOf(inputs[i]);
               o in outs && o.txid.TxId? && Made(o.txid.tx, o) && outs[o] == o.txid.tx.outputs[o.index]
    ensures SumIn(outs, inputs) == Brought(inputs)
  {
    if |inputs| > 0 { BroughtIsSum(outs, inputs[..|inputs| - 1]); }
  }

  lemma {:induction false} EachWithinSum(outputs: seq<TxOutput>, k: nat)
    requires (forall i :: 0 <= i < |outputs| ==> 0 < outputs[i].amount) && k < |outputs|
    ensures 0 < outputs[k].amount <= SumOut(outputs)
  {
    var init := outputs[..|outputs| - 1];
    if k < |init| {
      EachWithinSum(init, k);
    } else if |init| > 0 {
      EachWithinSum(init, 0);
    }
  }

  lemma {:induction false} AmountsExactly(outputs: seq<TxOutput>)
    ensures AmountsOk(outputs) <==>
            (forall k :: 0 <= k < |outputs| ==> 0 < outputs[k].amount) && SumOut(outputs) <= MAX_SUPPLY
  {
    if forall k :: 0 <= k < |outputs| ==> 0 < outputs[k].amount {
      forall k: nat | k < |outputs| ensures 0 < outputs[k].amount <= SumOut(outputs) {
        EachWithinSum(outputs, k);
      }
    }
  }

  ghost predicate EachMayTake(rules: Rules, s: seq<Block>, before: seq<Transaction>, tx: Transaction) {
    forall n: nat :: n < |tx.inputs| ==> MayTake(rules, s, before, tx, n)
  }

  lemma AdmitsInParts(rules: Rules, w: Coins, tx: Transaction, height: nat)
    ensures Admits(rules, w, tx, height) <==>
            && ShapeOk(tx) && DistinctInputs(tx.inputs) && EachReady(rules, w, tx, height)
            && (forall n :: 0 <= n < |tx.inputs| ==> OutpointOf(tx.inputs[n]) in w.outs)
            && SumIn(w.outs, tx.inputs) >= SumOut(tx.outputs)
  {
    if Admits(rules, w, tx, height) {
      forall n: nat | n < |tx.inputs| ensures Ready(rules, w, tx, n, height) {}
    }
    if EachReady(rules, w, tx, height) {
      forall n: nat | n < |tx.inputs|
        ensures InputOk(rules, w.outs, tx.inputs[n], SigningForm(tx))
        ensures Mature(rules, w, OutpointOf(tx.inputs[n]), height)
      {
        assert Ready(rules, w, tx, n, height);
      }
    }
  }

  lemma {:induction false} AllowedInParts(rules: Rules, s: seq<Block>, before: seq<Transaction>, tx: Transaction)
    ensures Allowed(rules, s, before, tx) <==>
            && |tx.inputs| > 0 && |tx.outputs| > 0 && AmountsOk(tx.outputs) && DistinctInputs(tx.inputs)
            && EachMayTake(rules, s, before, tx) && Brought(tx.inputs) >= SumOut(tx.outputs)
  {
    AmountsExactly(tx.outputs);
  }

  lemma {:induction false} InputsExactly(rules: Rules, s: seq<Block>, before: seq<Transaction>, w: Coins,
                                         tx: Transaction)
    requires Reached(rules, s, before, w) && HoldsBehind(s, before, w)
    ensures EachReady(rules, w, tx, |s|) <==> EachMayTake(rules, s, before, tx)
  {
    forall n: nat | n < |tx.inputs|
      ensures Ready(rules, w, tx, n, |s|) <==> MayTake(rules, s, before, tx, n)
    {
      InputExactly(rules, s, before, w, tx, n);
    }
  }

  lemma {:induction false} InputsBring(rules: Rules, w: Coins, tx: Transaction, height: nat)
    requires EachReady(rules, w, tx, height) && forall o :: o in w.outs ==> HoldsOutput(w, o)
    ensures forall n :: 0 <= n < |tx.inputs| ==> OutpointOf(tx.inputs[n]) in w.outs
    ensures SumIn(w.outs, tx.inputs) == Brought(tx.inputs) && (|tx.inputs| > 0 ==> !IsCoinbase(tx))
  {
    forall n: nat | n < |tx.inputs| ensures HoldsOutput(w, OutpointOf(tx.inputs[n])) {
      assert Ready(rules, w, tx, n, height);
    }
    BroughtIsSum(w.outs, tx.inputs);
  }

  /** The index admits a transaction exactly when the rules allow it, and its fee is what it brings and does not pay. */
  lemma {:induction false} AllowedExactly(rules: Rules, s: seq<Block>, before: seq<Transaction>, w: Coins,
                                          tx: Transaction)
    requires Reached(rules, s, before, w)
    ensures Admits(rules, w, tx, |s|) <==> Allowed(rules, s, before, tx)
    ensures Allowed(rules, s, before, tx) ==>
              && (forall n :: 0 <= n < |tx.inputs| ==> OutpointOf(tx.inputs[n]) in w.outs)
              && Fee(w.outs, tx) == Brought(tx.inputs) - SumOut(tx.outputs)
  {
    IndexHolds(rules, s, before, w);
    InputsExactly(rules, s, before, w, tx);
    if EachReady(rules, w, tx, |s|) { InputsBring(rules, w, tx, |s|); }
    AdmitsInParts(rules, w, tx, |s|);
    AllowedInParts(rules, s, before, tx);
  }

  // ----- what raises --------------------------------------------------------------------------------- //

  /** The key of input `n` has no hash, or it is the owner's, the signature is canonical, and ECDSA has no verdict. */
  ghost predicate Trips(rules: Rules, tx: Transaction, n: nat)
    requires n < |tx.inputs|
  {
    var input, owed := tx.inputs[n], Named(OutpointOf(tx.inputs[n]));
    || rules.keyHash(input.pubkey).None?
    || (&& owed.Some? && rules.keyHash(input.pubkey) == Some(owed.value.pubkeyHash)
        && |input.signature| == 64 && 1 <= FromBytes(input.signature[32..]) <= CURVE_N / 2
        && rules.sigVerifies(input.pubkey, SigningForm(tx), input.signature).None?)
  }

  /** Input `k` is the first that may not be taken, names no outpoint twice, and trips the check. */
  ghost predicate TripsFirst(rules: Rules, s: seq<Block>, before: seq<Transaction>, tx: Transaction, k: nat) {
    && k < |tx.inputs| && Trips(rules, tx, k)
    && (forall n: nat :: n < k ==> MayTake(rules, s, before, tx, n))
    && forall m, n :: 0 <= m < n <= k ==> OutpointOf(tx.inputs[m]) != OutpointOf(tx.inputs[n])
  }

  /** Every input names an output that is unspent and old enough. */
  ghost predicate AllThere(rules: Rules, s: seq<Block>, before: seq<Transaction>, tx: Transaction) {
    forall n :: 0 <= n < |tx.inputs| ==>
      var o := OutpointOf(tx.inputs[n]); Unspent(s, before, o) && !Young(rules.maturity, s, o.txid.tx)
  }

  lemma {:induction false} ThereExactly(rules: Rules, s: seq<Block>, before: seq<Transaction>, w: Coins,
                                        tx: Transaction)
    requires Reached(rules, s, before, w) && HoldsBehind(s, before, w)
    ensures InputsReady(rules, w, tx, |s|) <==> AllThere(rules, s, before, tx)
  {
    forall n: nat | n < |tx.inputs|
      ensures var o := OutpointOf(tx.inputs[n]);
              o in w.outs && Mature(rules, w, o, |s|) <==> Unspent(s, before, o) && !Young(rules.maturity, s, o.txid.tx)
    {
      var o := OutpointOf(tx.inputs[n]);
      if o in w.outs { OldEnough(rules, s, before, w, o); }
    }
  }

  lemma {:induction false} TripIsRaise(rules: Rules, w: Coins, tx: Transaction, n: nat)
    requires n < |tx.inputs| && OutpointOf(tx.inputs[n]) in w.outs && HoldsOutput(w, OutpointOf(tx.inputs[n]))
    ensures InputRaises(rules, w.outs, tx.inputs[n], SigningForm(tx)) <==> Trips(rules, tx, n)
  {
  }

  lemma {:induction false} RaisesHere(rules: Rules, s: seq<Block>, before: seq<Transaction>, w: Coins, tx: Transaction,
                                      k: nat)
    requires Reached(rules, s, before, w) && HoldsBehind(s, before, w) && AllThere(rules, s, before, tx)
    requires InputsReady(rules, w, tx, |s|)
    ensures RaisesAt(rules, w.outs, tx, k) <==> TripsFirst(rules, s, before, tx, k)
  {
    if k < |tx.inputs| {
      TripIsRaise(rules, w, tx, k);
      forall n: nat | n < k
        ensures InputOk(rules, w.outs, tx.inputs[n], SigningForm(tx)) <==> MayTake(rules, s, before, tx, n)
      {
        InputExactly(rules, s, before, w, tx, n);
      }
      DistinctTwice(tx.inputs, k);
    }
  }

  lemma DistinctTwice(inputs: seq<TxInput>, k: nat)
    requires k < |inputs|
    ensures DistinctInputs(inputs[..k]) && DistinctInputs(inputs[..k + 1])
            <==> forall m, n :: 0 <= m < n <= k ==> OutpointOf(inputs[m]) != OutpointOf(inputs[n])
  {
    if DistinctInputs(inputs[..k + 1]) {
      forall m, n | 0 <= m < n <= k ensures OutpointOf(inputs[m]) != OutpointOf(inputs[n]) {
        assert inputs[..k + 1][m] == inputs[m] && inputs[..k + 1][n] == inputs[n];
      }
    }
  }

  /** The index raises exactly where the shape is in order, every input is there and old enough, and one trips first. */
  lemma {:induction false} RaisesExactly(rules: Rules, s: seq<Block>, before: seq<Transaction>, w: Coins,
                                         tx: Transaction)
    requires Reached(rules, s, before, w)
    ensures AdmitRaises(rules, w, tx, |s|) <==>
            && |tx.outputs| > 0 && (forall k :: 0 <= k < |tx.outputs| ==> 0 < tx.outputs[k].amount)
            && SumOut(tx.outputs) <= MAX_SUPPLY && AllThere(rules, s, before, tx)
            && exists k: nat :: TripsFirst(rules, s, before, tx, k)
  {
    IndexHolds(rules, s, before, w);
    ThereExactly(rules, s, before, w, tx);
    AmountsExactly(tx.outputs);
    if AllThere(rules, s, before, tx) {
      forall k: nat ensures RaisesAt(rules, w.outs, tx, k) <==> TripsFirst(rules, s, before, tx, k) {
        RaisesHere(rules, s, before, w, tx, k);
      }
      if |tx.inputs| > 0 { NoCoinbase(rules, s, before, tx); }
    }
  }

  lemma NoCoinbase(rules: Rules, s: seq<Block>, before: seq<Transaction>, tx: Transaction)
    requires AllThere(rules, s, before, tx) && |tx.inputs| > 0
    ensures !IsCoinbase(tx)
  {
    var o := OutpointOf(tx.inputs[0]);
    assert Unspent(s, before, o);
  }

  // ----- what a block may be --------------------------------------------------------------------- //

  /** What the transactions of a block bring and do not pay, the coinbase left out. */
  function Fees(txs: seq<Transaction>): int {
    if |txs| <= 1 then 0 else Fees(Init(txs)) + Brought(Last(txs).inputs) - SumOut(Last(txs).outputs)
  }

  /** `c` is the number of lo .. hi nearest to `x`. */
  predicate Nearest(x: int, lo: int, hi: int, c: int) {
    lo <= c <= hi && (x < lo ==> c == lo) && (x > hi ==> c == hi) && (lo <= x <= hi ==> c == x)
  }

  /**
   * Inside an interval the bits stay; where the height is a multiple of 2016 they move by the rounded-down binary
   * logarithm of the time the last interval took, as a multiple of the time it should take.
   */
  ghost predicate BitsRule(s: seq<Block>, bits: int)
    requires |s| > 0
  {
    var prev := s[|s| - 1].header;
    if |s| % 2016 != 0 then bits == prev.bits
    else exists c: nat, k: int ::
      && Nearest(prev.timestamp - s[|s| - 2016].header.timestamp, 60_480, 967_680, c)
      && -2 <= k <= 2 && Pow.IsFloorLog2(c, 241_920, k) && Nearest(prev.bits - k, 1, 240, bits)
  }

  /** The places of the last eleven blocks with an earlier stamp. */
  function EarlierStamps(s: seq<Block>, span: nat, stamp: int): set<nat> {
    set i: nat | |s| - span <= i < |s| && s[i].header.timestamp < stamp
  }

  /** More than half of the last eleven stamps are earlier. */
  predicate TimeRule(s: seq<Block>, stamp: int) {
    2 * |EarlierStamps(s, 11, stamp)| > if |s| < 11 then |s| else 11
  }

  /** The one input of the first transaction names no output but the height; it pays out at most subsidy and fees. */
  predicate CoinbaseRule(txs: seq<Transaction>, height: nat) {
    && |txs| > 0 && |txs[0].inputs| == 1 && OutpointOf(txs[0].inputs[0]) == Outpoint(NULL_DIGEST, height)
    && |txs[0].outputs| > 0 && (forall k :: 0 <= k < |txs[0].outputs| ==> 0 < txs[0].outputs[k].amount)
    && SumOut(txs[0].outputs) <= MAX_SUPPLY && SumOut(txs[0].outputs) <= BlockSubsidy(height) + Fees(txs)
  }

  /** Everything but the clock that a block on top of `s` has to meet. */
  ghost predicate BlockRule(rules: Rules, s: seq<Block>, b: Block)
    requires |s| > 0
  {
    && rules.serializedSize(b) <= MAX_BLOCK_BYTES
    && 1 <= b.header.bits <= 240 && rules.digestValue(HashOf(b)) * Pow2(b.header.bits) < Pow2(256)
    && BitsRule(s, b.header.bits)
    && TimeRule(s, b.header.timestamp)
    && CoinbaseRule(b.transactions, |s|)
    && b.header.merkleRoot == Merkle.Root(TxIds(b.transactions))
    && forall l: nat :: 1 <= l < |b.transactions| ==> Allowed(rules, s, b.transactions[..l], b.transactions[l])
  }

  // ----- validation says the same ------------------------------------------------------------------ //

  ghost predicate AllAllowed(rules: Rules, s: seq<Block>, txs: seq<Transaction>) {
    forall l: nat :: 1 <= l < |txs| ==> Allowed(rules, s, txs[..l], txs[l])
  }

  lemma AllAllowedSplit(rules: Rules, s: seq<Block>, txs: seq<Transaction>)
    requires |txs| > 1
    ensures AllAllowed(rules, s, txs) <==> AllAllowed(rules, s, Init(txs)) && Allowed(rules, s, Init(txs), Last(txs))
  {
    assert forall l: nat :: l < |txs| ==> Init(txs)[..l] == txs[..l];
    if AllAllowed(rules, s, txs) {
      forall l: nat | 1 <= l < |Init(txs)| ensures Allowed(rules, s, Init(txs)[..l], Init(txs)[l]) {
        assert Allowed(rules, s, txs[..l], txs[l]);
      }
      assert Allowed(rules, s, txs[..|txs| - 1], txs[|txs| - 1]);
    }
    if AllAllowed(rules, s, Init(txs)) && Allowed(rules, s, Init(txs), Last(txs)) {
      forall l: nat | 1 <= l < |txs| ensures Allowed(rules, s, txs[..l], txs[l]) {
        if l < |txs| - 1 { assert Allowed(rules, s, Init(txs)[..l], Init(txs)[l]); }
      }
    }
  }

  ghost predicate LoopAgrees(rules: Rules, s: seq<Block>, txs: seq<Transaction>) {
    var checked := CheckTxs(rules, Replay(s), txs, |s|);
    && (checked.Some? <==> AllAllowed(rules, s, txs))
    && (checked.Some? ==> checked.value.fees == Fees(txs))
  }

  lemma OneRound(rules: Rules, before: Checked, tx: Transaction, height: nat)
    requires !IsCoinbase(tx)
    ensures var after := CheckOne(rules, before, tx, false, height);
            && (after.Some? <==> Admits(rules, before.coins, tx, height))
            && (after.Some? ==> after.value.fees == before.fees + Fee(before.coins.outs, tx))
  {
  }

  lemma {:induction false} LastRound(rules: Rules, c: Coins, txs: seq<Transaction>, height: nat)
    requires |txs| > 1 && CheckTxs(rules, c, Init(txs), height).Some?
    ensures CheckTxs(rules, c, txs, height)
         == CheckOne(rules, CheckTxs(rules, c, Init(txs), height).value, Last(txs), false, height)
  {
    InitLast([], txs);
    CheckSnoc(rules, c, Init(txs), Last(txs), height);
  }

  lemma {:induction false} LoopStep(rules: Rules, s: seq<Block>, txs: seq<Transaction>, w: Coins)
    requires |txs| > 1 && CoinbaseFirst(txs, |s|) && Reached(rules, s, Init(txs), w)
    requires CheckTxs(rules, Replay(s), Init(txs), |s|).value.fees == Fees(Init(txs))
    ensures CheckTxs(rules, Replay(s), txs, |s|).Some? <==> Allowed(rules, s, Init(txs), Last(txs))
    ensures CheckTxs(rules, Replay(s), txs, |s|).Some? ==> CheckTxs(rules, Replay(s), txs, |s|).value.fees == Fees(txs)
  {
    LastRound(rules, Replay(s), txs, |s|);
    OneRound(rules, CheckTxs(rules, Replay(s), Init(txs), |s|).value, Last(txs), |s|);
    AllowedExactly(rules, s, Init(txs), w, Last(txs));
  }

  /** The transaction loop gets through exactly what is allowed, and adds up the fees. */
  lemma {:induction false} LoopExactly(rules: Rules, s: seq<Block>, txs: seq<Transaction>)
    requires ValidBranch(rules, s) && CoinbaseFirst(txs, |s|)
    ensures LoopAgrees(rules, s, txs)
  {
    if |txs| == 1 {
      OnlyCoinbase(rules, Replay(s), txs, |s|);
    } else {
      LoopExactly(rules, s, Init(txs));
      AllAllowedSplit(rules, s, txs);
      var checked := CheckTxs(rules, Replay(s), Init(txs), |s|);
      if checked.Some? { LoopStep(rules, s, txs, checked.value.coins); }
    }
  }

  lemma {:induction false} TargetExactly(rules: Rules, h: Header)
    ensures MeetsTarget(rules, h) <==>
            1 <= h.bits <= 240 && rules.digestValue(HeaderHash(h)) * Pow2(h.bits) < Pow2(256)
  {
    if 1 <= h.bits <= 240 {
      Pow.Pow2Add(256 - h.bits, h.bits);
      Scaled(rules.digestValue(HeaderHash(h)), Pow2(256 - h.bits), Pow2(h.bits));
    }
  }

  lemma Scaled(x: int, y: int, m: int)
    requires m > 0
    ensures x * m < y * m <==> x < y
  {
    if x < y {
      Pow.Order'(m, x, y);
    } else {
      Pow.Order(m, y, x);
    }
  }

  lemma {:induction false} BitsExactly(s: seq<Block>, bits: int)
    requires |s| > 0 && Pow.BitsInRange(Last(s).header.bits)
    ensures bits == ExpectedBits(s) <==> BitsRule(s, bits)
  {
    var prev := Last(s).header;
    if |s| % 2016 == 0 {
      var span := prev.timestamp - s[|s| - 2016].header.timestamp;
      RetargetExactly(prev.bits, span, bits);
    }
  }

  lemma {:induction false} RetargetExactly(prev: int, span: int, bits: int)
    requires Pow.BitsInRange(prev)
    ensures bits == Pow.NextBits(prev, span) <==>
            exists c: nat, k: int ::
              && Nearest(span, 60_480, 967_680, c)
              && -2 <= k <= 2 && Pow.IsFloorLog2(c, 241_920, k) && Nearest(prev - k, 1, 240, bits)
  {
    var c := Pow.ClampTimespan(span);
    assert Nearest(span, 60_480, 967_680, c);
    var k := Pow.RatioLog(c);
    Pow.RatioLogIsLog(span);
    Pow.RetargetIsLogRule(prev, span, k);
    forall d: nat, j: int | Nearest(span, 60_480, 967_680, d) && -2 <= j <= 2 && Pow.IsFloorLog2(d, 241_920, j)
      ensures Pow.NextBits(prev, span) == Pow.ClampBits(prev - j)
    {
      assert d == c;
      Pow.RetargetIsLogRule(prev, span, j);
    }
    assert Nearest(prev - k, 1, 240, Pow.ClampBits(prev - k));
  }

  lemma {:induction false} EarlierIsBelow(s: seq<Block>, span: nat, stamp: int)
    ensures |EarlierStamps(s, span, stamp)| == MedianTime.Below(MedianTime.Window(s, span), stamp)
  {
    if |s| == 0 || span == 0 {
      assert EarlierStamps(s, span, stamp) == {};
    } else {
      var init, i := s[..|s| - 1], |s| - 1;
      EarlierIsBelow(init, span - 1, stamp);
      EarlierSplit(s, span, stamp);
      BelowSplit(s, span, stamp);
    }
  }

  lemma {:induction false} BelowSplit(s: seq<Block>, span: nat, stamp: int)
    requires |s| > 0 && span > 0
    ensures MedianTime.Below(MedianTime.Window(s, span), stamp)
         == MedianTime.Below(MedianTime.Window(s[..|s| - 1], span - 1), stamp)
            + if s[|s| - 1].header.timestamp < stamp then 1 else 0
  {
    assert MedianTime.Window(s, span)[1..] == MedianTime.Window(s[..|s| - 1], span - 1);
  }

  lemma EarlierSplit(s: seq<Block>, span: nat, stamp: int)
    requires |s| > 0 && span > 0
    ensures var i: nat, before := |s| - 1, EarlierStamps(s[..|s| - 1], span - 1, stamp);
            && i !in before
            && EarlierStamps(s, span, stamp) == before + if s[i].header.timestamp < stamp then {i} else {}
  {
  }

  lemma {:induction false} TimeExactly(s: seq<Block>, stamp: int)
    requires |s| > 0
    ensures stamp > MedianTime.MedianTimePast(s) <==> TimeRule(s, stamp)
  {
    EarlierIsBelow(s, 11, stamp);
    MedianTime.MedianAtLeast(MedianTime.Window(s, 11), stamp);
  }

  lemma {:induction false} CoinbaseExactly(rules: Rules, s: seq<Block>, txs: seq<Transaction>)
    requires ValidBranch(rules, s)
    ensures TransactionsOk(rules, s, txs) <==> CoinbaseRule(txs, |s|) && AllAllowed(rules, s, txs)
  {
    if |txs| > 0 { AmountsExactly(txs[0].outputs); }
    if AllAllowed(rules, s, txs) { OthersAreNot(rules, s, txs); }
    if CoinbaseFirst(txs, |s|) { LoopExactly(rules, s, txs); }
  }

  /** What names an output of a transaction is no coinbase. */
  lemma OthersAreNot(rules: Rules, s: seq<Block>, txs: seq<Transaction>)
    requires AllAllowed(rules, s, txs)
    ensures forall l :: 1 <= l < |txs| ==> !IsCoinbase(txs[l])
  {
    forall l: nat | 1 <= l < |txs| ensures !IsCoinbase(txs[l]) {
      assert Allowed(rules, s, txs[..l], txs[l]);
      assert MayTake(rules, s, txs[..l], txs[l], 0);
    }
  }

  /** A block passes validation on a branch exactly when it meets the rules. */
  lemma {:induction false} BlockExactly(rules: Rules, s: seq<Block>, b: Block)
    requires ValidBranch(rules, s)
    ensures FitsBranch(rules, s, b) <==> BlockRule(rules, s, b)
  {
    TargetExactly(rules, b.header);
    BitsExactly(s, b.header.bits);
    TimeExactly(s, b.header.timestamp);
    CoinbaseExactly(rules, s, b.transactions);
  }

  // ----- the theorems ------------------------------------------------------------------------------- //

  /** A branch by the rules: genesis, then blocks that each name the one before and keep the rules on top of it. */
  ghost predicate ByTheRules(rules: Rules, s: seq<Block>) {
    && |s| > 0 && s[0] == GENESIS
    && forall j: nat :: 1 <= j < |s| ==>
         s[j].header.prevHash == HashOf(s[j - 1]) && BlockRule(rules, s[..j], s[j])
  }

  /** The branches that validation with the index lets through are exactly those that keep the rules. */
  lemma {:induction false} ValidExactly(rules: Rules, s: seq<Block>)
    ensures ValidBranch(rules, s) <==> ByTheRules(rules, s)
  {
    if |s| > 1 {
      ValidExactly(rules, Init(s));
      ByTheRulesSplit(rules, s);
      if ValidBranch(rules, Init(s)) { BlockExactly(rules, Init(s), Last(s)); }
    }
  }

  /** Every element of a list keeps the rule `keeps` behind the elements before it. */
  ghost predicate AllKeep<T>(keeps: (seq<T>, T) -> bool, s: seq<T>) {
    forall j: nat :: 1 <= j < |s| ==> keeps(s[..j], s[j])
  }

  lemma AllKeepSplit<T>(keeps: (seq<T>, T) -> bool, s: seq<T>)
    requires |s| > 1
    ensures AllKeep(keeps, s) <==> AllKeep(keeps, s[..|s| - 1]) && keeps(s[..|s| - 1], s[|s| - 1])
  {
    var init := s[..|s| - 1];
    assert forall j: nat :: j < |s| ==> init[..j] == s[..j];
    if AllKeep(keeps, s) {
      forall j: nat | 1 <= j < |init| ensures keeps(init[..j], init[j]) {
        assert keeps(s[..j], s[j]);
      }
    }
    if AllKeep(keeps, init) && keeps(init, s[|s| - 1]) {
      forall j: nat | 1 <= j < |s| ensures keeps(s[..j], s[j]) {
        if j < |s| - 1 { assert keeps(init[..j], init[j]); }
      }
    }
  }

  lemma {:induction false} ByTheRulesSplit(rules: Rules, s: seq<Block>)
    requires |s| > 1
    ensures ByTheRules(rules, s) <==>
            && ByTheRules(rules, Init(s)) && Last(s).header.prevHash == HashOf(Last(Init(s)))
            && BlockRule(rules, Init(s), Last(s))
  {
    var keeps := (before: seq<Block>, b: Block) => OnTop(rules, before, b);
    KeepsIs(rules, s, keeps);
    KeepsIs(rules, Init(s), keeps);
    AllKeepSplit(keeps, s);
  }

  ghost predicate OnTop(rules: Rules, before: seq<Block>, b: Block) {
    |before| > 0 && b.header.prevHash == HashOf(before[|before| - 1]) && BlockRule(rules, before, b)
  }

  lemma {:induction false} KeepsIs(rules: Rules, s: seq<Block>, keeps: (seq<Block>, Block) -> bool)
    requires |s| > 0 && forall u, b :: keeps(u, b) <==> OnTop(rules, u, b)
    ensures ByTheRules(rules, s) <==> s[0] == GENESIS && AllKeep(keeps, s)
  {
    forall j: nat | 1 <= j < |s|
      ensures keeps(s[..j], s[j])
              <==> s[j].header.prevHash == HashOf(s[j - 1]) && BlockRule(rules, s[..j], s[j])
    {
      assert s[..j][j - 1] == s[j - 1];
    }
  }

  /** What the index of a valid branch holds: what its transactions have made and none has taken, as it was made. */
  lemma {:induction false} IndexIsUnspent(rules: Rules, s: seq<Block>, o: Outpoint)
    requires ValidBranch(rules, s)
    ensures o in Replay(s).outs <==> Unspent(s, [], o)
    ensures o in Replay(s).outs ==> Some(Replay(s).outs[o]) == Named(o)
  {
    HoldsWithoutBlock(rules, s);
    if o in Replay(s).outs { assert HoldsOutput(Replay(s), o); }
  }

  /** Every transaction behind the coinbase of a block of a valid branch was allowed where it stands. */
  lemma {:induction false} StandsAllowed(rules: Rules, s: seq<Block>, j: nat, l: nat)
    requires ValidBranch(rules, s) && 1 <= j < |s| && 1 <= l < |s[j].transactions|
    ensures Allowed(rules, s[..j], s[j].transactions[..l], s[j].transactions[l])
  {
    ValidExactly(rules, s);
    assert BlockRule(rules, s[..j], s[j]);
  }

  /** Place (i, k) comes before place (j, l). */
  predicate Before(i: nat, k: nat, j: nat, l: nat) {
    i < j || (i == j && k < l)
  }

  /**
   * Whoever takes an output owns it: the output was made by an earlier transaction for the hash of the key that takes
   * it, and the signature under this key is valid for a message that is the message of a transaction exactly when that
   * one takes the same outpoints and pays the same outputs.
   */
  lemma {:induction false} SpendsAreAuthorised(rules: Rules, s: seq<Block>, j: nat, l: nat, n: nat)
    returns (i: nat, k: nat, message: Transaction)
    requires ValidBranch(rules, s) && j < |s| && 1 <= l < |s[j].transactions| && n < |s[j].transactions[l].inputs|
    ensures Before(i, k, j, l) && k < |s[i].transactions|
    ensures var tx, maker, input := s[j].transactions[l], s[i].transactions[k], s[j].transactions[l].inputs[n];
            && input.prevTxid == TxId(maker) && 0 <= input.outputIndex < |maker.outputs|
            && rules.keyHash(input.pubkey) == Some(maker.outputs[input.outputIndex].pubkeyHash)
            && rules.sigVerifies(input.pubkey, message, input.signature) == Some(true)
            && forall other :: SigningForm(other) == message <==>
                 && other.outputs == tx.outputs && |other.inputs| == |tx.inputs|
                 && forall m :: 0 <= m < |tx.inputs| ==> OutpointOf(other.inputs[m]) == OutpointOf(tx.inputs[m])
  {
    var tx := s[j].transactions[l];
    GenesisIsAlone(rules, s, j, l);
    StandsAllowed(rules, s, j, l);
    assert MayTake(rules, s[..j], s[j].transactions[..l], tx, n);
    i, k := Place(s, j, l, tx.inputs[n].prevTxid.tx);
    message := SigningForm(tx);
    forall other
      ensures SigningForm(other) == message <==>
              && other.outputs == tx.outputs && |other.inputs| == |tx.inputs|
              && forall m :: 0 <= m < |tx.inputs| ==> OutpointOf(other.inputs[m]) == OutpointOf(tx.inputs[m])
    {
      MessageBinds(other, tx);
    }
  }

  lemma {:induction false} GenesisIsAlone(rules: Rules, s: seq<Block>, j: nat, l: nat)
    requires ValidBranch(rules, s) && j < |s| && 1 <= l < |s[j].transactions|
    ensures j > 0
  {
    Linked(rules, s, 0);
  }

  lemma Place(s: seq<Block>, j: nat, l: nat, t: Transaction) returns (i: nat, k: nat)
    requires j < |s| && l <= |s[j].transactions| && Known(s[..j], s[j].transactions[..l], t)
    ensures Before(i, k, j, l) && StandsAt(s, i, k, t)
  {
    if OnBranch(s[..j], t) {
      i, k :| StandsAt(s[..j], i, k, t);
    } else {
      var m :| 1 <= m < l && s[j].transactions[..l][m] == t;
      i, k := j, m;
    }
  }

  /** The output of a coinbase is taken only `maturity` blocks above it. */
  lemma {:induction false} CoinbaseSpendsAreOld(rules: Rules, s: seq<Block>, i: nat, j: nat, l: nat, n: nat)
    requires ValidBranch(rules, s) && i < |s| && j < |s| && |s[i].transactions| > 0
    requires 1 <= l < |s[j].transactions| && n < |s[j].transactions[l].inputs|
    requires s[j].transactions[l].inputs[n].prevTxid == TxId(s[i].transactions[0])
    ensures i < j && j - i >= rules.maturity
  {
    var tx, t := s[j].transactions[l], s[i].transactions[0];
    GenesisIsAlone(rules, s, j, l);
    StandsAllowed(rules, s, j, l);
    assert MayTake(rules, s[..j], s[j].transactions[..l], tx, n);
    var i', k := Place(s, j, l, t);
    assert StandsAt(s, i, 0, t);
    OnePlace(rules, s, t, i, 0, i', k);
    OlderThanTaker(rules, s, i, j, l, t);
    assert StandsAt(s[..j], i, 0, t);
  }

  lemma {:induction false} OlderThanTaker(rules: Rules, s: seq<Block>, i: nat, j: nat, l: nat, t: Transaction)
    requires ValidBranch(rules, s) && j < |s| && l <= |s[j].transactions| && StandsAt(s, i, 0, t)
    requires Known(s[..j], s[j].transactions[..l], t)
    ensures i < j
  {
    if OnBranch(s[..j], t) {
      var i': nat, k: nat :| StandsAt(s[..j], i', k, t);
      assert StandsAt(s, i', k, t);
      OnePlace(rules, s, t, i, 0, i', k);
    } else {
      var m: nat :| 1 <= m < l && s[j].transactions[..l][m] == t;
      assert StandsAt(s, j, m, t);
      OnePlace(rules, s, t, i, 0, j, m);
    }
  }

  /**
   * A transaction is pooled exactly when it is new, there is room, the rules allow it in the next block, and it leaves
   * the relay fee.
   */
  lemma {:induction false} PoolExactly(rules: Rules, s: seq<Block>, pool: map<Digest, Transaction>, tx: Transaction)
    requires ValidBranch(rules, s)
    ensures PoolAccepts(rules, pool, Replay(s), tx, |s|) <==>
            && TxId(tx) !in pool && |pool| < 5_000 && Allowed(rules, s, [], tx)
            && Brought(tx.inputs) - SumOut(tx.outputs) >= 10
  {
    assert Reached(rules, s, [], Replay(s));
    AllowedExactly(rules, s, [], Replay(s), tx);
  }

  /** With the clock: a block is accepted exactly when it keeps the rules and is stamped at most two hours ahead. */
  lemma {:induction false} AcceptedExactly(rules: Rules, s: seq<Block>, b: Block, now: int)
    requires ValidBranch(rules, s)
    ensures Judge(rules, s, b, now) == Accept <==> BlockRule(rules, s, b) && b.header.timestamp <= now + 7_200
  {
    AcceptedFits(rules, s, b, now);
    BlockExactly(rules, s, b);
  }

  lemma {:induction false} BehindCoinbase(rules: Rules, s: seq<Block>, t: Transaction)
    requires ValidBranch(rules, s)
    ensures OnBranch(s, t) && !IsCoinbase(t) <==> exists i: nat, k: nat :: k > 0 && StandsAt(s, i, k, t)
  {
    forall i: nat, k: nat | StandsAt(s, i, k, t) ensures IsCoinbase(t) <==> k == 0 {
      CoinbaseIsFirst(rules, s, i);
    }
    if OnBranch(s, t) && !IsCoinbase(t) {
      var i: nat, k: nat :| StandsAt(s, i, k, t);
      assert k > 0;
    }
    if i: nat, k: nat :| k > 0 && StandsAt(s, i, k, t) { assert OnBranch(s, t); }
  }

  lemma {:induction false} CoinbaseIsFirst(rules: Rules, s: seq<Block>, i: nat)
    requires ValidBranch(rules, s) && i < |s|
    ensures forall k :: 0 <= k < |s[i].transactions| ==> (IsCoinbase(s[i].transactions[k]) <==> k == 0)
  {
    Linked(rules, s, 0);
    if i > 0 {
      ValidPrefix(rules, s, i + 1);
      EndOfBranch(rules, s[..i + 1]);
    }
  }

  lemma {:induction false} EndOfBranch(rules: Rules, s: seq<Block>)
    requires ValidBranch(rules, s) && |s| > 1
    ensures var txs := s[|s| - 1].transactions; forall k :: 0 <= k < |txs| ==> (IsCoinbase(txs[k]) <==> k == 0)
  {
    ValidTail(rules, s);
  }

  /**
   * After a reorganisation the pool holds exactly what was pooled, or stood behind a coinbase of the old branch, is not
   * on the new branch, and may be in its next block.
   */
  lemma {:induction false} ReorgPoolExactly(rules: Rules, before: map<Digest, Transaction>,
                                            after: map<Digest, Transaction>, s: seq<Block>, s': seq<Block>,
                                            tx: Transaction)
    requires ValidBranch(rules, s) && ValidBranch(rules, s') && PoolAfterReorg(rules, before, after, s, s')
    ensures TxId(tx) in after <==>
            && (TxId(tx) in before || exists i: nat, k: nat :: k > 0 && StandsAt(s, i, k, tx))
            && !OnBranch(s', tx) && Allowed(rules, s', [], tx)
  {
    OnBranchInAll(s, tx);
    OnBranchInAll(s', tx);
    BehindCoinbase(rules, s, tx);
    assert Reached(rules, s', [], Replay(s'));
    AllowedExactly(rules, s', [], Replay(s'), tx);
  }

  // ----- block assembly ----------------------------------------------------------------------------- //

  /**
   * Going through `candidates`, a block with `coinbase` takes each one that the rules allow behind those taken
   * before it: `at[i]` is how many of `chosen` are taken before candidate `i`.
   */
  ghost predicate TakesInTurn(rules: Rules, s: seq<Block>, coinbase: Transaction, candidates: seq<Transaction>,
                              chosen: seq<Transaction>, at: seq<nat>)
  {
    && |at| == |candidates| + 1 && at[0] == 0 && at[|candidates|] == |chosen|
    && (forall i :: 0 <= i < |at| ==> at[i] <= |chosen|)
    && forall i :: 0 <= i < |candidates| ==>
         if Allowed(rules, s, [coinbase] + chosen[..at[i]], candidates[i])
         then at[i + 1] == at[i] + 1 && chosen[at[i]] == candidates[i]
         else at[i + 1] == at[i]
  }

  lemma {:induction false} TakesOneMore(rules: Rules, s: seq<Block>, coinbase: Transaction, init: seq<Transaction>,
                                        last: Transaction, chosen: seq<Transaction>, at: seq<nat>,
                                        chosen': seq<Transaction>)
    returns (at': seq<nat>)
    requires TakesInTurn(rules, s, coinbase, init, chosen, at)
    requires chosen' == if Allowed(rules, s, [coinbase] + chosen, last) then chosen + [last] else chosen
    ensures TakesInTurn(rules, s, coinbase, init + [last], chosen', at')
  {
    at' := at + [|chosen'|];
    assert chosen'[..|chosen|] == chosen;
    forall i | 0 <= i < |init|
      ensures chosen'[..at[i]] == chosen[..at[i]] && (init + [last])[i] == init[i]
    {
    }
  }
}
