/** What makes a block acceptable on a branch, and what every acceptable branch guarantees. */
module Chain {
  import opened Params
  import opened Ledger
  import opened Results
  import opened CoinSet
  import Merkle
  import Padding
  import Pow
  import MedianTime

  const GENESIS_MINER: string := NULL_DIGEST.text

  /** The first block, shared by every node and accepted by rule. */
  const GENESIS: Block :=
    var coinbase := CreateCoinbase(0, GENESIS_MINER, 0, "");
    Block(Header(NULL_DIGEST, TxId(coinbase), GENESIS_TIMESTAMP, GENESIS_BITS, 0), [coinbase])

  const GENESIS_HASH: Digest := HashOf(GENESIS)

  function TxIds(txs: seq<Transaction>): seq<Digest> {
    seq(|txs|, i requires 0 <= i < |txs| => TxId(txs[i]))
  }

  function Last<T>(s: seq<T>): T
    requires |s| > 0
  {
    s[|s| - 1]
  }

  function Init<T>(s: seq<T>): seq<T>
    requires |s| > 0
  {
    s[..|s| - 1]
  }

  lemma InitLast<T>(past: seq<T>, s: seq<T>)
    requires |s| > 0
    ensures past + Init(s) + [Last(s)] == past + s
    ensures Init(s) + [Last(s)] == s
  {
  }

  lemma TxIdsOfConcat(txs: seq<Transaction>, more: seq<Transaction>)
    ensures TxIds(txs + more) == TxIds(txs) + TxIds(more)
  {
  }

  // ----- one block ---------------------------------------------------------- //

  datatype Verdict = Accept | Reject | Raise

  /** How far the transaction loop of a block has come: the index without the coinbase, and the fees. */
  datatype Checked = Checked(coins: Coins, fees: int)

  /** One round of that loop; a coinbase is skipped in first place and refused elsewhere. */
  function CheckOne(rules: Rules, before: Checked, tx: Transaction, first: bool, height: nat): Option<Checked> {
    if IsCoinbase(tx) then if first then Some(before) else None
    else if !Admits(rules, before.coins, tx, height) then None
    else Some(Checked(ApplyTx(before.coins, tx, height), before.fees + Fee(before.coins.outs, tx)))
  }

  function CheckTxs(rules: Rules, c: Coins, txs: seq<Transaction>, height: nat): Option<Checked> {
    if |txs| == 0 then Some(Checked(c, 0))
    else
      var before := CheckTxs(rules, c, Init(txs), height);
      if before.None? then None else CheckOne(rules, before.value, Last(txs), |txs| == 1, height)
  }

  lemma {:induction false} CheckSnoc(rules: Rules, c: Coins, txs: seq<Transaction>, tx: Transaction, height: nat)
    requires CheckTxs(rules, c, txs, height).Some?
    ensures CheckTxs(rules, c, txs + [tx], height)
         == CheckOne(rules, CheckTxs(rules, c, txs, height).value, tx, |txs| == 0, height)
  {
    assert Init(txs + [tx]) == txs;
  }

  function ExpectedBits(branch: seq<Block>): int
    requires |branch| > 0 && Pow.BitsInRange(Last(branch).header.bits)
  {
    var prev := Last(branch).header;
    if |branch| % RETARGET_INTERVAL != 0 then prev.bits
    else Pow.NextBits(prev.bits, prev.timestamp - branch[|branch| - RETARGET_INTERVAL].header.timestamp)
  }

  /** Transaction `n` is the first the loop does not get past, and checking it raises. */
  ghost predicate TxRaisesAt(rules: Rules, c: Coins, txs: seq<Transaction>, n: nat, height: nat) {
    && n < |txs|
    && var checked := CheckTxs(rules, c, txs[..n], height);
       checked.Some? && AdmitRaises(rules, checked.value.coins, txs[n], height)
  }

  /** The transaction loop of a block raises instead of answering. */
  ghost predicate TxsRaise(rules: Rules, c: Coins, txs: seq<Transaction>, height: nat) {
    exists n: nat :: TxRaisesAt(rules, c, txs, n, height)
  }

  /** Once a transaction is refused, so is the block. */
  lemma {:induction false} RefusedForGood(rules: Rules, c: Coins, txs: seq<Transaction>, n: nat, height: nat)
    requires 0 < n <= |txs| && CheckTxs(rules, c, txs[..n], height).None?
    ensures CheckTxs(rules, c, txs, height).None?
    decreases |txs|
  {
    if n < |txs| {
      assert Init(txs)[..n] == txs[..n];
      RefusedForGood(rules, c, Init(txs), n, height);
    } else {
      assert txs[..n] == txs;
    }
  }

  lemma {:induction false} CheckStep(rules: Rules, c: Coins, txs: seq<Transaction>, i: nat, height: nat)
    requires i < |txs| && CheckTxs(rules, c, txs[..i], height).Some?
    ensures CheckTxs(rules, c, txs[..i + 1], height)
         == CheckOne(rules, CheckTxs(rules, c, txs[..i], height).value, txs[i], i == 0, height)
  {
    assert Init(txs[..i + 1]) == txs[..i] && Last(txs[..i + 1]) == txs[i];
  }

  /** A transaction that raises is not admitted, so nothing after it is looked at. */
  lemma {:induction false} RaiseRefuses(rules: Rules, c: Coins, txs: seq<Transaction>, n: nat, height: nat)
    requires TxRaisesAt(rules, c, txs, n, height)
    ensures CheckTxs(rules, c, txs[..n + 1], height).None? && CheckTxs(rules, c, txs, height).None?
  {
    CheckStep(rules, c, txs, n, height);
    RefusedForGood(rules, c, txs, n + 1, height);
  }

  /** What stops the loop without raising stops it for good. */
  lemma {:induction false} RefusalSettles(rules: Rules, c: Coins, txs: seq<Transaction>, n: nat, height: nat)
    requires n < |txs| && CheckTxs(rules, c, txs[..n], height).Some? && CheckTxs(rules, c, txs[..n + 1], height).None?
    requires !TxRaisesAt(rules, c, txs, n, height)
    ensures CheckTxs(rules, c, txs, height).None? && !TxsRaise(rules, c, txs, height)
  {
    RefusedForGood(rules, c, txs, n + 1, height);
    forall m: nat ensures !TxRaisesAt(rules, c, txs, m, height) {
      if m < n && TxRaisesAt(rules, c, txs, m, height) {
        assert txs[..n][..m + 1] == txs[..m + 1] && txs[..n][..m] == txs[..m];
        RaiseRefuses(rules, c, txs[..n], m, height);
      }
      if n < m <= |txs| {
        assert txs[..m][..n + 1] == txs[..n + 1];
        RefusedForGood(rules, c, txs[..m], n + 1, height);
      }
    }
  }

  /** A block whose transactions pass does not raise. */
  lemma {:induction false} PassedNeverRaises(rules: Rules, c: Coins, txs: seq<Transaction>, height: nat)
    requires CheckTxs(rules, c, txs, height).Some?
    ensures !TxsRaise(rules, c, txs, height)
  {
    forall n: nat ensures !TxRaisesAt(rules, c, txs, n, height) {
      if TxRaisesAt(rules, c, txs, n, height) { RaiseRefuses(rules, c, txs, n, height); }
    }
  }

  predicate MeetsTarget(rules: Rules, h: Header) {
    Pow.BitsInRange(h.bits) && rules.digestValue(HeaderHash(h)) < Pow2(256 - h.bits)
  }

  predicate TransactionsOk(rules: Rules, branch: seq<Block>, txs: seq<Transaction>) {
    var checked := CheckTxs(rules, Replay(branch), txs, |branch|);
    checked.Some? && CoinbaseOk(txs, |branch|, BlockSubsidy(|branch|), checked.value.fees)
  }

  predicate SizeOk(rules: Rules, b: Block) {
    |b.transactions| > 0 && rules.serializedSize(b) <= MAX_BLOCK_BYTES
  }

  /** What `_validate_block` asks of the header on top of `branch`, except the clock. */
  predicate HeaderFits(rules: Rules, branch: seq<Block>, b: Block)
    requires |branch| > 0 && Pow.BitsInRange(Last(branch).header.bits) && |b.transactions| > 0
  {
    && MeetsTarget(rules, b.header)
    && b.header.merkleRoot == Merkle.Root(TxIds(b.transactions))
    && b.header.bits == ExpectedBits(branch)
    && b.header.timestamp > MedianTime.MedianTimePast(branch)
  }

  /** Everything `_validate_block` asks of a block on top of `branch`, except the clock. */
  predicate FitsBranch(rules: Rules, branch: seq<Block>, b: Block)
    requires |branch| > 0 && Pow.BitsInRange(Last(branch).header.bits)
  {
    SizeOk(rules, b) && HeaderFits(rules, branch, b) && TransactionsOk(rules, branch, b.transactions)
  }

  predicate NotTooEarly(b: Block, now: int) {
    b.header.timestamp <= now + MAX_FUTURE_TIME
  }

  /**
   * Validation raises instead of answering: the bits have no target, or everything up to the transactions is in
   * order and checking a transaction raises.
   */
  ghost predicate Raises(rules: Rules, branch: seq<Block>, b: Block, now: int)
    requires |branch| > 0 && Pow.BitsInRange(Last(branch).header.bits)
  {
    && SizeOk(rules, b)
    && (|| !Pow.BitsInRange(b.header.bits)
        || (HeaderFits(rules, branch, b) && NotTooEarly(b, now)
            && TxsRaise(rules, Replay(branch), b.transactions, |branch|)))
  }

  ghost function Judge(rules: Rules, branch: seq<Block>, b: Block, now: int): Verdict
    requires |branch| > 0 && Pow.BitsInRange(Last(branch).header.bits)
  {
    if Raises(rules, branch, b, now) then Raise
    else if FitsBranch(rules, branch, b) && NotTooEarly(b, now) then Accept
    else Reject
  }

  /** A block is accepted exactly when it fits and the clock allows it: what fits never raises. */
  lemma {:induction false} AcceptedFits(rules: Rules, branch: seq<Block>, b: Block, now: int)
    requires |branch| > 0 && Pow.BitsInRange(Last(branch).header.bits)
    ensures Judge(rules, branch, b, now) == Accept <==> FitsBranch(rules, branch, b) && NotTooEarly(b, now)
  {
    if FitsBranch(rules, branch, b) {
      PassedNeverRaises(rules, Replay(branch), b.transactions, |branch|);
    }
  }

  // ----- a branch ------------------------------------------------------------ //

  /** A chain of blocks from genesis in which each fits the ones before it. */
  ghost predicate ValidBranch(rules: Rules, s: seq<Block>)
    ensures ValidBranch(rules, s) ==> |s| > 0 && Pow.BitsInRange(Last(s).header.bits)
  {
    && |s| > 0
    && if |s| == 1 then s[0] == GENESIS
       else
         && ValidBranch(rules, Init(s))
         && Last(s).header.prevHash == HashOf(Last(Init(s)))
         && FitsBranch(rules, Init(s), Last(s))
  }

  lemma {:induction false} ExtendBranch(rules: Rules, s: seq<Block>, b: Block)
    requires ValidBranch(rules, s) && b.header.prevHash == HashOf(Last(s)) && FitsBranch(rules, s, b)
    ensures ValidBranch(rules, s + [b])
    ensures Last(s + [b]) == b && Work(s + [b]) == Work(s) + BlockWork(b)
  {
    assert Init(s + [b]) == s;
  }

  /** `_work`: only blocks with bits in range are ever weighed. */
  function BlockWork(b: Block): nat {
    if Pow.BitsInRange(b.header.bits) then Pow2(b.header.bits) else 0
  }

  /** The last block of a valid branch is worth some work. */
  lemma {:induction false} WorkCounts(rules: Rules, s: seq<Block>)
    requires ValidBranch(rules, s)
    ensures BlockWork(Last(s)) > 0
  {
  }

  function Work(s: seq<Block>): nat {
    if |s| == 0 then 0 else Work(Init(s)) + BlockWork(Last(s))
  }

  /** The hashes it takes, on average, to meet the targets of a branch: every target is met by its share of 2^256. */
  function Hashes(s: seq<Block>): nat {
    if |s| == 0 then 0
    else
      var target := Pow.BitsToTarget(s[|s| - 1].header.bits);
      Hashes(s[..|s| - 1]) + if target.Some? then Pow2(256) / target.value else 0
  }

  /** The work of a block is 2^256 over its target, without remainder. */
  lemma {:induction false} WorkTimesTarget(b: Block)
    requires Pow.BitsInRange(b.header.bits)
    ensures BlockWork(b) * Pow.BitsToTarget(b.header.bits).value == Pow2(256)
  {
    Pow.Pow2Add(b.header.bits, 256 - b.header.bits);
  }

  lemma DivideBack(w: nat, target: nat, all: nat)
    requires target > 0 && w * target == all
    ensures all / target == w
  {
    var q := all / target;
    assert all == q * target + all % target;
    if q < w { Pow.Order(target, q + 1, w); }
    if q > w { Pow.Order(target, w + 1, q); }
  }

  /** Work counts hashes. */
  lemma {:induction false} WorkIsHashes(s: seq<Block>)
    ensures Work(s) == Hashes(s)
  {
    if |s| > 0 {
      WorkIsHashes(Init(s));
      if Pow.BitsInRange(Last(s).header.bits) {
        WorkTimesTarget(Last(s));
        DivideBack(BlockWork(Last(s)), Pow.BitsToTarget(Last(s).header.bits).value, Pow2(256));
      }
    }
  }

  lemma WholePrefix(s: seq<Block>)
    ensures s[..|s|] == s
  {
  }

  lemma PrefixOfInit(s: seq<Block>, n: nat)
    requires n < |s|
    ensures Init(s)[..n] == s[..n]
  {
  }

  lemma {:induction false} ValidPrefix(rules: Rules, s: seq<Block>, n: nat)
    requires ValidBranch(rules, s) && 0 < n <= |s|
    ensures ValidBranch(rules, s[..n])
  {
    if n < |s| {
      LastLink(rules, s);
      ValidPrefix(rules, Init(s), n);
      PrefixOfInit(s, n);
    } else {
      WholePrefix(s);
    }
  }

  lemma {:induction false} ValidBits(rules: Rules, s: seq<Block>)
    requires ValidBranch(rules, s)
    ensures forall i :: 0 <= i < |s| ==> Pow.BitsInRange(s[i].header.bits)
  {
    forall i | 0 <= i < |s| ensures Pow.BitsInRange(s[i].header.bits) {
      ValidPrefix(rules, s, i + 1);
      assert Last(s[..i + 1]) == s[i];
    }
  }

  lemma {:induction false} Linked(rules: Rules, s: seq<Block>, i: nat)
    requires ValidBranch(rules, s) && i < |s|
    ensures i > 0 ==> s[i].header.prevHash == HashOf(s[i - 1])
    ensures i == 0 ==> s[0] == GENESIS
  {
    if |s| > 1 { LastLink(rules, s); }
    if i < |s| - 1 {
      Linked(rules, Init(s), i);
      InInit(s, i);
    }
  }

  lemma InInit(s: seq<Block>, i: nat)
    requires i < |s| - 1
    ensures i < |Init(s)| && Init(s)[i] == s[i] && (i > 0 ==> Init(s)[i - 1] == s[i - 1])
  {
  }

  lemma {:induction false} LastLink(rules: Rules, s: seq<Block>)
    requires ValidBranch(rules, s) && |s| > 1
    ensures ValidBranch(rules, Init(s)) && s[|s| - 1].header.prevHash == HashOf(s[|s| - 2])
  {
  }

  lemma {:induction false} LinkedHashesDistinct(s: seq<Block>, i: nat, j: nat)
    requires i < j < |s| && s[0].header.prevHash == NULL_DIGEST
    requires forall k :: 0 < k < |s| ==> s[k].header.prevHash == HashOf(s[k - 1])
    ensures HashOf(s[i]) != HashOf(s[j])
    decreases i
  {
    assert s[j].header.prevHash == HashOf(s[j - 1]);
    if i > 0 {
      LinkedHashesDistinct(s, i - 1, j - 1);
      assert s[i].header.prevHash == HashOf(s[i - 1]);
    }
  }

  /** No hash occurs twice on a branch. */
  lemma {:induction false} HashesDistinct(rules: Rules, s: seq<Block>)
    requires ValidBranch(rules, s)
    ensures forall i, j :: 0 <= i < j < |s| ==> HashOf(s[i]) != HashOf(s[j])
  {
    Linked(rules, s, 0);
    forall k | 0 < k < |s| ensures s[k].header.prevHash == HashOf(s[k - 1]) {
      Linked(rules, s, k);
    }
    forall i, j | 0 <= i < j < |s| ensures HashOf(s[i]) != HashOf(s[j]) {
      LinkedHashesDistinct(s, i, j);
    }
  }

  // ----- no transaction twice, no outpoint spent twice ------------------------ //

  function AllTxs(s: seq<Block>): seq<Transaction> {
    if |s| == 0 then [] else AllTxs(Init(s)) + Last(s).transactions
  }

  ghost predicate NoDoubleSpend(txs: seq<Transaction>) {
    forall i, j :: 0 <= i < j < |txs| ==> Consumed(txs[i]) !! Consumed(txs[j])
  }

  /** The index holds only outputs of `txs`, all of positive value. */
  ghost predicate Indexed(c: Coins, txs: seq<Transaction>) {
    && c.outs.Keys == c.meta.Keys
    && (forall o :: o in c.outs ==> o.txid.TxId? && o.txid.tx in txs && c.outs[o].amount > 0)
  }

  /** What `txs` have spent was made by `txs` and is no longer in the index. */
  ghost predicate Gone(c: Coins, txs: seq<Transaction>) {
    forall t, o :: t in txs && o in Consumed(t) ==> o.txid.TxId? && o.txid.tx in txs && o !in c.outs
  }

  /** The index `c` remembers exactly enough of the transactions `txs` that led to it. */
  ghost predicate History(c: Coins, txs: seq<Transaction>) {
    && Padding.NoRepeats(txs)
    && NoDoubleSpend(txs)
    && (forall t :: t in txs && !IsCoinbase(t) ==> Consumed(t) != {})
    && Indexed(c, txs)
    && Gone(c, txs)
  }

  /** Every coinbase in `txs` commits to a height below `height`. */
  ghost predicate OlderCoinbases(txs: seq<Transaction>, height: nat) {
    forall t :: t in txs && IsCoinbase(t) ==> t.inputs[0].outputIndex < height
  }

  lemma ConsumedNonEmpty(tx: Transaction)
    requires !IsCoinbase(tx) && |tx.inputs| > 0
    ensures Consumed(tx) != {}
  {
    assert OutpointOf(tx.inputs[0]) in Consumed(tx);
  }

  /** A transaction already in the history cannot be admitted again: its inputs are gone for good. */
  lemma SpendIsNew(c: Coins, txs: seq<Transaction>, tx: Transaction)
    requires History(c, txs) && !IsCoinbase(tx) && |tx.inputs| > 0
    requires Consumed(tx) <= c.outs.Keys
    ensures tx !in txs
  {
    ConsumedNonEmpty(tx);
    var o :| o in Consumed(tx);
    assert tx in txs ==> o !in c.outs;
  }

  lemma SpendKeepsApart(c: Coins, txs: seq<Transaction>, tx: Transaction)
    requires History(c, txs) && Consumed(tx) <= c.outs.Keys
    ensures NoDoubleSpend(txs + [tx])
  {
    forall i, j | 0 <= i < j < |txs + [tx]| ensures Consumed((txs + [tx])[i]) !! Consumed((txs + [tx])[j]) {
      if j == |txs| {
        forall o | o in Consumed(txs[i]) ensures o !in Consumed(tx) {
          assert txs[i] in txs;
        }
      }
    }
  }

  lemma SpendExtends(c: Coins, txs: seq<Transaction>, tx: Transaction, height: nat)
    requires History(c, txs) && !IsCoinbase(tx) && |tx.inputs| > 0
    requires Consumed(tx) <= c.outs.Keys && AmountsOk(tx.outputs)
    ensures tx !in txs
    ensures History(ApplyTx(c, tx, height), txs + [tx])
  {
    SpendIsNew(c, txs, tx);
    SpendKeepsApart(c, txs, tx);
    ConsumedNonEmpty(tx);
    assert Indexed(ApplyTx(c, tx, height), txs + [tx]);
    SpendKeepsGone(c, txs, tx, height);
  }

  lemma SpendKeepsGone(c: Coins, txs: seq<Transaction>, tx: Transaction, height: nat)
    requires Indexed(c, txs) && Gone(c, txs) && Consumed(tx) <= c.outs.Keys && tx !in txs
    ensures Gone(ApplyTx(c, tx, height), txs + [tx])
  {
    var c' := ApplyTx(c, tx, height);
    forall t, o | t in txs + [tx] && o in Consumed(t)
      ensures o.txid.TxId? && o.txid.tx in txs + [tx] && o !in c'.outs
    {
      assert t in txs || t == tx;
    }
  }

  lemma MintExtends(c: Coins, txs: seq<Transaction>, cb: Transaction, height: nat)
    requires History(c, txs) && IsCoinbase(cb) && OlderCoinbases(txs, height)
    requires cb.inputs[0].outputIndex == height && AmountsOk(cb.outputs)
    ensures cb !in txs
    ensures History(ApplyTx(c, cb, height), txs + [cb])
    ensures forall o :: o in c.outs ==> o.txid != TxId(cb)
  {
    SpendKeepsGone(c, txs, cb, height);
    SpendKeepsApart(c, txs, cb);
  }

  /** `full` is `working` plus the outputs of the coinbase `cb`, which `working` knows nothing of. */
  ghost predicate Ahead(full: Coins, working: Coins, cb: Transaction, height: nat) {
    var id, m := TxId(cb), Meta(true, height);
    && (forall o :: o in working.outs ==> o.txid != id)
    && working.outs.Keys == working.meta.Keys
    && full.outs == working.outs + MadeOuts(id, cb.outputs)
    && full.meta == working.meta + MadeMeta(id, cb.outputs, m)
  }

  lemma AheadStep(full: Coins, working: Coins, cb: Transaction, tx: Transaction, height: nat)
    requires Ahead(full, working, cb, height) && IsCoinbase(cb)
    requires !IsCoinbase(tx) && Consumed(tx) <= working.outs.Keys
    ensures Ahead(ApplyTx(full, tx, height), ApplyTx(working, tx, height), cb, height)
  {
    var f, w, id, m := ApplyTx(full, tx, height), ApplyTx(working, tx, height), TxId(cb), Meta(true, height);
    assert tx != cb;
    MergeCommutes(working.outs, Consumed(tx), MadeOuts(TxId(tx), tx.outputs), MadeOuts(id, cb.outputs));
    MergeCommutes(working.meta, Consumed(tx), MadeMeta(TxId(tx), tx.outputs, Meta(false, height)),
        MadeMeta(id, cb.outputs, m));
  }

  lemma MergeCommutes<V>(u: map<Outpoint, V>, spent: set<Outpoint>, made: map<Outpoint, V>, minted: map<Outpoint, V>)
    requires made.Keys !! minted.Keys && spent !! minted.Keys
    ensures (u + minted) - spent + made == (u - spent + made) + minted
  {
  }

  lemma AdmittedIsPresent(rules: Rules, c: Coins, tx: Transaction, height: nat)
    requires Admits(rules, c, tx, height)
    ensures !IsCoinbase(tx) && Consumed(tx) <= c.outs.Keys && |tx.inputs| > 0
    ensures AmountsOk(tx.outputs) && DistinctInputs(tx.inputs)
  {
  }

  lemma {:induction false} SumInAgrees(a: map<Outpoint, TxOutput>, b: map<Outpoint, TxOutput>, inputs: seq<TxInput>)
    requires forall i :: 0 <= i < |inputs| ==>
               && OutpointOf(inputs[i]) in a && OutpointOf(inputs[i]) in b
               && a[OutpointOf(inputs[i])] == b[OutpointOf(inputs[i])]
    ensures SumIn(a, inputs) == SumIn(b, inputs)
  {
    if |inputs| > 0 { SumInAgrees(a, b, Init(inputs)); }
  }

  /** One transaction moves its fee out of the index and nothing else. */
  lemma ValueStep(c: Coins, txs: seq<Transaction>, tx: Transaction, height: nat)
    requires Indexed(c, txs) && tx !in txs && !IsCoinbase(tx)
    requires Consumed(tx) <= c.outs.Keys && DistinctInputs(tx.inputs)
    requires forall i :: 0 <= i < |tx.inputs| ==> OutpointOf(tx.inputs[i]) in c.outs
    ensures Total(ApplyTx(c, tx, height).outs) == Total(c.outs) - Fee(c.outs, tx)
  {
    TotalAfterSpend(c.outs, tx.inputs);
    TotalAfterMake(c.outs - Consumed(tx), TxId(tx), tx.outputs);
  }

  /** A coinbase adds what it claims. */
  lemma MintValue(c: Coins, txs: seq<Transaction>, cb: Transaction, height: nat)
    requires Indexed(c, txs) && cb !in txs && IsCoinbase(cb)
    ensures Total(ApplyTx(c, cb, height).outs) == Total(c.outs) + SumOut(cb.outputs)
  {
    TotalAfterMake(c.outs, TxId(cb), cb.outputs);
    assert c.outs - Consumed(cb) == c.outs;
  }

  /** The shape `validate_coinbase` demands of a block's transactions, apart from the amount claimed. */
  predicate CoinbaseFirst(txs: seq<Transaction>, height: nat) {
    && |txs| > 0
    && IsCoinbase(txs[0])
    && txs[0].inputs[0].outputIndex == height
    && AmountsOk(txs[0].outputs)
    && forall i :: 1 <= i < |txs| ==> !IsCoinbase(txs[i])
  }

  /**
   * Block validation leaves the coinbase out and checks the rest; block application puts it in first.
   * The two agree up to the coinbase outputs, the history stays sound, and value changes by claim minus fees.
   */
  ghost predicate BlockApplied(rules: Rules, c: Coins, past: seq<Transaction>, txs: seq<Transaction>, height: nat)
    requires |txs| > 0
  {
    var checked, full := CheckTxs(rules, c, txs, height), ApplyTxs(c, txs, height);
    && checked.Some?
    && Ahead(full, checked.value.coins, txs[0], height)
    && History(full, past + txs)
    && checked.value.fees >= 0
    && Total(full.outs) == Total(c.outs) + SumOut(txs[0].outputs) - checked.value.fees
  }

  lemma {:induction false} BlockStep(rules: Rules, c: Coins, past: seq<Transaction>, txs: seq<Transaction>, height: nat)
    requires History(c, past) && OlderCoinbases(past, height) && CoinbaseFirst(txs, height)
    requires CheckTxs(rules, c, txs, height).Some?
    ensures BlockApplied(rules, c, past, txs, height)
  {
    if |txs| == 1 {
      BlockBase(rules, c, past, txs, height);
    } else {
      BlockStep(rules, c, past, Init(txs), height);
      BlockNext(rules, c, past, txs, height);
    }
  }

  lemma {:induction false} BlockNext(rules: Rules, c: Coins, past: seq<Transaction>, txs: seq<Transaction>, height: nat)
    requires |txs| > 1 && CoinbaseFirst(txs, height) && CheckTxs(rules, c, txs, height).Some?
    requires BlockApplied(rules, c, past, Init(txs), height)
    ensures BlockApplied(rules, c, past, txs, height)
  {
    var w := CheckTxs(rules, c, Init(txs), height).value.coins;
    assert Init(txs)[0] == txs[0] && !IsCoinbase(Last(txs));
    NextTx(rules, ApplyTxs(c, Init(txs), height), w, past + Init(txs), txs[0], Last(txs), height);
    InitLast(past, txs);
  }

  lemma {:induction false} BlockBase(rules: Rules, c: Coins, past: seq<Transaction>, txs: seq<Transaction>, height: nat)
    requires History(c, past) && OlderCoinbases(past, height) && |txs| == 1 && CoinbaseFirst(txs, height)
    ensures BlockApplied(rules, c, past, txs, height)
  {
    var cb := txs[0];
    MintExtends(c, past, cb, height);
    MintValue(c, past, cb, height);
    OnlyCoinbase(rules, c, txs, height);
    AheadStart(c, cb, height);
  }

  lemma {:induction false} OnlyCoinbase(rules: Rules, c: Coins, txs: seq<Transaction>, height: nat)
    requires |txs| == 1 && IsCoinbase(txs[0])
    ensures txs == [txs[0]] && Init(txs) == []
    ensures ApplyTxs(c, txs, height) == ApplyTx(c, txs[0], height)
    ensures CheckTxs(rules, c, txs, height) == Some(Checked(c, 0))
  {
    assert Init(txs) == [];
    assert ApplyTxs(c, [], height) == c;
    assert CheckTxs(rules, c, [], height) == Some(Checked(c, 0));
  }

  lemma AheadStart(c: Coins, cb: Transaction, height: nat)
    requires IsCoinbase(cb) && c.outs.Keys == c.meta.Keys
    requires forall o :: o in c.outs ==> o.txid != TxId(cb)
    ensures Ahead(ApplyTx(c, cb, height), c, cb, height)
  {
    assert c.outs - Consumed(cb) == c.outs && c.meta - Consumed(cb) == c.meta;
  }

  lemma NextTx(rules: Rules, full: Coins, working: Coins, past: seq<Transaction>,
               cb: Transaction, tx: Transaction, height: nat)
    requires Ahead(full, working, cb, height) && IsCoinbase(cb) && History(full, past)
    requires Admits(rules, working, tx, height)
    ensures Ahead(ApplyTx(full, tx, height), ApplyTx(working, tx, height), cb, height)
    ensures History(ApplyTx(full, tx, height), past + [tx])
    ensures Fee(working.outs, tx) >= 0
    ensures Total(ApplyTx(full, tx, height).outs) == Total(full.outs) - Fee(working.outs, tx)
  {
    AdmittedIsPresent(rules, working, tx, height);
    AheadStep(full, working, cb, tx, height);
    SpendExtends(full, past, tx, height);
    ValueStep(full, past, tx, height);
    AheadSums(full, working, cb, tx, height);
  }

  lemma {:induction false} AheadSums(full: Coins, working: Coins, cb: Transaction, tx: Transaction, height: nat)
    requires Ahead(full, working, cb, height) && !IsCoinbase(tx) && Consumed(tx) <= working.outs.Keys
    ensures Consumed(tx) <= full.outs.Keys && Fee(full.outs, tx) == Fee(working.outs, tx)
  {
    forall i | 0 <= i < |tx.inputs| ensures OutpointOf(tx.inputs[i]) in working.outs {
      assert OutpointOf(tx.inputs[i]) in Consumed(tx);
    }
    SumInAgrees(full.outs, working.outs, tx.inputs);
  }

  /** What the last block of a valid branch went through. */
  lemma {:induction false} ValidTail(rules: Rules, s: seq<Block>)
    requires ValidBranch(rules, s) && |s| > 1
    ensures ValidBranch(rules, Init(s)) && FitsBranch(rules, Init(s), Last(s))
    ensures Last(s).header.timestamp > MedianTime.MedianTimePast(Init(s))
    ensures TransactionsOk(rules, Init(s), Last(s).transactions)
    ensures CoinbaseFirst(Last(s).transactions, |s| - 1)
  {
  }

  /** Supply and history along any valid branch. */
  lemma {:induction false} BranchHistory(rules: Rules, s: seq<Block>)
    requires ValidBranch(rules, s)
    ensures History(Replay(s), AllTxs(s)) && OlderCoinbases(AllTxs(s), |s|)
    ensures 0 <= Total(Replay(s).outs) <= CumulativeSubsidy(|s|)
  {
    if |s| == 1 {
      GenesisHistory(s);
    } else {
      ValidTail(rules, s);
      BranchHistory(rules, Init(s));
      HistoryStep(rules, s);
    }
  }

  lemma {:induction false} HistoryStep(rules: Rules, s: seq<Block>)
    requires |s| > 1 && TransactionsOk(rules, Init(s), Last(s).transactions)
             && CoinbaseFirst(Last(s).transactions, |s| - 1)
    requires History(Replay(Init(s)), AllTxs(Init(s))) && OlderCoinbases(AllTxs(Init(s)), |s| - 1)
    requires Total(Replay(Init(s)).outs) <= CumulativeSubsidy(|s| - 1)
    ensures History(Replay(s), AllTxs(s)) && OlderCoinbases(AllTxs(s), |s|)
    ensures 0 <= Total(Replay(s).outs) <= CumulativeSubsidy(|s|)
  {
    ExtendHistory(rules, Replay(Init(s)), AllTxs(Init(s)), Last(s).transactions, |s| - 1);
  }

  lemma {:induction false} ExtendHistory(rules: Rules, c: Coins, past: seq<Transaction>, txs: seq<Transaction>,
                                         height: nat)
    requires History(c, past) && OlderCoinbases(past, height) && CoinbaseFirst(txs, height)
    requires Total(c.outs) <= CumulativeSubsidy(height)
    requires var checked := CheckTxs(rules, c, txs, height);
             checked.Some? && SumOut(txs[0].outputs) <= BlockSubsidy(height) + checked.value.fees
    ensures History(ApplyTxs(c, txs, height), past + txs) && OlderCoinbases(past + txs, height + 1)
    ensures 0 <= Total(ApplyTxs(c, txs, height).outs) <= CumulativeSubsidy(height + 1)
  {
    BlockStep(rules, c, past, txs, height);
    TotalNonNegative(ApplyTxs(c, txs, height).outs);
    CoinbasesAge(past, txs, height);
    assert CumulativeSubsidy(height + 1) == CumulativeSubsidy(height) + BlockSubsidy(height);
  }

  lemma CoinbasesAge(past: seq<Transaction>, txs: seq<Transaction>, height: nat)
    requires OlderCoinbases(past, height) && CoinbaseFirst(txs, height)
    ensures OlderCoinbases(past + txs, height + 1)
  {
    forall t | t in past + txs && IsCoinbase(t) ensures t.inputs[0].outputIndex < height + 1 {
      if t !in past {
        assert t in txs;
      }
    }
  }

  lemma {:induction false} GenesisHistory(s: seq<Block>)
    requires |s| == 1 && s[0] == GENESIS
    ensures History(Replay(s), AllTxs(s)) && OlderCoinbases(AllTxs(s), 1)
    ensures 0 <= Total(Replay(s).outs) <= CumulativeSubsidy(1)
  {
    var cb := CreateCoinbase(0, GENESIS_MINER, 0, "");
    GenesisReplay(s, cb);
    assert BlockSubsidy(0) == INITIAL_SUBSIDY;
    assert cb.outputs[..0] == [];
    assert SumOut(cb.outputs) == INITIAL_SUBSIDY;
    MintExtends(NO_COINS, [], cb, 0);
    MintValue(NO_COINS, [], cb, 0);
    assert CumulativeSubsidy(1) == CumulativeSubsidy(0) + BlockSubsidy(0);
  }

  lemma {:induction false} GenesisReplay(s: seq<Block>, cb: Transaction)
    requires |s| == 1 && s[0].transactions == [cb]
    ensures AllTxs(s) == [cb] == [] + [cb] && Replay(s) == ApplyTx(NO_COINS, cb, 0)
  {
    assert Init(s) == [];
    assert [cb][..0] == [];
    assert ApplyTxs(NO_COINS, [cb], 0) == ApplyTx(NO_COINS, cb, 0);
    assert Replay([]) == NO_COINS;
  }

  // ----- the theorems ---------------------------------------------------------- //

  /**
   * No double spend: along a valid branch no transaction id occurs twice, no outpoint is consumed
   * twice, and a consumed outpoint is never spendable again.
   */
  lemma {:induction false} NothingTwice(rules: Rules, s: seq<Block>)
    requires ValidBranch(rules, s)
    ensures forall i, j :: 0 <= i < j < |AllTxs(s)| ==> TxId(AllTxs(s)[i]) != TxId(AllTxs(s)[j])
    ensures NoDoubleSpend(AllTxs(s))
    ensures forall t, o :: t in AllTxs(s) && o in Consumed(t) ==> o !in Replay(s).outs
  {
    BranchHistory(rules, s);
  }

  /** Supply: what can be spent is worth at most the subsidies so far, and those stay within the cap. */
  lemma {:induction false} SupplyBounded(rules: Rules, s: seq<Block>)
    requires ValidBranch(rules, s)
    ensures 0 <= Total(Replay(s).outs) <= CumulativeSubsidy(|s|) <= MAX_SUPPLY
  {
    BranchHistory(rules, s);
    SubsidiesWithinCap(|s|);
  }

  /** The median time past never decreases along a valid branch. */
  lemma {:induction false} MedianMonotone(rules: Rules, s: seq<Block>, n: nat)
    requires ValidBranch(rules, s) && 0 < n <= |s|
    ensures MedianTime.MedianTimePast(s[..n]) <= MedianTime.MedianTimePast(s)
  {
    if n == |s| {
      WholePrefix(s);
    } else {
      MedianMonotone(rules, Init(s), n);
      PrefixOfInit(s, n);
      MedianStep(rules, s);
    }
  }

  lemma {:induction false} MedianStep(rules: Rules, s: seq<Block>)
    requires ValidBranch(rules, s) && |s| > 1
    ensures MedianTime.MedianTimePast(Init(s)) <= MedianTime.MedianTimePast(s)
  {
    ValidTail(rules, s);
    InitLast([], s);
    MedianTime.MedianNeverGoesBack(Init(s), Last(s));
  }

  /** The bits a branch asks of its next block are always in range, so assembling a block never raises. */
  lemma ExpectedBitsInRange(branch: seq<Block>)
    requires |branch| > 0 && Pow.BitsInRange(Last(branch).header.bits)
    ensures Pow.BitsInRange(ExpectedBits(branch))
    ensures Last(branch).header.bits - 2 <= ExpectedBits(branch) <= Last(branch).header.bits + 2
  {
    var prev := Last(branch).header;
    if |branch| % RETARGET_INTERVAL == 0 {
      var actual := prev.timestamp - branch[|branch| - RETARGET_INTERVAL].header.timestamp;
      Pow.RetargetBehaviour(prev.bits, actual, actual);
    }
  }

  /** Accepted transactions are distinct, so their ids are a list the Merkle root binds. */
  lemma {:induction false} AcceptedHasNoRepeats(rules: Rules, branch: seq<Block>, b: Block)
    requires ValidBranch(rules, branch) && FitsBranch(rules, branch, b)
    ensures Padding.NoRepeats(TxIds(b.transactions))
  {
    BranchHistory(rules, branch);
    var past, txs := AllTxs(branch), b.transactions;
    AcceptedShape(rules, branch, b);
    BlockStep(rules, Replay(branch), past, txs, |branch|);
    NoRepeatsInPart(past, txs);
  }

  lemma AcceptedShape(rules: Rules, branch: seq<Block>, b: Block)
    requires |branch| > 0 && Pow.BitsInRange(Last(branch).header.bits) && FitsBranch(rules, branch, b)
    ensures TransactionsOk(rules, branch, b.transactions) && CoinbaseFirst(b.transactions, |branch|)
    ensures b.header.merkleRoot == Merkle.Root(TxIds(b.transactions))
  {
  }

  lemma NoRepeatsInPart(past: seq<Transaction>, txs: seq<Transaction>)
    requires Padding.NoRepeats(past + txs)
    ensures Padding.NoRepeats(TxIds(txs))
  {
    forall i, j | 0 <= i < j < |txs| ensures TxIds(txs)[i] != TxIds(txs)[j] {
      assert (past + txs)[|past| + i] != (past + txs)[|past| + j];
    }
  }

  /** One header admits at most one body: padding collisions exist, but only one of them can be accepted. */
  lemma {:induction false} OneBodyPerHeader(rules: Rules, branch: seq<Block>, other: seq<Block>, a: Block, b: Block)
    requires ValidBranch(rules, branch) && ValidBranch(rules, other) && a.header == b.header
    requires FitsBranch(rules, branch, a) && FitsBranch(rules, other, b)
    ensures a == b
  {
    AcceptedHasNoRepeats(rules, branch, a);
    AcceptedHasNoRepeats(rules, other, b);
    AcceptedShape(rules, branch, a);
    AcceptedShape(rules, other, b);
    SameIdsSameBody(a, b);
  }

  lemma SameIdsSameBody(a: Block, b: Block)
    requires a.header == b.header && |a.transactions| > 0 && |b.transactions| > 0
    requires Padding.NoRepeats(TxIds(a.transactions)) && Padding.NoRepeats(TxIds(b.transactions))
    requires a.header.merkleRoot == Merkle.Root(TxIds(a.transactions))
    requires b.header.merkleRoot == Merkle.Root(TxIds(b.transactions))
    ensures a == b
  {
    Padding.RootBindsDistinctLists(TxIds(a.transactions), TxIds(b.transactions));
    forall i | 0 <= i < |a.transactions| ensures a.transactions[i] == b.transactions[i] {
      assert TxIds(a.transactions)[i] == TxIds(b.transactions)[i];
    }
  }

  /** A hash leads back to one branch only. */
  lemma {:induction false} BranchIsUnique(rules: Rules, a: seq<Block>, b: seq<Block>)
    requires ValidBranch(rules, a) && ValidBranch(rules, b) && HashOf(Last(a)) == HashOf(Last(b))
    ensures a == b
    decreases |a|
  {
    if |a| == 1 || |b| == 1 {
      BranchOfGenesis(rules, a);
      BranchOfGenesis(rules, b);
    } else {
      LastLink(rules, a);
      LastLink(rules, b);
      BranchIsUnique(rules, Init(a), Init(b));
      SameLast(rules, a, b);
      InitLast([], a);
      InitLast([], b);
    }
  }

  lemma {:induction false} BranchOfGenesis(rules: Rules, s: seq<Block>)
    requires ValidBranch(rules, s)
    ensures Last(s).header.prevHash == NULL_DIGEST <==> |s| == 1
    ensures |s| == 1 ==> s == [GENESIS]
  {
    if |s| > 1 { LastLink(rules, s); }
  }

  lemma {:induction false} SameLast(rules: Rules, a: seq<Block>, b: seq<Block>)
    requires ValidBranch(rules, a) && ValidBranch(rules, b) && |a| > 1 && |b| > 1 && Init(a) == Init(b)
    requires HashOf(Last(a)) == HashOf(Last(b))
    ensures Last(a) == Last(b)
  {
    ValidTail(rules, a);
    ValidTail(rules, b);
    OneBodyPerHeader(rules, Init(a), Init(b), Last(a), Last(b));
  }

  lemma {:induction false} TwinRefused(rules: Rules, branch: seq<Block>, other: seq<Block>, b: Block, twin: Block)
    requires ValidBranch(rules, branch) && FitsBranch(rules, branch, b)
    requires ValidBranch(rules, other) && twin.header == b.header && twin != b
    ensures !FitsBranch(rules, other, twin)
  {
    if FitsBranch(rules, other, twin) { OneBodyPerHeader(rules, branch, other, b, twin); }
  }

  /**
   * The header alone does not fix the body. The bodies that share the hash and the root of an accepted block are those
   * of which padding makes the same list. Every other one repeats transactions of the block behind it, and is refused.
   */
  lemma {:induction false} TwinsExactly(rules: Rules, branch: seq<Block>, other: seq<Block>, b: Block, twin: Block)
    requires ValidBranch(rules, branch) && FitsBranch(rules, branch, b)
    requires ValidBranch(rules, other) && twin.header == b.header && |twin.transactions| > 0
    ensures twin.header.merkleRoot == Merkle.Root(TxIds(twin.transactions))
            <==> Padding.Filled(TxIds(twin.transactions)) == Padding.Filled(TxIds(b.transactions))
    ensures twin != b && twin.header.merkleRoot == Merkle.Root(TxIds(twin.transactions)) ==>
              && |twin.transactions| > |b.transactions| && twin.transactions[..|b.transactions|] == b.transactions
              && forall t :: t in twin.transactions ==> t in b.transactions
    ensures twin != b ==> !FitsBranch(rules, other, twin)
  {
    AcceptedShape(rules, branch, b);
    AcceptedHasNoRepeats(rules, branch, b);
    TwinBodies(b.transactions, twin.transactions);
    if twin != b { TwinRefused(rules, branch, other, b, twin); }
  }

  lemma {:induction false} TwinBodies(txs: seq<Transaction>, more: seq<Transaction>)
    requires |txs| > 0 && |more| > 0 && Padding.NoRepeats(TxIds(txs))
    ensures Merkle.Root(TxIds(txs)) == Merkle.Root(TxIds(more))
            <==> Padding.Filled(TxIds(more)) == Padding.Filled(TxIds(txs))
    ensures txs != more && Merkle.Root(TxIds(txs)) == Merkle.Root(TxIds(more)) ==>
              |more| > |txs| && more[..|txs|] == txs && forall t :: t in more ==> t in txs
  {
    Padding.SameRootExactly(TxIds(more), TxIds(txs));
    if txs != more && Merkle.Root(TxIds(txs)) == Merkle.Root(TxIds(more)) { TwinIsLonger(txs, more); }
  }

  lemma {:induction false} TwinIsLonger(txs: seq<Transaction>, more: seq<Transaction>)
    requires |txs| > 0 && |more| > 0 && txs != more && Padding.NoRepeats(TxIds(txs))
    requires Merkle.Root(TxIds(txs)) == Merkle.Root(TxIds(more))
    ensures |more| > |txs| && more[..|txs|] == txs && forall t :: t in more ==> t in txs
  {
    var a, b := TxIds(txs), TxIds(more);
    if |b| <= |a| {
      Padding.SameRootIsPrefix(b, a);
      Padding.RootBindsDistinctLists(a, b);
      SameIds(txs, more);
      assert false;
    }
    Padding.SameRootIsPrefix(a, b);
    SameIds(txs, more[..|txs|]);
    forall i | 0 <= i < |more| ensures more[i] in txs {
      assert TxIds(more)[i] == TxId(more[i]);
      Padding.SameRootSameEntries(a, b, b[i]);
    }
  }

  lemma SameIds(txs: seq<Transaction>, more: seq<Transaction>)
    requires |more| <= |txs| && TxIds(more) == TxIds(txs)[..|more|]
    ensures more == txs[..|more|]
  {
    forall i | 0 <= i < |more| ensures more[i] == txs[i] {
      assert TxIds(more)[i] == TxIds(txs)[i];
    }
  }

  /** Such bodies exist: one repeats the last 2^k of an odd number, above one, of runs of 2^k transactions. */
  lemma {:induction false} RepeatedTailSharesHeader(rules: Rules, branch: seq<Block>, b: Block, q: nat, k: nat)
    returns (twin: Block)
    requires ValidBranch(rules, branch) && FitsBranch(rules, branch, b)
    requires q > 0 && |b.transactions| == Padding.Doubled(2 * q + 1, k)
    ensures Pow2(k) < |b.transactions| && twin.header == b.header && HashOf(twin) == HashOf(b)
    ensures twin.transactions == b.transactions + b.transactions[|b.transactions| - Pow2(k)..]
    ensures twin.header.merkleRoot == Merkle.Root(TxIds(twin.transactions)) && !FitsBranch(rules, branch, twin)
  {
    var more := RepeatedBody(b.transactions, q, k);
    twin := Block(b.header, more);
    AcceptedShape(rules, branch, b);
    TwinRefused(rules, branch, branch, b, twin);
  }

  lemma {:induction false} RepeatedBody(txs: seq<Transaction>, q: nat, k: nat) returns (more: seq<Transaction>)
    requires q > 0 && |txs| == Padding.Doubled(2 * q + 1, k)
    ensures Pow2(k) < |txs| && more == txs + txs[|txs| - Pow2(k)..] && |more| > |txs|
    ensures Merkle.Root(TxIds(more)) == Merkle.Root(TxIds(txs))
  {
    Padding.RepeatedTailKeepsRoot(TxIds(txs), q, k);
    more := txs + txs[|txs| - Pow2(k)..];
    TxIdsOfConcat(txs, txs[|txs| - Pow2(k)..]);
    TxIdsOfTail(txs, |txs| - Pow2(k));
  }

  lemma TxIdsOfTail(txs: seq<Transaction>, n: nat)
    requires n <= |txs|
    ensures TxIds(txs[n..]) == TxIds(txs)[n..]
  {
  }
}
