/** What the unspent-output index holds, said by the positions of transactions on the branch. */
module Lineage {
  import opened Ledger
  import opened Results
  import opened CoinSet
  import opened Chain
  import Padding

  /** Transaction `k` of block `i` is `t`. */
  predicate StandsAt(s: seq<Block>, i: nat, k: nat, t: Transaction) {
    i < |s| && k < |s[i].transactions| && s[i].transactions[k] == t
  }

  ghost predicate OnBranch(s: seq<Block>, t: Transaction) {
    exists i: nat, k: nat :: StandsAt(s, i, k, t)
  }

  /** The transaction `t` made the output `o`. */
  predicate Made(t: Transaction, o: Outpoint) {
    o.txid == TxId(t) && 0 <= o.index < |t.outputs|
  }

  /** Some input of `t` names `o`. */
  predicate Takes(t: Transaction, o: Outpoint) {
    exists n :: 0 <= n < |t.inputs| && OutpointOf(t.inputs[n]) == o
  }

  lemma TakesIsConsumed(t: Transaction, o: Outpoint)
    requires o.txid.TxId?
    ensures Takes(t, o) <==> o in Consumed(t)
  {
  }

  lemma {:induction false} OnBranchInAll(s: seq<Block>, t: Transaction)
    ensures OnBranch(s, t) <==> t in AllTxs(s)
  {
    if |s| > 0 {
      OnBranchInAll(Init(s), t);
      OnBranchLast(s, t);
    }
  }

  lemma OnBranchLast(s: seq<Block>, t: Transaction)
    requires |s| > 0
    ensures OnBranch(s, t) <==> OnBranch(Init(s), t) || t in Last(s).transactions
  {
    if i: nat, k: nat :| StandsAt(s, i, k, t) && i < |s| - 1 { assert StandsAt(Init(s), i, k, t); }
    if i: nat, k: nat :| StandsAt(Init(s), i, k, t) { assert StandsAt(s, i, k, t); }
    if t in Last(s).transactions {
      var k :| 0 <= k < |Last(s).transactions| && Last(s).transactions[k] == t;
      assert StandsAt(s, |s| - 1, k, t);
    }
  }

  // ----- a list of transactions ------------------------------------------------------------- //

  ghost predicate MadeIn(txs: seq<Transaction>, o: Outpoint) {
    o.txid.TxId? && o.txid.tx in txs && Made(o.txid.tx, o)
  }

  ghost predicate TakenIn(txs: seq<Transaction>, o: Outpoint) {
    exists t :: t in txs && Takes(t, o)
  }

  ghost predicate HoldsOutput(c: Coins, o: Outpoint) {
    o in c.outs && o.txid.TxId? && Made(o.txid.tx, o) && c.outs[o] == o.txid.tx.outputs[o.index]
  }

  /** The index holds exactly the outputs that `txs` made and did not take. */
  ghost predicate HoldsUnspent(c: Coins, txs: seq<Transaction>) {
    && (forall o :: o in c.outs ==> HoldsOutput(c, o))
    && (forall o :: o in c.outs <==> MadeIn(txs, o) && !TakenIn(txs, o))
  }

  lemma TakenInMore(txs: seq<Transaction>, tx: Transaction, o: Outpoint)
    ensures TakenIn(txs + [tx], o) <==> TakenIn(txs, o) || Takes(tx, o)
    ensures MadeIn(txs + [tx], o) <==> MadeIn(txs, o) || (o.txid.TxId? && Made(tx, o))
  {
    assert tx in txs + [tx];
    assert forall t :: t in txs + [tx] <==> t in txs || t == tx;
  }

  /** Nothing in the history takes an output of a transaction that is new. */
  lemma NewIsUntaken(c: Coins, txs: seq<Transaction>, tx: Transaction, o: Outpoint)
    requires History(c, txs) && tx !in txs && Made(tx, o)
    ensures !TakenIn(txs, o) && o !in c.outs
  {
    if t :| t in txs && Takes(t, o) {
      TakesIsConsumed(t, o);
      assert false;
    }
  }

  lemma {:induction false} HoldsOneMore(c: Coins, txs: seq<Transaction>, tx: Transaction, height: nat)
    requires History(c, txs) && HoldsUnspent(c, txs) && tx !in txs && Consumed(tx) <= c.outs.Keys
    ensures HoldsUnspent(ApplyTx(c, tx, height), txs + [tx])
  {
    var c' := ApplyTx(c, tx, height);
    forall o ensures (o in c'.outs <==> MadeIn(txs + [tx], o) && !TakenIn(txs + [tx], o))
                     && (o in c'.outs ==> HoldsOutput(c', o))
    {
      TakenInMore(txs, tx, o);
      if Made(tx, o) {
        NewIsUntaken(c, txs, tx, o);
        TakesIsConsumed(tx, o);
      } else if o in c.outs || MadeIn(txs, o) {
        TakesIsConsumed(tx, o);
      }
    }
  }

  /** The transactions of a block, applied to an index that is right, leave it right. */
  lemma {:induction false} HoldsAfterBlock(rules: Rules, c: Coins, past: seq<Transaction>, txs: seq<Transaction>,
                                           height: nat)
    requires History(c, past) && OlderCoinbases(past, height) && CoinbaseFirst(txs, height)
    requires CheckTxs(rules, c, txs, height).Some? && HoldsUnspent(c, past)
    ensures HoldsUnspent(ApplyTxs(c, txs, height), past + txs)
  {
    InitLast(past, txs);
    if |txs| == 1 {
      MintExtends(c, past, txs[0], height);
      HoldsOneMore(c, past, txs[0], height);
      OnlyCoinbase(rules, c, txs, height);
    } else {
      HoldsAfterBlock(rules, c, past, Init(txs), height);
      BlockStep(rules, c, past, Init(txs), height);
      NextIsNew(rules, c, past, txs, height);
      HoldsOneMore(ApplyTxs(c, Init(txs), height), past + Init(txs), Last(txs), height);
    }
  }

  lemma {:induction false} NextIsNew(rules: Rules, c: Coins, past: seq<Transaction>, txs: seq<Transaction>, height: nat)
    requires |txs| > 1 && CoinbaseFirst(txs, height) && CheckTxs(rules, c, txs, height).Some?
    requires BlockApplied(rules, c, past, Init(txs), height)
    ensures Last(txs) !in past + Init(txs) && Consumed(Last(txs)) <= ApplyTxs(c, Init(txs), height).outs.Keys
  {
    var full, w := ApplyTxs(c, Init(txs), height), CheckTxs(rules, c, Init(txs), height).value.coins;
    assert !IsCoinbase(Last(txs));
    AdmittedIsPresent(rules, w, Last(txs), height);
    SpendIsNew(full, past + Init(txs), Last(txs));
  }

  // ----- a branch ---------------------------------------------------------------------------- //

  lemma {:induction false} HoldsAtGenesis(s: seq<Block>)
    requires |s| == 1 && s[0] == GENESIS
    ensures HoldsUnspent(Replay(s), AllTxs(s))
  {
    var cb := CreateCoinbase(0, GENESIS_MINER, 0, "");
    GenesisReplay(s, cb);
    HoldsOneMore(NO_COINS, [], cb, 0);
  }

  lemma {:induction false} HoldsOnBranch(rules: Rules, s: seq<Block>)
    requires ValidBranch(rules, s)
    ensures HoldsUnspent(Replay(s), AllTxs(s))
  {
    if |s| == 1 {
      HoldsAtGenesis(s);
    } else {
      ValidTail(rules, s);
      HoldsOnBranch(rules, Init(s));
      BranchHistory(rules, Init(s));
      HoldsAfterBlock(rules, Replay(Init(s)), AllTxs(Init(s)), Last(s).transactions, |s| - 1);
    }
  }

  // ----- heights are positions ---------------------------------------------------------------- //

  /** `m` says where `t` stands on the branch, and that a coinbase is what comes first in a block. */
  ghost predicate DatedOn(m: Meta, s: seq<Block>, t: Transaction) {
    exists i: nat, k: nat :: StandsAt(s, i, k, t) && m == Meta(k == 0, i)
  }

  ghost predicate DatedIn(m: Meta, txs: seq<Transaction>, t: Transaction, height: nat) {
    exists k: nat :: k < |txs| && txs[k] == t && m == Meta(k == 0, height)
  }

  /** The index after `s` and the transactions `txs` of a block on top of it dates every output. */
  ghost predicate Dated(meta: map<Outpoint, Meta>, s: seq<Block>, txs: seq<Transaction>) {
    forall o :: o in meta ==>
      o.txid.TxId? && (DatedOn(meta[o], s, o.txid.tx) || DatedIn(meta[o], txs, o.txid.tx, |s|))
  }

  lemma DatedLonger(m: Meta, txs: seq<Transaction>, t: Transaction, height: nat)
    requires |txs| > 0 && DatedIn(m, Init(txs), t, height)
    ensures DatedIn(m, txs, t, height)
  {
    var k: nat :| k < |txs| - 1 && Init(txs)[k] == t && m == Meta(k == 0, height);
    assert txs[k] == t;
  }

  lemma {:induction false} DatedTxs(s: seq<Block>, txs: seq<Transaction>)
    requires Dated(Replay(s).meta, s, []) && (|txs| > 0 ==> CoinbaseFirst(txs, |s|))
    ensures Dated(ApplyTxs(Replay(s), txs, |s|).meta, s, txs)
  {
    if |txs| > 0 {
      DatedTxs(s, Init(txs));
      var before, tx := ApplyTxs(Replay(s), Init(txs), |s|).meta, Last(txs);
      var after := ApplyTxs(Replay(s), txs, |s|).meta;
      forall o | o in after
        ensures o.txid.TxId? && (DatedOn(after[o], s, o.txid.tx) || DatedIn(after[o], txs, o.txid.tx, |s|))
      {
        if o.txid == TxId(tx) && 0 <= o.index < |tx.outputs| {
          assert txs[|txs| - 1] == tx && after[o] == Meta(|txs| - 1 == 0, |s|);
        } else if DatedIn(before[o], Init(txs), o.txid.tx, |s|) {
          DatedLonger(before[o], txs, o.txid.tx, |s|);
        }
      }
    }
  }

  lemma {:induction false} DatedBlock(s: seq<Block>, meta: map<Outpoint, Meta>)
    requires |s| > 0 && Dated(meta, Init(s), Last(s).transactions)
    ensures Dated(meta, s, [])
  {
    forall o | o in meta ensures o.txid.TxId? && DatedOn(meta[o], s, o.txid.tx) {
      if DatedOn(meta[o], Init(s), o.txid.tx) {
        var i: nat, k: nat :| StandsAt(Init(s), i, k, o.txid.tx) && meta[o] == Meta(k == 0, i);
        assert StandsAt(s, i, k, o.txid.tx);
      } else {
        var txs := Last(s).transactions;
        var k: nat :| k < |txs| && txs[k] == o.txid.tx && meta[o] == Meta(k == 0, |s| - 1);
        assert StandsAt(s, |s| - 1, k, o.txid.tx);
      }
    }
  }

  lemma {:induction false} DatedBranch(rules: Rules, s: seq<Block>)
    requires ValidBranch(rules, s)
    ensures Dated(Replay(s).meta, s, [])
  {
    var height := |s| - 1;
    if |s| == 1 {
      assert Init(s) == [];
      DatedTxs([], s[0].transactions);
    } else {
      ValidTail(rules, s);
      DatedBranch(rules, Init(s));
      DatedTxs(Init(s), Last(s).transactions);
    }
    DatedBlock(s, Replay(s).meta);
  }

  /** A transaction stands at one place of a valid branch only. */
  lemma {:induction false} OnePlace(rules: Rules, s: seq<Block>, t: Transaction, i: nat, k: nat, j: nat, l: nat)
    requires ValidBranch(rules, s) && StandsAt(s, i, k, t) && StandsAt(s, j, l, t)
    ensures i == j && k == l
  {
    BranchHistory(rules, s);
    OnePlaceInList(s, t, i, k, j, l);
  }

  lemma {:induction false} OnePlaceInList(s: seq<Block>, t: Transaction, i: nat, k: nat, j: nat, l: nat)
    requires Padding.NoRepeats(AllTxs(s)) && StandsAt(s, i, k, t) && StandsAt(s, j, l, t)
    ensures i == j && k == l
  {
    var past, txs := AllTxs(Init(s)), Last(s).transactions;
    Apart(past, txs);
    if i < |s| - 1 && j < |s| - 1 {
      OnePlaceInList(Init(s), t, i, k, j, l);
    } else if i < |s| - 1 {
      Below(s, t, i, k);
    } else if j < |s| - 1 {
      Below(s, t, j, l);
    }
  }

  lemma Apart(past: seq<Transaction>, txs: seq<Transaction>)
    requires Padding.NoRepeats(past + txs)
    ensures Padding.NoRepeats(past) && forall t :: t in past ==> t !in txs
    ensures forall k, l :: 0 <= k < l < |txs| ==> txs[k] != txs[l]
  {
    var all := past + txs;
    forall k, l | 0 <= k < l < |past| ensures past[k] != past[l] {
      assert all[k] != all[l];
    }
    forall k, l | 0 <= k < l < |txs| ensures txs[k] != txs[l] {
      assert all[|past| + k] != all[|past| + l];
    }
    forall k, l | 0 <= k < |past| && 0 <= l < |txs| ensures past[k] != txs[l] {
      assert all[k] != all[|past| + l];
    }
  }

  lemma Below(s: seq<Block>, t: Transaction, i: nat, k: nat)
    requires |s| > 0 && StandsAt(s, i, k, t) && i < |s| - 1
    ensures t in AllTxs(Init(s))
  {
    assert StandsAt(Init(s), i, k, t);
    OnBranchInAll(Init(s), t);
  }

}
