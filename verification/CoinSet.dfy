/** The unspent-output index (utxo.py): its states as values, and the class that updates it in place. */
module CoinSet {
  import opened Ledger
  import opened Results

  datatype Meta = Meta(isCoinbase: bool, height: nat)

  /** A state of the index: what can be spent, and how each output was made. */
  datatype Coins = Coins(outs: map<Outpoint, TxOutput>, meta: map<Outpoint, Meta>)

  const NO_COINS: Coins := Coins(map[], map[])

  function SpentBy(inputs: seq<TxInput>): set<Outpoint> {
    set i | 0 <= i < |inputs| :: OutpointOf(inputs[i])
  }

  /** The outpoints a transaction takes; a coinbase takes none. */
  function Consumed(tx: Transaction): set<Outpoint> {
    if IsCoinbase(tx) then {} else SpentBy(tx.inputs)
  }

  /** The outputs a transaction registers, entered one after the other. */
  function MadeOuts(id: Digest, outputs: seq<TxOutput>): (made: map<Outpoint, TxOutput>)
    ensures forall o :: o in made <==> o.txid == id && 0 <= o.index < |outputs|
    ensures forall o :: o in made ==> made[o] == outputs[o.index]
  {
    if |outputs| == 0 then map[]
    else MadeOuts(id, outputs[..|outputs| - 1])[Outpoint(id, |outputs| - 1) := outputs[|outputs| - 1]]
  }

  function MadeMeta(id: Digest, outputs: seq<TxOutput>, m: Meta): (made: map<Outpoint, Meta>)
    ensures forall o :: o in made <==> o.txid == id && 0 <= o.index < |outputs|
    ensures forall o :: o in made ==> made[o] == m
  {
    if |outputs| == 0 then map[]
    else MadeMeta(id, outputs[..|outputs| - 1], m)[Outpoint(id, |outputs| - 1) := m]
  }

  function ApplyTx(c: Coins, tx: Transaction, height: nat): Coins {
    Coins(c.outs - Consumed(tx) + MadeOuts(TxId(tx), tx.outputs),
          c.meta - Consumed(tx) + MadeMeta(TxId(tx), tx.outputs, Meta(IsCoinbase(tx), height)))
  }

  function ApplyTxs(c: Coins, txs: seq<Transaction>, height: nat): Coins {
    if |txs| == 0 then c else ApplyTx(ApplyTxs(c, txs[..|txs| - 1], height), txs[|txs| - 1], height)
  }

  /** The outputs as of the last block of `branch`, rebuilt from nothing. */
  function Replay(branch: seq<Block>): Coins {
    if |branch| == 0 then NO_COINS
    else ApplyTxs(Replay(branch[..|branch| - 1]), branch[|branch| - 1].transactions, |branch| - 1)
  }

  /** A coinbase output may be spent `maturity` blocks after the block that made it. */
  predicate Mature(rules: Rules, c: Coins, o: Outpoint, spendHeight: nat) {
    rules.maturity != 0 && o in c.meta && c.meta[o].isCoinbase ==> spendHeight - c.meta[o].height >= rules.maturity
  }

  /** A non-coinbase transaction that the index admits at `spendHeight`. */
  predicate Admits(rules: Rules, c: Coins, tx: Transaction, spendHeight: nat) {
    && Verifies(rules, c.outs, tx)
    && forall i :: 0 <= i < |tx.inputs| ==> Mature(rules, c, OutpointOf(tx.inputs[i]), spendHeight)
  }

  predicate InputsReady(rules: Rules, c: Coins, tx: Transaction, spendHeight: nat) {
    forall i :: 0 <= i < |tx.inputs| ==>
      OutpointOf(tx.inputs[i]) in c.outs && Mature(rules, c, OutpointOf(tx.inputs[i]), spendHeight)
  }

  /** When the index raises instead of answering: every input is there and mature, and verification raises. */
  ghost predicate AdmitRaises(rules: Rules, c: Coins, tx: Transaction, spendHeight: nat) {
    InputsReady(rules, c, tx, spendHeight) && VerifyRaises(rules, c.outs, tx)
  }

  // ----- total value ------------------------------------------------------ //

  ghost function Total(outs: map<Outpoint, TxOutput>): int
    decreases |outs|
  {
    if outs == map[] then 0
    else
      var o :| o in outs;
      outs[o].amount + Total(outs - {o})
  }

  lemma {:induction false} TotalWithout(outs: map<Outpoint, TxOutput>, o: Outpoint)
    requires o in outs
    ensures Total(outs) == outs[o].amount + Total(outs - {o})
    decreases |outs|
  {
    var p :| p in outs && Total(outs) == outs[p].amount + Total(outs - {p});
    if p != o {
      TotalWithout(outs - {p}, o);
      TotalWithout(outs - {o}, p);
      assert outs - {p} - {o} == outs - {o} - {p};
    }
  }

  lemma TotalWith(outs: map<Outpoint, TxOutput>, o: Outpoint, out: TxOutput)
    requires o !in outs
    ensures Total(outs[o := out]) == Total(outs) + out.amount
  {
    TotalWithout(outs[o := out], o);
    assert outs[o := out] - {o} == outs;
  }

  lemma {:induction false} TotalAfterSpend(outs: map<Outpoint, TxOutput>, inputs: seq<TxInput>)
    requires DistinctInputs(inputs)
    requires forall i :: 0 <= i < |inputs| ==> OutpointOf(inputs[i]) in outs
    ensures Total(outs - SpentBy(inputs)) == Total(outs) - SumIn(outs, inputs)
  {
    if |inputs| == 0 {
      assert outs - SpentBy(inputs) == outs;
    } else {
      var init, last := inputs[..|inputs| - 1], OutpointOf(inputs[|inputs| - 1]);
      TotalAfterSpend(outs, init);
      assert SpentBy(inputs) == SpentBy(init) + {last};
      assert last !in SpentBy(init);
      TotalWithout(outs - SpentBy(init), last);
      assert outs - SpentBy(init) - {last} == outs - SpentBy(inputs);
    }
  }

  lemma MergeOne<K, V>(m: map<K, V>, n: map<K, V>, k: K, v: V)
    ensures m + n[k := v] == (m + n)[k := v]
  {
  }

  lemma {:induction false} OneMoreMade(outs: map<Outpoint, TxOutput>, meta: map<Outpoint, Meta>, id: Digest,
                                       outputs: seq<TxOutput>, m: Meta, i: nat)
    requires i < |outputs|
    ensures outs + MadeOuts(id, outputs[..i + 1]) == (outs + MadeOuts(id, outputs[..i]))[Outpoint(id, i) := outputs[i]]
    ensures meta + MadeMeta(id, outputs[..i + 1], m) == (meta + MadeMeta(id, outputs[..i], m))[Outpoint(id, i) := m]
  {
    assert outputs[..i + 1][..i] == outputs[..i];
    MergeOne(outs, MadeOuts(id, outputs[..i]), Outpoint(id, i), outputs[i]);
    MergeOne(meta, MadeMeta(id, outputs[..i], m), Outpoint(id, i), m);
  }

  lemma {:induction false} TotalAfterMake(outs: map<Outpoint, TxOutput>, id: Digest, outputs: seq<TxOutput>)
    requires forall o :: o in outs ==> o.txid != id
    ensures Total(outs + MadeOuts(id, outputs)) == Total(outs) + SumOut(outputs)
  {
    if |outputs| == 0 {
      assert outs + MadeOuts(id, outputs) == outs;
    } else {
      var n := |outputs| - 1;
      TotalAfterMake(outs, id, outputs[..n]);
      TotalWith(outs + MadeOuts(id, outputs[..n]), Outpoint(id, n), outputs[n]);
      MergeOne(outs, MadeOuts(id, outputs[..n]), Outpoint(id, n), outputs[n]);
    }
  }

  lemma {:induction false} TotalNonNegative(outs: map<Outpoint, TxOutput>)
    requires forall o :: o in outs ==> outs[o].amount > 0
    ensures Total(outs) >= 0
    decreases |outs|
  {
    if outs != map[] {
      var o :| o in outs;
      TotalWithout(outs, o);
      TotalNonNegative(outs - {o});
    }
  }

  lemma AdmittedIsSigned(rules: Rules, c: Coins, tx: Transaction, spendHeight: nat)
    requires Admits(rules, c, tx, spendHeight)
    ensures Signed(rules, tx)
  {
  }

  // ----- the class -------------------------------------------------------- //

  class UTXOSet {
    var utxos: map<Outpoint, TxOutput>
    var meta: map<Outpoint, Meta>

    function Contents(): Coins
      reads this
    {
      Coins(utxos, meta)
    }

    constructor ()
      ensures Contents() == NO_COINS
    {
      utxos, meta := map[], map[];
    }

    method Add(txid: Digest, index: int, output: TxOutput, isCoinbase: bool, height: nat)
      modifies this
      ensures utxos == old(utxos)[Outpoint(txid, index) := output]
      ensures meta == old(meta)[Outpoint(txid, index) := Meta(isCoinbase, height)]
    {
      utxos := utxos[Outpoint(txid, index) := output];
      meta := meta[Outpoint(txid, index) := Meta(isCoinbase, height)];
    }

    method Spend(txid: Digest, index: int)
      modifies this
      ensures utxos == old(utxos) - {Outpoint(txid, index)}
      ensures meta == old(meta) - {Outpoint(txid, index)}
    {
      utxos := utxos - {Outpoint(txid, index)};
      meta := meta - {Outpoint(txid, index)};
    }

    method TotalValue() returns (total: int)
      ensures total == Total(utxos)
    {
      total := 0;
      var rest := utxos;
      while rest != map[]
        invariant total + Total(rest) == Total(utxos)
        decreases rest
      {
        var o :| o in rest;
        TotalWithout(rest, o);
        total := total + rest[o].amount;
        rest := rest - {o};
      }
    }

    method Copy() returns (clone: UTXOSet)
      ensures fresh(clone) && clone.Contents() == Contents()
    {
      clone := new UTXOSet();
      clone.utxos := utxos;
      clone.meta := meta;
    }

    /** validate_transaction: presence and maturity of every input, then the transaction's own checks. */
    method ValidateTransaction(rules: Rules, tx: Transaction, spendHeight: nat) returns (ok: Option<bool>)
      ensures ok.None? <==> AdmitRaises(rules, Contents(), tx, spendHeight)
      ensures ok.Some? ==> ok.value == Admits(rules, Contents(), tx, spendHeight)
    {
      if IsCoinbase(tx) { return Some(false); }
      for i := 0 to |tx.inputs|
        invariant forall j :: 0 <= j < i ==>
                    OutpointOf(tx.inputs[j]) in utxos
                        && Mature(rules, Contents(), OutpointOf(tx.inputs[j]), spendHeight)
      {
        var o := OutpointOf(tx.inputs[i]);
        if o !in utxos {
          assert !InputOk(rules, utxos, tx.inputs[i], SigningForm(tx));
          return Some(false);
        }
        if rules.maturity != 0 {
          if o in meta && meta[o].isCoinbase && spendHeight - meta[o].height < rules.maturity {
            return Some(false);
          }
        }
      }
      ok := Verify(rules, utxos, tx);
    }

    method SpendInputs(inputs: seq<TxInput>)
      modifies this
      ensures utxos == old(utxos) - SpentBy(inputs)
      ensures meta == old(meta) - SpentBy(inputs)
    {
      for i := 0 to |inputs|
        invariant utxos == old(utxos) - SpentBy(inputs[..i])
        invariant meta == old(meta) - SpentBy(inputs[..i])
      {
        Spend(inputs[i].prevTxid, inputs[i].outputIndex);
        assert SpentBy(inputs[..i + 1]) == SpentBy(inputs[..i]) + {OutpointOf(inputs[i])};
      }
      assert inputs[..|inputs|] == inputs;
    }

    method AddOutputs(id: Digest, outputs: seq<TxOutput>, isCb: bool, height: nat)
      modifies this
      ensures utxos == old(utxos) + MadeOuts(id, outputs)
      ensures meta == old(meta) + MadeMeta(id, outputs, Meta(isCb, height))
    {
      ghost var m := Meta(isCb, height);
      for i := 0 to |outputs|
        invariant utxos == old(utxos) + MadeOuts(id, outputs[..i])
        invariant meta == old(meta) + MadeMeta(id, outputs[..i], m)
      {
        Add(id, i, outputs[i], isCb, height);
        OneMoreMade(old(utxos), old(meta), id, outputs, m, i);
      }
      assert outputs[..|outputs|] == outputs;
    }

    /** A coinbase leaves the inputs alone: its one input is the null marker. */
    method ApplyTransaction(tx: Transaction, height: nat)
      modifies this
      ensures Contents() == ApplyTx(old(Contents()), tx, height)
    {
      if !IsCoinbase(tx) {
        SpendInputs(tx.inputs);
      } else {
        assert utxos == utxos - Consumed(tx) && meta == meta - Consumed(tx);
      }
      AddOutputs(TxId(tx), tx.outputs, IsCoinbase(tx), height);
    }

    method ApplyBlock(b: Block, height: nat)
      modifies this
      ensures Contents() == ApplyTxs(old(Contents()), b.transactions, height)
    {
      var txs := b.transactions;
      for i := 0 to |txs|
        invariant Contents() == ApplyTxs(old(Contents()), txs[..i], height)
      {
        ApplyTransaction(txs[i], height);
        assert txs[..i + 1][..i] == txs[..i];
      }
      assert txs[..|txs|] == txs;
    }
  }
}
