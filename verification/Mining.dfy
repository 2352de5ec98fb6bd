/** Assembling, mining and connecting a block (node.py, class Node). */
module Mining {
  import opened Params
  import opened Ledger
  import opened Results
  import opened CoinSet
  import opened Chain
  import opened Tree
  import opened NodeChain
  import opened Rulebook
  import Merkle
  import Pow
  import MedianTime

  /** build_block: the header commits to the transactions; the nonce is still 0. */
  function BuildBlock(prev: Digest, txs: seq<Transaction>, bits: int, timestamp: int): Block
    requires |txs| > 0
  {
    Block(Header(prev, Merkle.Root(TxIds(txs)), timestamp, bits, 0), txs)
  }

  /** The block with another nonce. */
  function WithNonce(b: Block, nonce: int): Block {
    b.(header := b.header.(nonce := nonce))
  }

  /** `n` is the first nonce below the limit whose hash meets the target. */
  ghost predicate FirstNonce(rules: Rules, b: Block, maxNonce: nat, n: nat) {
    && n < maxNonce && MeetsTarget(rules, WithNonce(b, n).header)
    && forall m: nat :: m < n ==> !MeetsTarget(rules, WithNonce(b, m).header)
  }

  /** pow.mine: try the nonces in order and stop at the first whose hash meets the target. */
  method Mine(rules: Rules, b: Block, maxNonce: nat) returns (found: Option<Block>)
    requires Pow.BitsInRange(b.header.bits)
    ensures found.Some? <==> exists n: nat :: n < maxNonce && MeetsTarget(rules, WithNonce(b, n).header)
    ensures found.Some? ==> exists n: nat :: FirstNonce(rules, b, maxNonce, n) && found.value == WithNonce(b, n)
  {
    for nonce := 0 to maxNonce
      invariant forall n: nat :: n < nonce ==> !MeetsTarget(rules, WithNonce(b, n).header)
    {
      var mined := WithNonce(b, nonce);
      if rules.digestValue(HashOf(mined)) < Pow2(256 - mined.header.bits) {
        assert FirstNonce(rules, b, maxNonce, nonce);
        return Some(mined);
      }
    }
    found := None;
  }

  /** The timestamp a miner writes: the clock, or just past the median when the clock is behind it. */
  function MinerTimestamp(branch: seq<Block>, now: int): int
    requires |branch| > 0
  {
    Pow.Max(now, MedianTime.MedianTimePast(branch) + 1)
  }

  /** The block a miner assembles on a branch from what block assembly picked. */
  function Assembled(branch: seq<Block>, g: Picked, minerKeyHash: string, extraNonce: string, now: int): Block
    requires |branch| > 0 && Pow.BitsInRange(Last(branch).header.bits)
  {
    BuildBlock(HashOf(Last(branch)), [CreateCoinbase(|branch|, minerKeyHash, g.fees, extraNonce)] + g.chosen,
               ExpectedBits(branch), MinerTimestamp(branch, now))
  }

  lemma {:induction false} AssembledIs(branch: seq<Block>, g: Picked, minerKeyHash: string, extraNonce: string,
                                       now: int,
                                       tip: Digest, coinbase: Transaction, bits: int, median: int)
    requires |branch| > 0 && Pow.BitsInRange(Last(branch).header.bits) && tip == HashOf(Last(branch))
    requires coinbase == CreateCoinbase(|branch|, minerKeyHash, g.fees, extraNonce)
    requires bits == ExpectedBits(branch) && median == MedianTime.MedianTimePast(branch)
    ensures BuildBlock(tip, [coinbase] + g.chosen, bits, Pow.Max(now, median + 1))
            == Assembled(branch, g, minerKeyHash, extraNonce, now)
  {
  }

  // ----- the picked transactions pass block validation ------------------------------------ //

  /** Behind any coinbase, the picked transactions pass the transaction loop with the same fees. */
  lemma {:induction false} PickedPass(rules: Rules, c: Coins, cb: Transaction, candidates: seq<Transaction>,
                                      height: nat)
    requires IsCoinbase(cb)
    ensures var g := Greedy(rules, c, candidates, height);
            && CheckTxs(rules, c, [cb] + g.chosen, height) == Some(Checked(g.coins, g.fees))
            && (forall i :: 0 <= i < |g.chosen| ==> !IsCoinbase(g.chosen[i]))
  {
    if |candidates| == 0 {
      assert Init([cb]) == [] && [cb] + [] == [cb];
      assert CheckTxs(rules, c, [], height) == Some(Checked(c, 0));
    } else {
      PickedPass(rules, c, cb, Init(candidates), height);
      var g := Greedy(rules, c, Init(candidates), height);
      InitLast([cb] + g.chosen, [Last(candidates)]);
      PickedPassStep(rules, c, cb, g, Last(candidates), height);
    }
  }

  lemma PickIsCheck(rules: Rules, g: Picked, tx: Transaction, height: nat)
    requires Admits(rules, g.coins, tx, height)
    ensures var g' := PickOne(rules, g, tx, height);
            && g'.chosen == g.chosen + [tx]
            && CheckOne(rules, Checked(g.coins, g.fees), tx, false, height) == Some(Checked(g'.coins, g'.fees))
  {
  }

  lemma {:induction false} PickedPassStep(rules: Rules, c: Coins, cb: Transaction, g: Picked, tx: Transaction,
                                          height: nat)
    requires CheckTxs(rules, c, [cb] + g.chosen, height) == Some(Checked(g.coins, g.fees))
    ensures var g' := PickOne(rules, g, tx, height);
            CheckTxs(rules, c, [cb] + g'.chosen, height) == Some(Checked(g'.coins, g'.fees))
  {
    if Admits(rules, g.coins, tx, height) {
      CheckSnoc(rules, c, [cb] + g.chosen, tx, height);
      PickIsCheck(rules, g, tx, height);
      assert [cb] + g.chosen + [tx] == [cb] + (g.chosen + [tx]);
    }
  }

  lemma {:induction false} PickedReached(rules: Rules, s: seq<Block>, cb: Transaction, candidates: seq<Transaction>)
    requires ValidBranch(rules, s) && CoinbaseFirst([cb], |s|)
    ensures var g := Greedy(rules, Replay(s), candidates, |s|);
            Reached(rules, s, [cb] + g.chosen, g.coins) && g.fees == Fees([cb] + g.chosen)
  {
    var g := Greedy(rules, Replay(s), candidates, |s|);
    assert IsCoinbase([cb][0]);
    PickedPass(rules, Replay(s), cb, candidates, |s|);
    assert CoinbaseFirst([cb] + g.chosen, |s|);
    LoopExactly(rules, s, [cb] + g.chosen);
  }

  /** What block assembly picks, by the rules: candidate after candidate, each one that they allow behind the others. */
  lemma {:induction false} PicksInTurn(rules: Rules, s: seq<Block>, cb: Transaction, candidates: seq<Transaction>)
    returns (at: seq<nat>)
    requires ValidBranch(rules, s) && CoinbaseFirst([cb], |s|)
    ensures TakesInTurn(rules, s, cb, candidates, Greedy(rules, Replay(s), candidates, |s|).chosen, at)
  {
    if |candidates| == 0 {
      at := [0];
    } else {
      var init, last := Init(candidates), Last(candidates);
      var g := Greedy(rules, Replay(s), init, |s|);
      at := PicksInTurn(rules, s, cb, init);
      PickedReached(rules, s, cb, init);
      AllowedExactly(rules, s, [cb] + g.chosen, g.coins, last);
      InitLast([], candidates);
      at := TakesOneMore(rules, s, cb, init, last, g.chosen, at, Greedy(rules, Replay(s), candidates, |s|).chosen);
    }
  }

  lemma AheadHolds(full: Coins, working: Coins, cb: Transaction, height: nat, k: nat)
    requires Ahead(full, working, cb, height) && k < |cb.outputs|
    ensures Outpoint(TxId(cb), k) in full.outs && full.outs[Outpoint(TxId(cb), k)] == cb.outputs[k]
  {
  }

  /** The outputs of the coinbase of the last block are in the index. */
  lemma {:induction false} MinerIsPaid(rules: Rules, s: seq<Block>, k: nat)
    requires ValidBranch(rules, s) && |s| > 1
    requires |Last(s).transactions| > 0 && k < |Last(s).transactions[0].outputs|
    ensures var cb := Last(s).transactions[0];
            Outpoint(TxId(cb), k) in Replay(s).outs && Replay(s).outs[Outpoint(TxId(cb), k)] == cb.outputs[k]
  {
    var c, txs, height := Replay(Init(s)), Last(s).transactions, |s| - 1;
    ValidTail(rules, s);
    BranchHistory(rules, Init(s));
    BlockStep(rules, c, AllTxs(Init(s)), txs, height);
    AheadHolds(ApplyTxs(c, txs, height), CheckTxs(rules, c, txs, height).value.coins, txs[0], height, k);
  }

  /** Fees are paid out of what could be spent, so they never exceed it. */
  lemma {:induction false} FeesWithinValue(rules: Rules, branch: seq<Block>, candidates: seq<Transaction>)
    requires ValidBranch(rules, branch)
    ensures 0 <= Greedy(rules, Replay(branch), candidates, |branch|).fees <= Total(Replay(branch).outs)
  {
    var c, height := Replay(branch), |branch|;
    var probe := Transaction([TxInput(NULL_DIGEST, height, "", [])], [TxOutput(1, "")]);
    var g := Greedy(rules, c, candidates, height);
    BranchHistory(rules, branch);
    PickedPass(rules, c, probe, candidates, height);
    ProbeOk(probe, g.chosen, height);
    BlockStep(rules, c, AllTxs(branch), [probe] + g.chosen, height);
    ValueLeft(ApplyTxs(c, [probe] + g.chosen, height), g.coins, probe, AllTxs(branch) + ([probe] + g.chosen), height);
  }

  lemma ProbeOk(probe: Transaction, chosen: seq<Transaction>, height: nat)
    requires probe == Transaction([TxInput(NULL_DIGEST, height, "", [])], [TxOutput(1, "")])
    requires forall i :: 0 <= i < |chosen| ==> !IsCoinbase(chosen[i])
    ensures CoinbaseFirst([probe] + chosen, height) && SumOut(probe.outputs) == 1
  {
    assert probe.outputs[..0] == [];
    assert INITIAL_SUBSIDY * HALVING_INTERVAL <= MAX_SUPPLY;
  }

  lemma ValueLeft(full: Coins, working: Coins, cb: Transaction, txs: seq<Transaction>, height: nat)
    requires Ahead(full, working, cb, height) && Indexed(full, txs)
    ensures Total(full.outs) == Total(working.outs) + SumOut(cb.outputs) && Total(working.outs) >= 0
  {
    TotalAfterMake(working.outs, TxId(cb), cb.outputs);
    forall o | o in working.outs ensures working.outs[o].amount > 0 {
      assert full.outs[o] == working.outs[o];
    }
    TotalNonNegative(working.outs);
  }

  /**
   * What a miner assembles is acceptable exactly when the nonce search succeeded, the block is not too big,
   * and there is something to pay the miner: every other check is met by construction. That the coinbase
   * stays within MAX_MONEY is the supply bound.
   */
  lemma {:induction false} AssembledFits(rules: Rules, branch: seq<Block>, candidates: seq<Transaction>,
                      minerKeyHash: string, extraNonce: string, now: int, nonce: int)
    requires ValidBranch(rules, branch)
    ensures var g := Greedy(rules, Replay(branch), candidates, |branch|);
            var b := WithNonce(Assembled(branch, g, minerKeyHash, extraNonce, now), nonce);
            FitsBranch(rules, branch, b) <==>
              && MeetsTarget(rules, b.header)
              && rules.serializedSize(b) <= MAX_BLOCK_BYTES
              && BlockSubsidy(|branch|) + g.fees > 0
  {
    var g := Greedy(rules, Replay(branch), candidates, |branch|);
    var cb := CreateCoinbase(|branch|, minerKeyHash, g.fees, extraNonce);
    PickedPass(rules, Replay(branch), cb, candidates, |branch|);
    FeesWithinValue(rules, branch, candidates);
    SupplyBounded(rules, branch);
    SubsidiesWithinCap(|branch| + 1);
    AssembledCoinbase(cb, g.chosen, |branch|, g.fees, minerKeyHash, extraNonce);
  }

  lemma AssembledCoinbase(cb: Transaction, chosen: seq<Transaction>, height: nat, fees: int, minerKeyHash: string,
                          extraNonce: string)
    requires cb == CreateCoinbase(height, minerKeyHash, fees, extraNonce)
    requires forall i :: 0 <= i < |chosen| ==> !IsCoinbase(chosen[i])
    requires BlockSubsidy(height) + fees <= MAX_MONEY
    ensures CoinbaseOk([cb] + chosen, height, BlockSubsidy(height), fees) <==> BlockSubsidy(height) + fees > 0
  {
    assert cb.outputs[..0] == [];
    assert SumOut(cb.outputs) == BlockSubsidy(height) + fees;
  }

  /** The earliest stamp that is not behind the clock and later than more than half of the last eleven. */
  predicate EarliestStamp(s: seq<Block>, now: int, stamp: int) {
    now <= stamp && TimeRule(s, stamp) && (now < stamp ==> !TimeRule(s, stamp - 1))
  }

  /**
   * A mined block, by the rules: one output that pays subsidy and fees to the miner, the candidates that the rules
   * allow one after the other, the earliest stamp, and everything else that a block has to meet.
   */
  ghost predicate MinedByTheRules(rules: Rules, s: seq<Block>, candidates: seq<Transaction>, minerKeyHash: string,
                                  extraNonce: string, now: int, b: Block)
  {
    && |s| > 0 && |b.transactions| > 0 && b.header.prevHash == HashOf(s[|s| - 1])
    && |b.transactions[0].inputs| == 1 && b.transactions[0].inputs[0].pubkey == extraNonce
    && b.transactions[0].outputs == [TxOutput(BlockSubsidy(|s|) + Fees(b.transactions), minerKeyHash)]
    && EarliestStamp(s, now, b.header.timestamp)
    && (exists at :: TakesInTurn(rules, s, b.transactions[0], candidates, b.transactions[1..], at))
    && BlockRule(rules, s, b)
  }

  lemma {:induction false} AssembledByTheRules(rules: Rules, s: seq<Block>, candidates: seq<Transaction>,
                                               minerKeyHash: string, extraNonce: string, now: int, nonce: int, b: Block)
    requires ValidBranch(rules, s) && FitsBranch(rules, s, b)
    requires var g := Greedy(rules, Replay(s), candidates, |s|);
             b == WithNonce(Assembled(s, g, minerKeyHash, extraNonce, now), nonce)
    ensures MinedByTheRules(rules, s, candidates, minerKeyHash, extraNonce, now, b)
  {
    var g := Greedy(rules, Replay(s), candidates, |s|);
    var cb := CreateCoinbase(|s|, minerKeyHash, g.fees, extraNonce);
    AcceptedShape(rules, s, b);
    assert b.transactions == [cb] + g.chosen && b.transactions[1..] == g.chosen;
    assert CoinbaseFirst([cb], |s|) by { assert b.transactions[0] == cb; }
    PickedReached(rules, s, cb, candidates);
    var at := PicksInTurn(rules, s, cb, candidates);
    TimeExactly(s, b.header.timestamp);
    TimeExactly(s, b.header.timestamp - 1);
    BlockExactly(rules, s, b);
  }

  /** A child of the heaviest tip cannot be stored yet: it would be heavier. */
  lemma TipHasNoChild(rules: Rules, t: BlockTree, tip: Digest, h: Digest)
    requires Sound(rules, t) && Heaviest(t, tip) && h in t.blocks
    ensures t.blocks[h].header.prevHash != tip
  {
    StoredBlock(rules, t, h);
    StoredBlock(rules, t, tip);
    ValidBits(rules, t.branches[h]);
    assert Pow.BitsInRange(Last(t.branches[h]).header.bits);
    WorkGrows(t.branches[tip], t.blocks[h]);
  }

  lemma {:induction false} WorkGrows(s: seq<Block>, b: Block)
    ensures Work(s + [b]) == Work(s) + BlockWork(b)
    ensures Pow.BitsInRange(b.header.bits) ==> Work(s + [b]) > Work(s)
  {
    assert Init(s + [b]) == s;
  }

  /** What add_block makes of an assembled block on the tip: it is stored, or it is invalid; nothing else. */
  lemma {:induction false} MinedFate(rules: Rules, t: BlockTree, tip: Digest, g: Picked, candidates: seq<Transaction>,
                                     minerKeyHash: string, extraNonce: string, now: int, nonce: int, b: Block)
    requires Sound(rules, t) && tip in t.blocks && Heaviest(t, tip)
    requires var s := t.branches[tip];
             && |s| > 0 && Pow.BitsInRange(Last(s).header.bits)
             && g == Greedy(rules, Replay(s), candidates, |s|)
             && b == WithNonce(Assembled(s, g, minerKeyHash, extraNonce, now), nonce)
    ensures b.header.prevHash == tip
    ensures FateOf(rules, t, b, now)
         == if MeetsTarget(rules, b.header) && rules.serializedSize(b) <= MAX_BLOCK_BYTES
               && BlockSubsidy(|t.branches[tip]|) + g.fees > 0 && NotTooEarly(b, now)
            then IsStored else IsInvalid
  {
    StoredBlock(rules, t, tip);
    var s := t.branches[tip];
    AssembledFits(rules, s, candidates, minerKeyHash, extraNonce, now, nonce);
    ExpectedBitsInRange(s);
    AssembledNeverRaises(rules, s, candidates, minerKeyHash, extraNonce, now, nonce);
    FateOnTip(rules, t, tip, b, now);
  }

  lemma {:induction false} AssembledNeverRaises(rules: Rules, s: seq<Block>, candidates: seq<Transaction>,
                                                minerKeyHash: string, extraNonce: string, now: int, nonce: int)
    requires |s| > 0 && Pow.BitsInRange(Last(s).header.bits)
    ensures var g := Greedy(rules, Replay(s), candidates, |s|);
            var b := WithNonce(Assembled(s, g, minerKeyHash, extraNonce, now), nonce);
            !TxsRaise(rules, Replay(s), b.transactions, |s|)
  {
    var g := Greedy(rules, Replay(s), candidates, |s|);
    var cb := CreateCoinbase(|s|, minerKeyHash, g.fees, extraNonce);
    PickedPass(rules, Replay(s), cb, candidates, |s|);
    PassedNeverRaises(rules, Replay(s), [cb] + g.chosen, |s|);
  }

  lemma FateOnTip(rules: Rules, t: BlockTree, tip: Digest, b: Block, now: int)
    requires Sound(rules, t) && tip in t.blocks && Heaviest(t, tip) && |t.branches[tip]| > 0
    requires Pow.BitsInRange(Last(t.branches[tip]).header.bits)
    requires b.header.prevHash == tip && Pow.BitsInRange(b.header.bits)
    requires !TxsRaise(rules, Replay(t.branches[tip]), b.transactions, |t.branches[tip]|)
    ensures FateOf(rules, t, b, now)
         == if FitsBranch(rules, t.branches[tip], b) && NotTooEarly(b, now) then IsStored else IsInvalid
  {
    if HashOf(b) in t.blocks {
      StoredBlock(rules, t, HashOf(b));
      TipHasNoChild(rules, t, tip, HashOf(b));
    }
  }

  lemma {:induction false} StoredFits(rules: Rules, t: BlockTree, tip: Digest, b: Block, now: int)
    requires Sound(rules, t) && tip in t.blocks && b.header.prevHash == tip && FateOf(rules, t, b, now) == IsStored
    ensures ValidBranch(rules, t.branches[tip]) && FitsBranch(rules, t.branches[tip], b)
  {
    StoredBlock(rules, t, tip);
    AcceptedFits(rules, t.branches[tip], b, now);
  }

  /** When mining yields a block, when it yields none, and when an exception of an orphan gets in between. */
  ghost predicate MineOutcome(rules: Rules, p: Pool, candidate: Block, fees: int, height: nat, maxNonce: nat, now: int,
                              result: Option<Block>, raised: bool)
  {
    if !exists n: nat :: n < maxNonce && MeetsTarget(rules, WithNonce(candidate, n).header) then result == None
        && !raised
    else exists n: nat ::
      && FirstNonce(rules, candidate, maxNonce, n)
      && var b := WithNonce(candidate, n);
         if rules.serializedSize(b) <= MAX_BLOCK_BYTES && BlockSubsidy(height) + fees > 0 && NotTooEarly(b, now)
         then if raised then result == None && !NoneWaits(p, HashOf(b)) else result == Some(b)
         else result == None && !raised
  }

  class Node {
    const nodeId: string
    const chain: Blockchain

    constructor (id: string, rules: Rules)
      ensures nodeId == id && fresh(chain) && fresh(chain.utxo) && chain.Valid() && chain.rules == rules
    {
      nodeId := id;
      chain := new Blockchain(rules);
    }

    /**
     * mine_block. `order` is the pool's iteration order and `now` the clock. The block is returned exactly
     * when a nonce is found, the block is not too big, the miner is paid something and the timestamp is
     * within the future bound; nothing else can make validation refuse it.
     */
    method MineBlock(minerKeyHash: string, extraNonce: string, order: seq<Digest>, now: int, maxNonce: nat)
      returns (result: Option<Block>, raised: bool, ghost candidate: Block)
      requires chain.Valid()
      requires forall i :: 0 <= i < |order| ==> order[i] in chain.mempool
      modifies chain, chain.utxo
      ensures chain.Valid()
      ensures var s := old(chain.branches[chain.tip]);
              |s| > 0 && Pow.BitsInRange(Last(s).header.bits) &&
              var g := Greedy(chain.rules, Replay(s), FirstOf(old(chain.mempool), order, 1000), |s|);
              && candidate == Assembled(s, g, minerKeyHash, Nonce(extraNonce), now)
              && MineOutcome(chain.rules, old(chain.orphans), candidate, g.fees, |s|, maxNonce, now, result, raised)
      ensures result.Some? ==> HashOf(result.value) in chain.blocks
      ensures result.Some? ==> MinedByTheRules(chain.rules, old(chain.branches[chain.tip]),
                                               FirstOf(old(chain.mempool), order, 1000), minerKeyHash,
                                               if extraNonce == "" then nodeId else extraNonce, now, result.value)
      ensures result.Some? && NoneWaits(old(chain.orphans), HashOf(result.value)) ==>
                chain.tip == HashOf(result.value) && !raised
    {
      PathsOk(chain.rules, chain.View(), chain.tip);
      StoredBlock(chain.rules, chain.View(), chain.tip);
      ghost var candidates := FirstOf(chain.mempool, order, 1000);
      var block := Assemble(minerKeyHash, extraNonce, order, now);
      candidate := block;
      result, raised := Search(block, candidates, minerKeyHash, Nonce(extraNonce), now, maxNonce);
    }

    function Nonce(extraNonce: string): string {
      if extraNonce == "" then nodeId else extraNonce
    }

    /** The second half of mine_block: find a nonce for the assembled block and hand it to the chain. */
    method Search(block: Block, ghost candidates: seq<Transaction>, ghost minerKeyHash: string, ghost nonce: string,
                  now: int, maxNonce: nat)
      returns (result: Option<Block>, raised: bool)
      requires chain.Valid()
      requires var s := chain.branches[chain.tip];
               |s| > 0 && Pow.BitsInRange(Last(s).header.bits) && Pow.BitsInRange(block.header.bits)
               && block == Assembled(s, Greedy(chain.rules, Replay(s), candidates, |s|), minerKeyHash, nonce, now)
      modifies chain, chain.utxo
      ensures chain.Valid()
      ensures var s := old(chain.branches[chain.tip]);
              MineOutcome(chain.rules, old(chain.orphans), block,
                  Greedy(chain.rules, Replay(s), candidates, |s|).fees, |s|, maxNonce, now, result, raised)
      ensures result.Some? ==> HashOf(result.value) in chain.blocks
      ensures result.Some? ==>
                MinedByTheRules(chain.rules, old(chain.branches[chain.tip]), candidates, minerKeyHash, nonce, now,
                                result.value)
      ensures result.Some? && NoneWaits(old(chain.orphans), HashOf(result.value)) ==>
                chain.tip == HashOf(result.value) && !raised
    {
      var mined := Mine(chain.rules, block, maxNonce);
      if mined.None? { return None, false; }
      ghost var n: nat :| FirstNonce(chain.rules, block, maxNonce, n) && mined.value == WithNonce(block, n);
      ghost var g := Greedy(chain.rules, Replay(chain.branches[chain.tip]), candidates, |chain.branches[chain.tip]|);
      MinedFate(chain.rules, chain.View(), chain.tip, g, candidates, minerKeyHash, nonce, now, n, mined.value);
      ghost var stored := FateOf(chain.rules, chain.View(), mined.value, now) == IsStored;
      if stored {
        StoredFits(chain.rules, chain.View(), chain.tip, mined.value, now);
        AssembledByTheRules(chain.rules, chain.branches[chain.tip], candidates, minerKeyHash, nonce, now, n,
            mined.value);
      }
      result, raised := Submit(mined.value, now);
    }

    /** The last step of mine_block: hand the mined block to the chain. */
    method Submit(mined: Block, now: int) returns (result: Option<Block>, raised: bool)
      requires chain.Valid() && mined.header.prevHash == chain.tip
      requires FateOf(chain.rules, chain.View(), mined, now) in {IsStored, IsInvalid}
      modifies chain, chain.utxo
      ensures chain.Valid()
      ensures FateOf(chain.rules, old(chain.View()), mined, now) == IsInvalid ==> result == None && !raised
      ensures FateOf(chain.rules, old(chain.View()), mined, now) == IsStored ==>
                if raised then result == None
                    && !NoneWaits(old(chain.orphans), HashOf(mined)) else result == Some(mined)
      ensures result.Some? ==> result.value == mined && HashOf(mined) in chain.blocks
      ensures result.Some? && NoneWaits(old(chain.orphans), HashOf(mined)) ==> chain.tip == HashOf(mined) && !raised
    {
      var r := chain.AddBlock(mined, now);
      raised := r == Raised;
      result := if r in {Extended, Reorged} then Some(mined) else None;
    }

    /** The first half of mine_block: bits, transactions, coinbase, timestamp, header. */
    method Assemble(minerKeyHash: string, extraNonce: string, order: seq<Digest>, now: int) returns (block: Block)
      requires PathOk(chain.View(), chain.tip) && chain.tip in chain.heights
      requires |chain.branches[chain.tip]| == chain.heights[chain.tip] + 1
      requires Pow.BitsInRange(Last(chain.branches[chain.tip]).header.bits)
      requires chain.utxo.Contents() == Replay(chain.branches[chain.tip])
      requires PoolOk(chain.rules, chain.mempool) && forall i :: 0 <= i < |order| ==> order[i] in chain.mempool
      ensures var s := chain.branches[chain.tip];
              && Pow.BitsInRange(block.header.bits)
              && var g := Greedy(chain.rules, Replay(s), FirstOf(chain.mempool, order, 1000), |s|);
                 block == Assembled(s, g, minerKeyHash, Nonce(extraNonce), now)
    {
      ExpectedBitsInRange(chain.branches[chain.tip]);
      var height := chain.heights[chain.tip] + 1;
      var bits := chain.ComputeExpectedBits(chain.tip, height);
      var txs, fees := chain.GatherBlockTransactions(order, 1000);
      var coinbase := CreateCoinbase(height, minerKeyHash, fees, Nonce(extraNonce));
      var median := chain.ComputeMedianTimePast(chain.tip);
      block := BuildBlock(chain.tip, [coinbase] + txs, bits, Pow.Max(now, median + 1));
      ghost var s := chain.branches[chain.tip];
      ghost var g := Greedy(chain.rules, Replay(s), FirstOf(chain.mempool, order, 1000), |s|);
      AssembledIs(s, g, minerKeyHash, Nonce(extraNonce), now, chain.tip, coinbase, bits, median);
    }
  }
}
