/** The node's block store with its active chain (node.py, class Blockchain). */
module NodeChain {
  import opened Params
  import opened Ledger
  import opened Results
  import opened CoinSet
  import opened Chain
  import opened Tree
  import Merkle
  import Pow
  import MedianTime

  datatype AddResult = Extended | SideBranch | Reorged | Duplicate | Orphaned | Invalid | Raised

  /** What `add_block` does with a block, before any orphan is looked at. */
  datatype Fate = IsDuplicate | IsOrphan | IsInvalid | IsRaise | IsStored

  ghost function FateOf(rules: Rules, t: BlockTree, b: Block, now: int): Fate
    requires Sound(rules, t)
  {
    if HashOf(b) in t.blocks then IsDuplicate
    else if b.header.prevHash !in t.blocks then IsOrphan
    else
      match VerdictOn(rules, t, b, now)
      case Raise => IsRaise
      case Reject => IsInvalid
      case Accept => IsStored
  }

  /** The confirmed transactions of a chain that a reorganisation may return to the pool. */
  function Returning(txs: seq<Transaction>): map<Digest, Transaction> {
    map t | t in txs && !IsCoinbase(t) :: TxId(t) := t
  }

  /** A pool entry survives a switch to a chain with transactions `confirmed` and index `c`. */
  predicate Survives(rules: Rules, c: Coins, confirmed: seq<Transaction>, height: nat, tx: Transaction) {
    tx !in confirmed && Admits(rules, c, tx, height)
  }

  /** Entries are filed under their ids, and no entry can make verification raise. */
  ghost predicate PoolOk(rules: Rules, pool: map<Digest, Transaction>) {
    forall id :: id in pool ==> id == TxId(pool[id]) && Signed(rules, pool[id])
  }

  /** No entry is confirmed on the branch `s`. */
  ghost predicate Unconfirmed(pool: map<Digest, Transaction>, s: seq<Block>) {
    forall id :: id in pool ==> pool[id] !in AllTxs(s)
  }

  /** `done` followed by the stamps of up to `left` blocks back from position `n`. */
  ghost function Collected(done: seq<int>, s: seq<Block>, n: nat, left: nat): seq<int>
    requires n <= |s|
    decreases left
  {
    if n == 0 || left == 0 then done else Collected(done + [s[n - 1].header.timestamp], s, n - 1, left - 1)
  }

  lemma {:induction false} CollectedIsWindow(done: seq<int>, s: seq<Block>, n: nat, left: nat)
    requires n <= |s|
    ensures Collected(done, s, n, left) == done + MedianTime.Window(s[..n], left)
    decreases left
  {
    if n > 0 && left > 0 {
      CollectedIsWindow(done + [s[n - 1].header.timestamp], s, n - 1, left - 1);
      assert s[..n][..n - 1] == s[..n - 1];
    }
  }

  lemma {:induction false} AllCollected(s: seq<Block>)
    ensures Collected([], s, |s|, MEDIAN_TIME_SPAN) == MedianTime.Window(s, MEDIAN_TIME_SPAN)
  {
    CollectedIsWindow([], s, |s|, MEDIAN_TIME_SPAN);
    assert s[..|s|] == s;
  }

  function HashesOf(s: seq<Block>): (hashes: seq<Digest>)
    ensures |hashes| == |s|
  {
    seq(|s|, i requires 0 <= i < |s| => HashOf(s[i]))
  }

  lemma HashesStep(s: seq<Block>, n: nat)
    requires 0 < n <= |s|
    ensures [HashOf(s[n - 1])] + HashesOf(s)[n..] == HashesOf(s)[n - 1..]
  {
  }

  lemma KeepsBits(s: seq<Block>)
    requires |s| > 0 && Pow.BitsInRange(Last(s).header.bits) && |s| % RETARGET_INTERVAL != 0
    ensures ExpectedBits(s) == Last(s).header.bits
  {
  }

  lemma RetargetsBits(s: seq<Block>)
    requires |s| > 0 && Pow.BitsInRange(Last(s).header.bits) && |s| % RETARGET_INTERVAL == 0
    ensures |s| >= RETARGET_INTERVAL
    ensures var first := s[|s| - RETARGET_INTERVAL].header;
            ExpectedBits(s) == Pow.NextBits(Last(s).header.bits, Last(s).header.timestamp - first.timestamp)
  {
  }

  /** Where the transaction loop stops, its answer is settled. */
  lemma {:induction false} StopsHere(rules: Rules, c: Coins, txs: seq<Transaction>, n: nat, height: nat, raised: bool)
    requires n < |txs| && CheckTxs(rules, c, txs[..n], height).Some? && CheckTxs(rules, c, txs[..n + 1], height).None?
    requires raised <==> TxRaisesAt(rules, c, txs, n, height)
    ensures CheckTxs(rules, c, txs, height).None? && (raised <==> TxsRaise(rules, c, txs, height))
  {
    if raised {
      RaiseRefuses(rules, c, txs, n, height);
    } else {
      RefusalSettles(rules, c, txs, n, height);
    }
  }

  /** A transaction that the index of a branch admits is not on that branch: its inputs would be gone. */
  lemma {:induction false} AdmittedIsNew(rules: Rules, s: seq<Block>, tx: Transaction, height: nat)
    requires ValidBranch(rules, s) && Admits(rules, Replay(s), tx, height)
    ensures tx !in AllTxs(s)
  {
    BranchHistory(rules, s);
    AdmittedIsPresent(rules, Replay(s), tx, height);
    SpendIsNew(Replay(s), AllTxs(s), tx);
  }

  /** What a valid branch has confirmed never makes verification raise again. */
  lemma {:induction false} ConfirmedIsSigned(rules: Rules, s: seq<Block>)
    requires ValidBranch(rules, s)
    ensures AllSigned(rules, AllTxs(s))
  {
    if |s| == 1 {
      GenesisReplay(s, s[0].transactions[0]);
    } else {
      LastLink(rules, s);
      ConfirmedIsSigned(rules, Init(s));
      LastIsSigned(rules, s);
    }
  }

  lemma {:induction false} LastIsSigned(rules: Rules, s: seq<Block>)
    requires ValidBranch(rules, s) && |s| > 1
    ensures AllSigned(rules, Last(s).transactions)
  {
    ValidTail(rules, s);
    CheckedIsSigned(rules, Replay(Init(s)), Last(s).transactions, |s| - 1);
  }

  lemma {:induction false} NextHeight(rules: Rules, t: BlockTree, tip: Digest)
    requires Sound(rules, t) && tip in t.blocks
    ensures t.heights[tip] + 1 == |t.branches[tip]|
  {
    StoredBlock(rules, t, tip);
  }

  /** A transaction that the index of the tip admits keeps the pool in order. */
  lemma {:induction false} PoolGrows(rules: Rules, t: BlockTree, tip: Digest, pool: map<Digest, Transaction>,
                                     tx: Transaction, height: nat)
    requires Sound(rules, t) && tip in t.blocks && Admits(rules, Replay(t.branches[tip]), tx, height)
    requires PoolOk(rules, pool) && Unconfirmed(pool, t.branches[tip])
    ensures PoolOk(rules, pool[TxId(tx) := tx]) && Unconfirmed(pool[TxId(tx) := tx], t.branches[tip])
  {
    AdmittedOnTip(rules, t, tip, tx, height);
    OneMoreEntry(rules, pool, t.branches[tip], tx);
  }

  lemma {:induction false} AdmittedOnTip(rules: Rules, t: BlockTree, tip: Digest, tx: Transaction, height: nat)
    requires Sound(rules, t) && tip in t.blocks && Admits(rules, Replay(t.branches[tip]), tx, height)
    ensures Signed(rules, tx) && tx !in AllTxs(t.branches[tip])
  {
    StoredBlock(rules, t, tip);
    AdmittedIsNew(rules, t.branches[tip], tx, height);
    AdmittedIsSigned(rules, Replay(t.branches[tip]), tx, height);
  }

  lemma {:induction false} OneMoreEntry(rules: Rules, pool: map<Digest, Transaction>, s: seq<Block>, tx: Transaction)
    requires PoolOk(rules, pool) && Unconfirmed(pool, s) && Signed(rules, tx) && tx !in AllTxs(s)
    ensures PoolOk(rules, pool[TxId(tx) := tx]) && Unconfirmed(pool[TxId(tx) := tx], s)
  {
  }

  lemma {:induction false} TipIsSigned(rules: Rules, t: BlockTree, tip: Digest)
    requires Sound(rules, t) && tip in t.blocks
    ensures AllSigned(rules, AllTxs(t.branches[tip]))
  {
    StoredBlock(rules, t, tip);
    ConfirmedIsSigned(rules, t.branches[tip]);
  }

  lemma {:induction false} CheckedIsSigned(rules: Rules, c: Coins, txs: seq<Transaction>, height: nat)
    requires CheckTxs(rules, c, txs, height).Some?
    ensures AllSigned(rules, txs)
  {
    if |txs| > 0 {
      CheckedIsSigned(rules, c, Init(txs), height);
      InitLast([], txs);
    }
  }

  ghost predicate AllSigned(rules: Rules, txs: seq<Transaction>) {
    forall tx :: tx in txs && !IsCoinbase(tx) ==> Signed(rules, tx)
  }

  /** Removing a block's own transactions keeps the pool apart from the branch the block extends. */
  lemma StillUnconfirmed(rules: Rules, pool: map<Digest, Transaction>, s: seq<Block>, b: Block)
    requires PoolOk(rules, pool) && Unconfirmed(pool, s)
    ensures var pool' := WithoutTxs(pool, b.transactions);
            PoolOk(rules, pool') && Unconfirmed(pool', s + [b])
  {
    assert Init(s + [b]) == s;
    forall id | id in WithoutTxs(pool, b.transactions) ensures pool[id] !in b.transactions {
      assert TxId(pool[id]) !in IdSet(b.transactions);
    }
  }

  lemma {:induction false} ReplayStep(s: seq<Block>, b: Block)
    ensures Replay(s + [b]) == ApplyTxs(Replay(s), b.transactions, |s|)
  {
    assert (s + [b])[..|s|] == s;
  }

  function IdSet(txs: seq<Transaction>): set<Digest> {
    set i | 0 <= i < |txs| :: TxId(txs[i])
  }

  function WithoutTxs(pool: map<Digest, Transaction>, txs: seq<Transaction>): map<Digest, Transaction> {
    pool - IdSet(txs)
  }

  lemma WithoutIds(pool: map<Digest, Transaction>, txs: seq<Transaction>)
    ensures forall id :: id in WithoutTxs(pool, txs) <==> id in pool && forall t :: t in txs ==> TxId(t) != id
    ensures forall id :: id in WithoutTxs(pool, txs) ==> WithoutTxs(pool, txs)[id] == pool[id]
  {
    forall id ensures id in IdSet(txs) <==> exists t :: t in txs && TxId(t) == id {
      if t :| t in txs && TxId(t) == id {
        var i :| 0 <= i < |txs| && txs[i] == t;
        assert TxId(txs[i]) in IdSet(txs);
      }
    }
  }

  /**
   * The pool after a switch from branch `s` to branch `s'`: exactly the transactions that were pooled,
   * or confirmed on `s` without being coinbases, that `s'` has not confirmed and its index still admits
   * at the next height.
   */
  ghost predicate PoolAfterReorg(rules: Rules, before: map<Digest, Transaction>, after: map<Digest, Transaction>,
                                 s: seq<Block>, s': seq<Block>)
  {
    forall tx :: TxId(tx) in after <==>
      && (TxId(tx) in before || (tx in AllTxs(s) && !IsCoinbase(tx)))
      && tx !in AllTxs(s')
      && Admits(rules, Replay(s'), tx, |s'|)
  }

  ghost predicate PoolReturned(rules: Rules, before: map<Digest, Transaction>, after: map<Digest, Transaction>,
                               back: map<Digest, Transaction>, confirmed: seq<Transaction>, c: Coins, height: nat)
  {
    && (forall id :: id in after <==> id in before || (id in back && Survives(rules, c, confirmed, height, back[id])))
    && (forall id :: id in after ==> (id in back && after[id] == back[id]) || (id in before && after[id] == before[id]))
  }

  ghost predicate PoolDropped(rules: Rules, before: map<Digest, Transaction>, after: map<Digest, Transaction>,
                              confirmed: seq<Transaction>, c: Coins, height: nat)
  {
    && (forall id :: id in after <==> id in before && Survives(rules, c, confirmed, height, before[id]))
    && (forall id :: id in after ==> after[id] == before[id])
  }

  lemma ReturnedIsOk(rules: Rules, before: map<Digest, Transaction>, between: map<Digest, Transaction>,
                     abandoned: seq<Transaction>, confirmed: seq<Transaction>, c: Coins, height: nat)
    requires PoolOk(rules, before) && AllSigned(rules, abandoned)
    requires PoolReturned(rules, before, between, Returning(abandoned), confirmed, c, height)
    ensures PoolOk(rules, between)
  {
  }

  /** The pool holds what it held and what was abandoned, as far as it survives. */
  ghost predicate Rebuilt(rules: Rules, before: map<Digest, Transaction>, after: map<Digest, Transaction>,
                          abandoned: seq<Transaction>, confirmed: seq<Transaction>, c: Coins, height: nat)
  {
    forall tx :: TxId(tx) in after <==>
      && (TxId(tx) in before || (tx in abandoned && !IsCoinbase(tx)))
      && Survives(rules, c, confirmed, height, tx)
  }

  /** The two loops of a reorganisation compose to the rule of `PoolAfterReorg`. */
  lemma PoolRebuilt(rules: Rules, before: map<Digest, Transaction>, between: map<Digest, Transaction>,
                    after: map<Digest, Transaction>, abandoned: seq<Transaction>, confirmed: seq<Transaction>,
                    c: Coins, height: nat)
    requires PoolOk(rules, before) && PoolReturned(rules, before, between, Returning(abandoned), confirmed, c, height)
    requires PoolDropped(rules, between, after, confirmed, c, height)
    ensures PoolOk(rules, after) && forall id :: id in after ==> after[id] !in confirmed
    ensures Rebuilt(rules, before, after, abandoned, confirmed, c, height)
  {
    forall id | id in between ensures id == TxId(between[id]) {}
    forall tx
      ensures TxId(tx) in Returning(abandoned) <==> tx in abandoned && !IsCoinbase(tx)
      ensures TxId(tx) in Returning(abandoned) ==> Returning(abandoned)[TxId(tx)] == tx
    {
    }
  }

  /** What the pool asks of a new transaction. */
  predicate PoolAccepts(rules: Rules, pool: map<Digest, Transaction>, c: Coins, tx: Transaction, height: nat) {
    && TxId(tx) !in pool
    && |pool| < MAX_MEMPOOL_TXS
    && Admits(rules, c, tx, height)
    && Fee(c.outs, tx) >= MIN_RELAY_FEE
  }

  /** The code add_block answers with for a stored block, given the tree with the block and the tip before it. */
  ghost function ResultCode(t: BlockTree, b: Block, tip: Digest): AddResult
    requires HashOf(b) in t.chainwork && tip in t.chainwork
  {
    if b.header.prevHash == tip then Extended
    else if t.chainwork[HashOf(b)] > t.chainwork[tip] then Reorged
    else SideBranch
  }

  /** The code by the hashes two branches took: a block off the tip reorganises exactly when its branch took more. */
  ghost predicate CodeByHashes(branches: map<Digest, seq<Block>>, b: Block, tip: Digest, r: AddResult) {
    && HashOf(b) in branches && tip in branches
    && (r == Extended <==> b.header.prevHash == tip)
    && (r == Reorged <==> b.header.prevHash != tip && Hashes(branches[HashOf(b)]) > Hashes(branches[tip]))
    && (r == SideBranch <==> b.header.prevHash != tip && Hashes(branches[HashOf(b)]) <= Hashes(branches[tip]))
  }

  lemma CodeCountsHashes(rules: Rules, t: BlockTree, b: Block, tip: Digest)
    requires Sound(rules, t) && HashOf(b) in t.blocks && tip in t.blocks
    ensures CodeByHashes(t.branches, b, tip, ResultCode(t, b, tip))
  {
    WorkOnFile(rules, t, HashOf(b));
    WorkOnFile(rules, t, tip);
  }

  /** The work a node has on file for a block counts the hashes of its branch. */
  lemma WorkOnFile(rules: Rules, t: BlockTree, h: Digest)
    requires Sound(rules, t) && h in t.blocks
    ensures h in t.branches && t.chainwork[h] == Hashes(t.branches[h])
  {
    StoredBlock(rules, t, h);
    WorkIsHashes(t.branches[h]);
  }

  /** No stored branch took more hashes than the active one. */
  ghost predicate MostHashes(branches: map<Digest, seq<Block>>, tip: Digest) {
    tip in branches && forall h :: h in branches ==> Hashes(branches[h]) <= Hashes(branches[tip])
  }

  lemma HeaviestTookMost(rules: Rules, t: BlockTree, tip: Digest)
    requires Sound(rules, t) && Heaviest(t, tip)
    ensures MostHashes(t.branches, tip)
  {
    WorkOnFile(rules, t, tip);
    forall h | h in t.branches ensures Hashes(t.branches[h]) <= Hashes(t.branches[tip]) {
      WorkOnFile(rules, t, h);
    }
  }

  /** The result code of a stored block, and what it did to the tip and the pool. */
  ghost predicate StoreOutcome(rules: Rules, t: BlockTree, b: Block, tip: Digest, tip': Digest,
                               pool: map<Digest, Transaction>, pool': map<Digest, Transaction>, r: AddResult)
  {
    var h := HashOf(b);
    && h in t.chainwork && tip in t.chainwork && h in t.branches && tip in t.branches
    && r == ResultCode(t, b, tip)
    && match r
       case Extended => tip' == h && pool' == WithoutTxs(pool, b.transactions)
       case Reorged => tip' == h && PoolAfterReorg(rules, pool, pool', t.branches[tip], t.branches[h])
       case _ => tip' == tip && pool' == pool
  }

  /** What add_block does to the tree and to the orphan pool, case by case. */
  ghost predicate AddOutcome(rules: Rules, now: int, t0: BlockTree, t1: BlockTree, p0: Pool, p1: Pool, b: Block,
                             r: AddResult)
    requires Sound(rules, t0) && Sound(rules, t1)
  {
    var h := HashOf(b);
    match FateOf(rules, t0, b, now)
    case IsDuplicate => r == Duplicate && t1 == t0 && p1 == p0
    case IsOrphan => r == Orphaned && t1 == t0 && p1 == p0[h := b]
    case IsInvalid => r == Invalid && t1 == t0 && p1 == p0
    case IsRaise => r == Raised && t1 == t0 && p1 == p0
    case IsStored =>
      && r in {Extended, SideBranch, Reorged, Raised}
      && Connected(rules, now, {h}, Graft(t0, b), t1, p0, p1)
      && h in t1.blocks
      && (r != Raised ==> Drained({h}, Graft(t0, b), t1, p1))
      && (r == Raised <==> Struck(rules, now, t1, p0, p1)) && StruckOnce(rules, now, t1, p0, p1)
      && (r == Raised ==> Behind(rules, now, {h}, Graft(t0, b), t1, p0, p1))
  }

  lemma StoredMeans(rules: Rules, now: int, t0: BlockTree, t1: BlockTree, p0: Pool, p1: Pool, b: Block, r: AddResult,
                    raised: bool)
    requires Sound(rules, t0) && Sound(rules, t1) && FateOf(rules, t0, b, now) == IsStored
    requires Sound(rules, Graft(t0, b)) && Connected(rules, now, {HashOf(b)}, Graft(t0, b), t1, p0, p1)
    requires r in {Extended, SideBranch, Reorged, Raised} && (r == Raised <==> raised)
    requires !raised ==> Drained({HashOf(b)}, Graft(t0, b), t1, p1)
    requires (raised <==> Struck(rules, now, t1, p0, p1)) && StruckOnce(rules, now, t1, p0, p1)
    requires raised ==> Behind(rules, now, {HashOf(b)}, Graft(t0, b), t1, p0, p1)
    ensures AddOutcome(rules, now, t0, t1, p0, p1, b, r)
  {
    ExtendsKeeps(Graft(t0, b), t1, HashOf(b));
  }

  /** The state after one retry: the loop goes on with `todo`, or an exception ends it. */
  ghost predicate RetryOutcome(rules: Rules, now: int, parent: Digest, todo: set<Digest>,
                               t0: BlockTree, t: BlockTree, p0: Pool, p: Pool, raised: bool)
    requires Sound(rules, t)
  {
    && Connected(rules, now, {parent}, t0, t, p0, p) && (!raised ==> Waiting(parent, todo, t0, t, p))
    && (raised <==> Struck(rules, now, t, p0, p)) && StruckOnce(rules, now, t, p0, p)
    && (raised ==> Behind(rules, now, {parent}, t0, t, p0, p))
  }

  /** One retry of the orphan loop, whatever became of the orphan. */
  lemma AfterRetry(rules: Rules, now: int, parent: Digest, todo: set<Digest>,
                   t0: BlockTree, t1: BlockTree, t2: BlockTree, p0: Pool, p1: Pool, p2: Pool, k: Digest, r: AddResult)
    requires Round(rules, now, {parent}, t0, t1, p0, p1, k) && Sound(rules, t2)
    requires Waiting(parent, todo, t0, t1, p1) && k in todo && !Struck(rules, now, t1, p0, p1)
    requires AddOutcome(rules, now, t1, t2, p1 - {k}, p2, p1[k], r)
    ensures RetryOutcome(rules, now, parent, todo - {k}, t0, t2, p0, p2, r == Raised)
  {
    var b := p1[k];
    assert b.header.prevHash == parent && parent in t1.blocks && k !in t1.blocks;
    if VerdictOn(rules, t1, b, now) == Accept {
      AfterStored(rules, now, parent, todo, t0, t1, t2, p0, p1, p2, k, r);
    } else {
      OneLessOrphan(rules, now, {parent}, t0, t1, p0, p1, k);
      WaitingAfterRefusal(parent, todo, t0, t1, p1, k);
      StruckHere(rules, now, t1, p0, p1, k);
      BehindHere(rules, now, parent, todo, t0, t1, p0, p1, k);
    }
  }

  lemma AfterStored(rules: Rules, now: int, parent: Digest, todo: set<Digest>,
                    t0: BlockTree, t1: BlockTree, t2: BlockTree, p0: Pool, p1: Pool, p2: Pool, k: Digest, r: AddResult)
    requires Round(rules, now, {parent}, t0, t1, p0, p1, k) && Sound(rules, t2)
    requires Waiting(parent, todo, t0, t1, p1) && k in todo && !Struck(rules, now, t1, p0, p1)
    requires FateOf(rules, t1, p1[k], now) == IsStored
    requires AddOutcome(rules, now, t1, t2, p1 - {k}, p2, p1[k], r)
    ensures RetryOutcome(rules, now, parent, todo - {k}, t0, t2, p0, p2, r == Raised)
  {
    RetryStored(rules, now, parent, todo, t0, t1, t2, p0, p1, p2, k, r);
    RetryStrikes(rules, now, t1, t2, p0, p1, p2, k, r);
    if r == Raised { RetryBehind(rules, now, parent, todo, t0, t1, t2, p0, p1, p2, k); }
  }

  lemma RetryFollows(rules: Rules, now: int, parent: Digest, t0: BlockTree, t1: BlockTree, t2: BlockTree,
                     p0: Pool, p1: Pool, p2: Pool, k: Digest, r: AddResult)
    requires Round(rules, now, {parent}, t0, t1, p0, p1, k) && Sound(rules, t2)
    requires FateOf(rules, t1, p1[k], now) == IsStored
    requires AddOutcome(rules, now, t1, t2, p1 - {k}, p2, p1[k], r)
    ensures Follows(rules, now, t1, t2, p1, p2, k) && Extends(t1, t2)
  {
    StoredSays(rules, now, t1, t2, p1 - {k}, p2, p1[k], r);
  }

  /** The outcome for a block that is stored. */
  lemma StoredSays(rules: Rules, now: int, t0: BlockTree, t1: BlockTree, p0: Pool, p1: Pool, b: Block, r: AddResult)
    requires Sound(rules, t0) && Sound(rules, t1)
    requires FateOf(rules, t0, b, now) == IsStored && AddOutcome(rules, now, t0, t1, p0, p1, b, r)
    ensures HashOf(b) !in t0.blocks && b.header.prevHash in t0.blocks && NotTooEarly(b, now) && HashOf(b) in t1.blocks
    ensures Connected(rules, now, {HashOf(b)}, Graft(t0, b), t1, p0, p1) && Extends(t0, t1)
  {
    GraftExtends(t0, b);
  }

  lemma RetryCalm(rules: Rules, now: int, parent: Digest, t0: BlockTree, t1: BlockTree, t2: BlockTree,
                  p0: Pool, p1: Pool, k: Digest)
    requires Round(rules, now, {parent}, t0, t1, p0, p1, k) && Sound(rules, t2) && Extends(t1, t2)
    requires !Struck(rules, now, t1, p0, p1) && FateOf(rules, t1, p1[k], now) == IsStored
    ensures !Struck(rules, now, t2, p0, p1) && !Strikes(rules, now, t2, p1[k])
  {
    StillNotStruck(rules, now, t1, t2, p0, p1);
    VerdictKept(rules, t1, t2, p1[k], now);
  }

  lemma {:induction false} RetryBehind(rules: Rules, now: int, parent: Digest, todo: set<Digest>, t0: BlockTree,
                                       t1: BlockTree, t2: BlockTree,
                                       p0: Pool, p1: Pool, p2: Pool, k: Digest)
    requires Round(rules, now, {parent}, t0, t1, p0, p1, k) && Sound(rules, t2)
    requires Waiting(parent, todo, t0, t1, p1) && k in todo && !Struck(rules, now, t1, p0, p1)
    requires FateOf(rules, t1, p1[k], now) == IsStored
    requires AddOutcome(rules, now, t1, t2, p1 - {k}, p2, p1[k], Raised)
    ensures Behind(rules, now, {parent}, t0, t2, p0, p2)
  {
    RetryFollows(rules, now, parent, t0, t1, t2, p0, p1, p2, k, Raised);
    RetryCalm(rules, now, parent, t0, t1, t2, p0, p1, k);
    BehindThere(rules, now, parent, todo, t0, t1, t2, p0, p1, p2, k);
  }

  lemma RetryStrikes(rules: Rules, now: int, t1: BlockTree, t2: BlockTree, p0: Pool, p1: Pool, p2: Pool, k: Digest,
                     r: AddResult)
    requires Sound(rules, t1) && Sound(rules, t2) && SubPool(p1, p0) && k in p1
    requires forall j :: j in p0 && j !in p1 ==> p0[j].header.prevHash in t1.blocks
    requires FateOf(rules, t1, p1[k], now) == IsStored && !Struck(rules, now, t1, p0, p1)
    requires AddOutcome(rules, now, t1, t2, p1 - {k}, p2, p1[k], r)
    ensures (r == Raised <==> Struck(rules, now, t2, p0, p2)) && StruckOnce(rules, now, t2, p0, p2)
  {
    GraftExtends(t1, p1[k]);
    assert Extends(t1, t2);
    StillNotStruck(rules, now, t1, t2, p0, p1);
    VerdictKept(rules, t1, t2, p1[k], now);
    StruckInside(rules, now, t2, p0, p1, p2, k);
  }

  lemma RetryStored(rules: Rules, now: int, parent: Digest, todo: set<Digest>,
                    t0: BlockTree, t1: BlockTree, t2: BlockTree, p0: Pool, p1: Pool, p2: Pool, k: Digest, r: AddResult)
    requires Round(rules, now, {parent}, t0, t1, p0, p1, k) && Sound(rules, t2)
    requires Waiting(parent, todo, t0, t1, p1) && k in todo
    requires FateOf(rules, t1, p1[k], now) == IsStored
    requires AddOutcome(rules, now, t1, t2, p1 - {k}, p2, p1[k], r)
    ensures Connected(rules, now, {parent}, t0, t2, p0, p2)
    ensures r != Raised ==> Waiting(parent, todo - {k}, t0, t2, p2)
  {
    RetryFollows(rules, now, parent, t0, t1, t2, p0, p1, p2, k, r);
    OneMoreOrphan(rules, now, {parent}, t0, t1, t2, p0, p1, p2, k);
    if r != Raised {
      WaitingAfterStore(rules, now, parent, todo, t0, t1, t2, p1, p2, k);
    }
  }

  /** What block assembly has picked: the transactions, the index after them, and their fees. */
  datatype Picked = Picked(chosen: seq<Transaction>, coins: Coins, fees: int)

  function PickOne(rules: Rules, g: Picked, tx: Transaction, height: nat): Picked {
    if Admits(rules, g.coins, tx, height)
    then Picked(g.chosen + [tx], ApplyTx(g.coins, tx, height), g.fees + Fee(g.coins.outs, tx))
    else g
  }

  function Greedy(rules: Rules, c: Coins, candidates: seq<Transaction>, height: nat): Picked {
    if |candidates| == 0 then Picked([], c, 0)
    else PickOne(rules, Greedy(rules, c, Init(candidates), height), Last(candidates), height)
  }

  lemma {:induction false} GreedyStep(rules: Rules, c: Coins, candidates: seq<Transaction>, i: nat, height: nat)
    requires i < |candidates|
    ensures Greedy(rules, c, candidates[..i + 1], height)
         == PickOne(rules, Greedy(rules, c, candidates[..i], height), candidates[i], height)
  {
    assert Init(candidates[..i + 1]) == candidates[..i];
  }

  /** `list(pool.values())[:maxTxs]`, for a given iteration order. */
  function FirstOf(pool: map<Digest, Transaction>, order: seq<Digest>, maxTxs: nat): (first: seq<Transaction>)
    requires forall i :: 0 <= i < |order| ==> order[i] in pool
    ensures |first| <= maxTxs && |first| <= |order| && (|first| == maxTxs || |first| == |order|)
    ensures forall i :: 0 <= i < |first| ==> first[i] == pool[order[i]]
  {
    seq(if |order| < maxTxs then |order| else maxTxs,
        i requires 0 <= i < |order| => pool[order[i]])
  }

  ghost predicate NoneWaits(p: Pool, h: Digest) {
    forall k :: k in p ==> p[k].header.prevHash != h
  }

  lemma NothingWaits(rules: Rules, now: int, t: BlockTree, p: Pool, h: Digest, waiting: set<Digest>)
    requires Sound(rules, t) && waiting == {} && waiting == set k | k in p && p[k].header.prevHash == h
    ensures NoneWaits(p, h) && Drained({h}, t, t, p) && !Struck(rules, now, t, p, p) && StruckOnce(rules, now, t, p, p)
  {
    assert forall k :: k in p && p[k].header.prevHash == h ==> k in waiting;
  }

  class Blockchain {
    const rules: Rules
    var blocks: map<Digest, Block>
    var heights: map<Digest, nat>
    var chainwork: map<Digest, nat>
    var tip: Digest
    var utxo: UTXOSet
    var mempool: map<Digest, Transaction>
    var orphans: map<Digest, Block>
    ghost var branches: map<Digest, seq<Block>>

    ghost function View(): BlockTree
      reads this
    {
      BlockTree(blocks, heights, chainwork, branches)
    }

    /** Holds in every reachable state, also after an exception. */
    ghost predicate Valid()
      reads this, utxo
    {
      && Sound(rules, View())
      && Heaviest(View(), tip)
      && utxo.Contents() == Replay(branches[tip])
      && (forall k :: k in orphans ==> HashOf(orphans[k]) == k)
      && PoolOk(rules, mempool) && Unconfirmed(mempool, branches[tip])
    }

    constructor (maturityAndPrimitives: Rules)
      ensures Valid() && rules == maturityAndPrimitives && fresh(utxo)
      ensures blocks == map[GENESIS_HASH := GENESIS] && tip == GENESIS_HASH
      ensures mempool == map[] && orphans == map[]
    {
      rules := maturityAndPrimitives;
      blocks := map[GENESIS_HASH := GENESIS];
      heights := map[GENESIS_HASH := 0];
      chainwork := map[GENESIS_HASH := BlockWork(GENESIS)];
      tip := GENESIS_HASH;
      utxo := new UTXOSet();
      mempool := map[];
      orphans := map[];
      branches := map[GENESIS_HASH := [GENESIS]];
      new;
      utxo.ApplyBlock(GENESIS, 0);
      GenesisAlone(rules);
      assert Init([GENESIS]) == [];
    }

    // ----- queries -------------------------------------------------------------- //

    /** _ancestry: walk the parents back to genesis, then put genesis first. */
    method Ancestry(h: Digest) returns (hashes: seq<Digest>)
      requires PathOk(View(), h)
      ensures hashes == HashesOf(branches[h])
    {
      ghost var t, s, n := View(), branches[h], |branches[h]|;
      hashes := [];
      var cur := h;
      while true
        invariant 0 < n <= |s| && cur == HashOf(s[n - 1])
        invariant hashes == HashesOf(s)[n..]
        decreases n
      {
        assert StepOk(t, s, n - 1);
        HashesStep(s, n);
        hashes := [cur] + hashes;
        n := n - 1;
        if cur == GENESIS_HASH { break; }
        cur := blocks[cur].header.prevHash;
      }
    }

    /** active_chain. */
    method ActiveChain() returns (hashes: seq<Digest>)
      requires PathOk(View(), tip)
      ensures hashes == HashesOf(branches[tip])
    {
      hashes := Ancestry(tip);
    }

    /** _expected_bits for a child of `prev`. */
    method ComputeExpectedBits(prev: Digest, height: nat) returns (bits: int)
      requires PathOk(View(), prev) && height == |branches[prev]|
      requires Pow.BitsInRange(Last(branches[prev]).header.bits)
      ensures bits == ExpectedBits(branches[prev])
    {
      ghost var t, s := View(), branches[prev];
      assert StepOk(t, s, |s| - 1);
      var parent := blocks[prev];
      if height % RETARGET_INTERVAL != 0 {
        KeepsBits(s);
        return parent.header.bits;
      }
      var hashes := Ancestry(prev);
      RetargetsBits(s);
      var at := |hashes| - RETARGET_INTERVAL;
      assert StepOk(t, s, at);
      var first := blocks[hashes[at]];
      bits := Pow.NextBits(parent.header.bits, parent.header.timestamp - first.header.timestamp);
    }

    /** median_time_past: collect up to eleven stamps from `h` back, sort, take the middle one. */
    method ComputeMedianTimePast(h: Digest) returns (median: int)
      requires PathOk(View(), h)
      ensures median == MedianTime.MedianTimePast(branches[h])
    {
      var stamps := CollectStamps(h);
      var sorted := MedianTime.Sorted(stamps);
      median := sorted[|sorted| / 2];
    }

    /** Its loop: the stamps of up to eleven blocks, walking back from `h`. */
    method CollectStamps(h: Digest) returns (stamps: seq<int>)
      requires PathOk(View(), h)
      ensures stamps == MedianTime.Window(branches[h], MEDIAN_TIME_SPAN)
    {
      ghost var t, s := View(), branches[h];
      AllCollected(s);
      stamps := [];
      var cur := h;
      ghost var n := |s|;
      for left := MEDIAN_TIME_SPAN downto 0
        invariant 0 < n <= |s| && cur == HashOf(s[n - 1])
        invariant Collected(stamps, s, n, left) == MedianTime.Window(s, MEDIAN_TIME_SPAN)
      {
        assert StepOk(t, s, n - 1);
        var b := blocks[cur];
        stamps := stamps + [b.header.timestamp];
        n := n - 1;
        if cur == GENESIS_HASH { break; }
        cur := b.header.prevHash;
      }
    }

    /** _utxo_for_branch: replay the ancestry of `h` from an empty index. */
    method UtxoForBranch(h: Digest) returns (u: UTXOSet)
      requires PathOk(View(), h)
      ensures fresh(u) && u.Contents() == Replay(branches[h])
    {
      ghost var t, s := View(), branches[h];
      u := new UTXOSet();
      var hashes := Ancestry(h);
      for i := 0 to |hashes|
        invariant fresh(u) && u.Contents() == Replay(s[..i])
      {
        assert StepOk(t, s, i);
        u.ApplyBlock(blocks[hashes[i]], i);
        assert Init(s[..i + 1]) == s[..i];
      }
      assert s[..|hashes|] == s;
    }

    // ----- block validation -------------------------------------------------------- //

    /** One round of the transaction loop of _validate_block. */
    method CheckNext(working: UTXOSet, tx: Transaction, first: bool, before: int, height: nat)
      returns (fees: Option<int>, raised: bool)
      modifies working
      ensures raised <==> AdmitRaises(rules, old(working.Contents()), tx, height)
      ensures var checked := CheckOne(rules, Checked(old(working.Contents()), before), tx, first, height);
              if checked.None? then fees == None
              else fees == Some(checked.value.fees) && working.Contents() == checked.value.coins
    {
      if IsCoinbase(tx) {
        return if first then Some(before) else None, false;
      }
      var ok := working.ValidateTransaction(rules, tx, height);
      if ok.None? { return None, true; }
      if !ok.value { return None, false; }
      var fee := ComputeFee(working.utxos, tx);
      working.ApplyTransaction(tx, height);
      fees, raised := Some(before + fee), false;
    }

    /** The transaction loop of _validate_block: `working` starts as the parent's index. */
    method CheckTransactions(working: UTXOSet, txs: seq<Transaction>, height: nat)
      returns (fees: Option<int>, raised: bool)
      modifies working
      ensures raised <==> TxsRaise(rules, old(working.Contents()), txs, height)
      ensures var checked := CheckTxs(rules, old(working.Contents()), txs, height);
              fees == if checked.Some? then Some(checked.value.fees) else None
    {
      ghost var c := working.Contents();
      fees, raised := Some(0), false;
      for i := 0 to |txs|
        invariant !raised && fees.Some?
        invariant CheckTxs(rules, c, txs[..i], height) == Some(Checked(working.Contents(), fees.value))
      {
        CheckStep(rules, c, txs, i, height);
        fees, raised := CheckNext(working, txs[i], i == 0, fees.value, height);
        if fees.None? {
          StopsHere(rules, c, txs, i, height, raised);
          return None, raised;
        }
      }
      assert txs[..|txs|] == txs;
      PassedNeverRaises(rules, c, txs, height);
    }

    /** The last part of _validate_block: the transactions in order, then the coinbase. */
    method CheckBody(txs: seq<Transaction>, prev: Digest, height: nat) returns (v: Verdict)
      requires PathOk(View(), prev) && height == |branches[prev]| && |txs| > 0
      ensures v == if TxsRaise(rules, Replay(branches[prev]), txs, height) then Raise
                   else if TransactionsOk(rules, branches[prev], txs) then Accept else Reject
    {
      var working := UtxoForBranch(prev);
      var fees, raised := CheckTransactions(working, txs, height);
      if raised { return Raise; }
      if fees.None? { return Reject; }
      var ok := ValidateCoinbase(txs, height, BlockSubsidy(height), fees.value);
      v := if ok then Accept else Reject;
    }

    /** The header carries the Merkle root of the transactions. */
    method CommitsTo(block: Block) returns (ok: bool)
      requires |block.transactions| > 0
      ensures ok <==> block.header.merkleRoot == Merkle.Root(TxIds(block.transactions))
    {
      var root := Merkle.MerkleRoot(TxIds(block.transactions));
      Merkle.DigestsAreSimple(TxIds(block.transactions));
      ok := root == Some(block.header.merkleRoot);
    }

    /** _validate_block. `Raise` is an exception: bits without a target, or a key nobody can read. */
    method ValidateBlock(block: Block, prev: Digest, height: nat, now: int) returns (v: Verdict)
      requires PathOk(View(), prev) && height == |branches[prev]|
      requires Pow.BitsInRange(Last(branches[prev]).header.bits)
      ensures v == Judge(rules, branches[prev], block, now)
    {
      if |block.transactions| == 0 { return Reject; }
      if rules.serializedSize(block) > MAX_BLOCK_BYTES { return Reject; }
      var target := Pow.BitsToTarget(block.header.bits);
      if target.None? { return Raise; }
      if rules.digestValue(HashOf(block)) >= target.value { return Reject; }
      var committed := CommitsTo(block);
      if !committed { return Reject; }
      var bits := ComputeExpectedBits(prev, height);
      if block.header.bits != bits { return Reject; }
      if block.header.timestamp > now + MAX_FUTURE_TIME { return Reject; }
      var median := ComputeMedianTimePast(prev);
      if block.header.timestamp <= median { return Reject; }
      AcceptedFits(rules, branches[prev], block, now);
      v := CheckBody(block.transactions, prev, height);
    }

    // ----- mempool -------------------------------------------------------------------- //

    /** Every transaction confirmed on the path to `h`, in order. */
    method ConfirmedTxs(h: Digest) returns (txs: seq<Transaction>)
      requires PathOk(View(), h)
      ensures txs == AllTxs(branches[h])
    {
      ghost var t, s := View(), branches[h];
      var hashes := Ancestry(h);
      txs := [];
      for i := 0 to |hashes|
        invariant txs == AllTxs(s[..i])
      {
        assert StepOk(t, s, i);
        assert Init(s[..i + 1]) == s[..i];
        txs := txs + blocks[hashes[i]].transactions;
      }
      assert s[..|hashes|] == s;
    }

    method RemoveBlockTxsFromMempool(block: Block)
      modifies this`mempool
      ensures mempool == WithoutTxs(old(mempool), block.transactions)
      ensures forall id :: id in mempool <==>
                id in old(mempool) && forall t :: t in block.transactions ==> TxId(t) != id
      ensures forall id :: id in mempool ==> mempool[id] == old(mempool)[id]
    {
      var txs := block.transactions;
      for i := 0 to |txs|
        invariant mempool == WithoutTxs(old(mempool), txs[..i])
      {
        mempool := mempool - {TxId(txs[i])};
        assert IdSet(txs[..i + 1]) == IdSet(txs[..i]) + {TxId(txs[i])};
      }
      assert txs[..|txs|] == txs;
      WithoutIds(old(mempool), txs);
    }

    /** First loop of _reorg_to: abandoned transactions come back if they are still good. */
    method ReturnTxs(back: map<Digest, Transaction>, confirmed: seq<Transaction>, height: nat)
      modifies this`mempool
      requires forall id :: id in back ==> Signed(rules, back[id])
      ensures PoolReturned(rules, old(mempool), mempool, back, confirmed, utxo.Contents(), height)
    {
      ghost var c, pool := utxo.Contents(), mempool;
      var todo := back.Keys;
      while todo != {}
        invariant todo <= back.Keys
        invariant forall id :: id in mempool <==>
                    id in pool || (id in back && id !in todo && Survives(rules, c, confirmed, height, back[id]))
        invariant forall id :: id in mempool ==>
                    (id in back && mempool[id] == back[id]) || (id in pool && mempool[id] == pool[id])
        decreases todo
      {
        var id :| id in todo;
        todo := todo - {id};
        if back[id] !in confirmed {
          SignedNeverRaises(rules, utxo.utxos, back[id]);
          var ok := utxo.ValidateTransaction(rules, back[id], height);
          if ok.value {
            mempool := mempool[id := back[id]];
          }
        }
      }
    }

    /** Second loop of _reorg_to: drop what the new chain confirmed or invalidated. */
    method DropTxs(confirmed: seq<Transaction>, height: nat)
      modifies this`mempool
      requires PoolOk(rules, mempool)
      ensures PoolDropped(rules, old(mempool), mempool, confirmed, utxo.Contents(), height)
    {
      ghost var c, pool := utxo.Contents(), mempool;
      var todo := mempool.Keys;
      while todo != {}
        invariant todo <= mempool.Keys <= pool.Keys
        invariant forall id :: id in mempool ==> mempool[id] == pool[id]
        invariant forall id :: id in pool && id !in todo ==>
                    (id in mempool <==> Survives(rules, c, confirmed, height, pool[id]))
        decreases todo
      {
        var id :| id in todo;
        todo := todo - {id};
        SignedNeverRaises(rules, utxo.utxos, mempool[id]);
        var ok := utxo.ValidateTransaction(rules, mempool[id], height);
        if mempool[id] in confirmed || !ok.value {
          mempool := mempool - {id};
        }
      }
    }

    /** The two loops of _reorg_to. */
    method RebuildPool(abandoned: seq<Transaction>, confirmed: seq<Transaction>, height: nat)
      requires PoolOk(rules, mempool) && AllSigned(rules, abandoned)
      modifies this`mempool
      ensures PoolOk(rules, mempool) && forall id :: id in mempool ==> mempool[id] !in confirmed
      ensures Rebuilt(rules, old(mempool), mempool, abandoned, confirmed, utxo.Contents(), height)
    {
      ghost var before, c := mempool, utxo.Contents();
      ReturnTxs(Returning(abandoned), confirmed, height);
      ghost var between := mempool;
      ReturnedIsOk(rules, before, between, abandoned, confirmed, c, height);
      DropTxs(confirmed, height);
      PoolRebuilt(rules, before, between, mempool, abandoned, confirmed, c, height);
    }

    /** _reorg_to: switch to `newTip`, rebuild the index, and rebuild the pool against it. */
    method ReorgTo(newTip: Digest)
      requires PathOk(View(), tip) && PathOk(View(), newTip)
      requires newTip in heights && heights[newTip] + 1 == |branches[newTip]|
      requires PoolOk(rules, mempool) && AllSigned(rules, AllTxs(branches[tip]))
      modifies this
      ensures View() == old(View()) && orphans == old(orphans)
      ensures tip == newTip && fresh(utxo) && utxo.Contents() == Replay(branches[newTip])
      ensures PoolOk(rules, mempool) && Unconfirmed(mempool, branches[newTip])
      ensures PoolAfterReorg(rules, old(mempool), mempool, branches[old(tip)], branches[newTip])
    {
      var abandoned := ConfirmedTxs(tip);
      utxo := UtxoForBranch(newTip);
      var confirmed := ConfirmedTxs(newTip);
      tip := newTip;
      RebuildPool(abandoned, confirmed, heights[newTip] + 1);
    }

    /** add_to_mempool; None is the exception of a key nobody can read. */
    method AddToMempool(tx: Transaction) returns (ok: Option<bool>)
      requires Valid()
      modifies this`mempool
      ensures Valid()
      ensures ok.None? <==> && TxId(tx) !in old(mempool) && |old(mempool)| < MAX_MEMPOOL_TXS
                            && AdmitRaises(rules, Replay(branches[tip]), tx, |branches[tip]|)
      ensures ok.Some? ==> ok.value == PoolAccepts(rules, old(mempool), Replay(branches[tip]), tx, |branches[tip]|)
      ensures mempool == if ok == Some(true) then old(mempool)[TxId(tx) := tx] else old(mempool)
    {
      if TxId(tx) in mempool { return Some(false); }
      if |mempool| >= MAX_MEMPOOL_TXS { return Some(false); }
      NextHeight(rules, View(), tip);
      ok := Appraise(tx, heights[tip] + 1);
      if ok == Some(true) { Admit(tx); }
    }

    method Admit(tx: Transaction)
      requires Valid() && Admits(rules, Replay(branches[tip]), tx, |branches[tip]|)
      modifies this`mempool
      ensures Valid() && mempool == old(mempool)[TxId(tx) := tx]
    {
      PoolGrows(rules, View(), tip, mempool, tx, |branches[tip]|);
      mempool := mempool[TxId(tx) := tx];
    }

    /** Its checks against the index: validity, then the fee. */
    method Appraise(tx: Transaction, height: nat) returns (ok: Option<bool>)
      ensures ok.None? <==> AdmitRaises(rules, utxo.Contents(), tx, height)
      ensures ok.Some? ==>
                ok.value == (Admits(rules, utxo.Contents(), tx, height) && Fee(utxo.utxos, tx) >= MIN_RELAY_FEE)
    {
      ok := utxo.ValidateTransaction(rules, tx, height);
      if ok != Some(true) { return ok; }
      var fee := ComputeFee(utxo.utxos, tx);
      ok := Some(fee >= MIN_RELAY_FEE);
    }

    // ----- add a block ----------------------------------------------------------------- //

    /** Store an accepted block. */
    method Insert(block: Block)
      requires Shaped(View()) && block.header.prevHash in blocks
      modifies this`blocks, this`heights, this`chainwork, this`branches
      ensures View() == Graft(old(View()), block)
    {
      var h, prev := HashOf(block), block.header.prevHash;
      blocks := blocks[h := block];
      heights := heights[h := heights[prev] + 1];
      chainwork := chainwork[h := chainwork[prev] + BlockWork(block)];
      branches := branches[h := branches[prev] + [block]];
    }

    /** Decide what the stored block `h` means for the active chain. */
    method Activate(h: Digest, block: Block) returns (r: AddResult)
      requires PathOk(View(), tip) && PathOk(View(), h)
      requires tip in chainwork && h in chainwork && h in heights && heights[h] + 1 == |branches[h]|
      requires block.header.prevHash == tip ==> branches[h] == branches[tip] + [block]
      requires utxo.Contents() == Replay(branches[tip]) && PoolOk(rules, mempool)
      requires Unconfirmed(mempool, branches[tip]) && AllSigned(rules, AllTxs(branches[tip]))
      modifies this, utxo
      ensures View() == old(View()) && orphans == old(orphans)
      ensures utxo == old(utxo) || fresh(utxo)
      ensures tip in branches && utxo.Contents() == Replay(branches[tip])
      ensures PoolOk(rules, mempool) && Unconfirmed(mempool, branches[tip])
      ensures tip in chainwork
      ensures if block.header.prevHash == old(tip) then
                r == Extended && tip == h && mempool == WithoutTxs(old(mempool), block.transactions)
              else if chainwork[h] > chainwork[old(tip)] then
                && r == Reorged && tip == h
                && PoolAfterReorg(rules, old(mempool), mempool, branches[old(tip)], branches[h])
              else r == SideBranch && tip == old(tip) && mempool == old(mempool)
    {
      if block.header.prevHash == tip {
        ReplayStep(branches[tip], block);
        StillUnconfirmed(rules, mempool, branches[tip], block);
        utxo.ApplyBlock(block, heights[h]);
        tip := h;
        RemoveBlockTxsFromMempool(block);
        r := Extended;
      } else if chainwork[h] > chainwork[tip] {
        ReorgTo(h);
        r := Reorged;
      } else {
        r := SideBranch;
      }
    }

    /** Everything in add_block between validation and the orphans. */
    method StoreBlock(block: Block) returns (r: AddResult)
      requires Valid() && block.header.prevHash in blocks && HashOf(block) !in blocks
      requires Sound(rules, Graft(View(), block))
      modifies this, utxo
      ensures Valid() && (utxo == old(utxo) || fresh(utxo))
      ensures View() == Graft(old(View()), block) && orphans == old(orphans)
      ensures StoreOutcome(rules, View(), block, old(tip), tip, old(mempool), mempool, r)
      ensures TipMoved(old(View()), old(tip), View(), tip) && r in {Extended, SideBranch, Reorged}
      ensures CodeByHashes(branches, block, old(tip), r) && MostHashes(branches, tip)
    {
      ghost var t, oldTip := View(), tip;
      Insert(block);
      GraftedPaths(rules, t, block, tip);
      TipIsSigned(rules, t, tip);
      r := Activate(HashOf(block), block);
      HeaviestAfter(t, block, oldTip, tip);
      TipMovedByGraft(rules, t, block, oldTip, tip);
      CodeCountsHashes(rules, View(), block, oldTip);
      HeaviestTookMost(rules, View(), tip);
    }

    /**
     * add_block. The whole effect on the tree and the orphan pool is `AddOutcome`; when no orphan waits
     * for the block, `StoreOutcome` gives the result code, the tip and the pool as well.
     */
    method AddBlock(block: Block, now: int) returns (r: AddResult)
      requires Valid()
      modifies this, utxo
      decreases orphans.Keys, 4
      ensures Valid() && (utxo == old(utxo) || fresh(utxo))
      ensures AddOutcome(rules, now, old(View()), View(), old(orphans), orphans, block, r)
      ensures TipMoved(old(View()), old(tip), View(), tip)
      ensures FateOf(rules, old(View()), block, now) != IsStored ==> tip == old(tip) && mempool == old(mempool)
      ensures FateOf(rules, old(View()), block, now) == IsStored && r != Raised ==>
                CodeByHashes(Graft(old(View()), block).branches, block, old(tip), r)
      ensures FateOf(rules, old(View()), block, now) == IsStored && NoneWaits(old(orphans), HashOf(block)) ==>
                && View() == Graft(old(View()), block) && orphans == old(orphans)
                && StoreOutcome(rules, View(), block, old(tip), tip, old(mempool), mempool, r)
    {
      var h := HashOf(block);
      if h in blocks { return Duplicate; }
      var prev := block.header.prevHash;
      if prev !in blocks {
        orphans := orphans[h := block];
        return Orphaned;
      }
      var v := Vet(block, now);
      if v == Raise { return Raised; }
      if v == Reject { return Invalid; }
      r := Connect(block, now);
    }

    /** The call of _validate_block in add_block. */
    method Vet(block: Block, now: int) returns (v: Verdict)
      requires Valid() && block.header.prevHash in blocks
      ensures v == VerdictOn(rules, View(), block, now)
    {
      var prev := block.header.prevHash;
      PathsOk(rules, View(), prev);
      StoredBlock(rules, View(), prev);
      v := ValidateBlock(block, prev, heights[prev] + 1, now);
    }

    /** The rest of add_block, for an accepted block: store it, then retry the orphans. */
    method Connect(block: Block, now: int) returns (r: AddResult)
      requires Valid() && FateOf(rules, View(), block, now) == IsStored
      modifies this, utxo
      decreases orphans.Keys, 3
      ensures Valid() && (utxo == old(utxo) || fresh(utxo))
      ensures AddOutcome(rules, now, old(View()), View(), old(orphans), orphans, block, r)
      ensures TipMoved(old(View()), old(tip), View(), tip)
      ensures r != Raised ==> CodeByHashes(Graft(old(View()), block).branches, block, old(tip), r)
      ensures NoneWaits(old(orphans), HashOf(block)) ==>
                && View() == Graft(old(View()), block) && orphans == old(orphans)
                && StoreOutcome(rules, View(), block, old(tip), tip, old(mempool), mempool, r)
    {
      var h := HashOf(block);
      ghost var t0, p0 := View(), orphans;
      GraftIsSound(rules, t0, block, now);
      GraftHasNoChild(rules, t0, block);
      r := StoreBlock(block);
      ghost var t1, tip1 := View(), tip;
      var raised := TryConnectOrphans(h, now);
      if raised { r := Raised; }
      StoredMeans(rules, now, t0, View(), p0, orphans, block, r, raised);
      TipMovedOn(t0, old(tip), t1, tip1, View(), tip);
    }

    /** _try_connect_orphans: retry every orphan that named the new block as its parent; an exception ends it. */
    method TryConnectOrphans(newParent: Digest, now: int) returns (raised: bool)
      requires Valid() && newParent in blocks
      requires forall h :: h in blocks ==> blocks[h].header.prevHash != newParent
      modifies this, utxo
      decreases orphans.Keys, 2
      ensures Valid() && (utxo == old(utxo) || fresh(utxo))
      ensures Connected(rules, now, {newParent}, old(View()), View(), old(orphans), orphans)
      ensures !raised ==> Drained({newParent}, old(View()), View(), orphans)
      ensures (raised <==> Struck(rules, now, View(), old(orphans), orphans))
              && StruckOnce(rules, now, View(), old(orphans), orphans)
      ensures raised ==> Behind(rules, now, {newParent}, old(View()), View(), old(orphans), orphans)
      ensures TipMoved(old(View()), old(tip), View(), tip)
      ensures NoneWaits(old(orphans), newParent) ==>
                && !raised && View() == old(View()) && orphans == old(orphans)
                && tip == old(tip) && mempool == old(mempool)
    {
      var connected := set k | k in orphans && orphans[k].header.prevHash == newParent;
      ghost var t0, p0 := View(), orphans;
      ConnectedToItself(rules, now, {newParent}, t0, p0);
      if connected == {} {
        NothingWaits(rules, now, t0, p0, newParent, connected);
        return false;
      }
      OrphansNotStored(rules, View(), orphans, newParent);
      raised := RetryAll(connected, now, newParent);
      if !raised { NothingLeft(newParent, t0, View(), orphans); }
    }

    /** The loop of _try_connect_orphans. */
    method RetryAll(connected: set<Digest>, now: int, ghost parent: Digest) returns (raised: bool)
      requires Valid() && parent in blocks
      requires Waiting(parent, connected, View(), View(), orphans)
      modifies this, utxo
      decreases orphans.Keys, 1
      ensures Valid() && (utxo == old(utxo) || fresh(utxo))
      ensures RetryOutcome(rules, now, parent, {}, old(View()), View(), old(orphans), orphans, raised)
      ensures TipMoved(old(View()), old(tip), View(), tip)
    {
      ghost var t0, p0 := View(), orphans;
      ConnectedToItself(rules, now, {parent}, t0, p0);
      var todo := connected;
      raised := false;
      while todo != {} && !raised
        invariant Valid() && (utxo == old(utxo) || fresh(utxo))
        invariant RetryOutcome(rules, now, parent, todo, t0, View(), p0, orphans, raised)
                  && (orphans.Keys < p0.Keys || orphans.Keys == p0.Keys)
        invariant TipMoved(t0, old(tip), View(), tip)
        decreases todo
      {
        var k :| k in todo;
        ghost var t1, tip1 := View(), tip;
        raised := Retry(k, now, parent, todo, t0, p0);
        TipMovedOn(t0, old(tip), t1, tip1, View(), tip);
        todo := todo - {k};
      }
    }

    /** Take the orphan `k` out of the pool and add it. `t0` and `p0` are the tree and pool the loop began with. */
    method Retry(k: Digest, now: int, ghost parent: Digest, ghost todo: set<Digest>, ghost t0: BlockTree,
                 ghost p0: Pool)
      returns (raised: bool)
      requires Valid() && Sound(rules, t0) && parent in t0.blocks && k in todo
      requires RetryOutcome(rules, now, parent, todo, t0, View(), p0, orphans, false)
      modifies this, utxo
      decreases orphans.Keys, 0
      ensures Valid() && (utxo == old(utxo) || fresh(utxo))
      ensures RetryOutcome(rules, now, parent, todo - {k}, t0, View(), p0, orphans, raised)
              && (orphans.Keys < p0.Keys || orphans.Keys == p0.Keys)
      ensures TipMoved(old(View()), old(tip), View(), tip)
    {
      ghost var t1, p1 := View(), orphans;
      var ob := orphans[k];
      orphans := orphans - {k};
      var r := AddBlock(ob, now);
      AfterRetry(rules, now, parent, todo, t0, t1, View(), p0, p1, orphans, k, r);
      raised := r == Raised;
      SubPoolKeys(orphans, p0);
    }

    // ----- block assembly ------------------------------------------------------------------ //

    /** gather_block_transactions. `order` is the order in which the pool is iterated. */
    method GatherBlockTransactions(order: seq<Digest>, maxTxs: nat) returns (chosen: seq<Transaction>, fees: int)
      requires tip in heights && PoolOk(rules, mempool) && forall i :: 0 <= i < |order| ==> order[i] in mempool
      ensures var g := Greedy(rules, utxo.Contents(), FirstOf(mempool, order, maxTxs), heights[tip] + 1);
              chosen == g.chosen && fees == g.fees
    {
      chosen, fees := GatherFrom(FirstOf(mempool, order, maxTxs), heights[tip] + 1);
    }

    /** Its loop, over the pool entries considered. */
    method GatherFrom(candidates: seq<Transaction>, height: nat) returns (chosen: seq<Transaction>, fees: int)
      requires forall i :: 0 <= i < |candidates| ==> Signed(rules, candidates[i])
      ensures var g := Greedy(rules, utxo.Contents(), candidates, height);
              chosen == g.chosen && fees == g.fees
    {
      ghost var c := utxo.Contents();
      var working := utxo.Copy();
      chosen, fees := [], 0;
      for i := 0 to |candidates|
        invariant fresh(working)
        invariant Greedy(rules, c, candidates[..i], height) == Picked(chosen, working.Contents(), fees)
      {
        GreedyStep(rules, c, candidates, i, height);
        chosen, fees := GatherNext(working, candidates[i], height, chosen, fees);
      }
      assert candidates[..|candidates|] == candidates;
    }

    /** One round of that loop: take the transaction if the working index admits it. */
    method GatherNext(working: UTXOSet, tx: Transaction, height: nat, chosen: seq<Transaction>, fees: int)
      returns (chosen': seq<Transaction>, fees': int)
      requires Signed(rules, tx)
      modifies working
      ensures Picked(chosen', working.Contents(), fees')
           == PickOne(rules, Picked(chosen, old(working.Contents()), fees), tx, height)
    {
      chosen', fees' := chosen, fees;
      SignedNeverRaises(rules, working.utxos, tx);
      var ok := working.ValidateTransaction(rules, tx, height);
      if ok.value {
        var fee := ComputeFee(working.utxos, tx);
        fees' := fees + fee;
        working.ApplyTransaction(tx, height);
        chosen' := chosen + [tx];
      }
    }
  }

  /**
   * Every reachable state: each block sits on a valid branch of its own, whose length and work the node has on
   * file; no block has more work than the tip; the cached index is the replay of the tip's branch; and what it is
   * worth is at most what the subsidies up to the tip have paid, hence at most the supply cap.
   */
  lemma EveryStateKeeps(chain: Blockchain, h: Digest)
    requires chain.Valid() && h in chain.blocks
    ensures ValidBranch(chain.rules, chain.branches[h]) && Last(chain.branches[h]) == chain.blocks[h]
    ensures chain.heights[h] == |chain.branches[h]| - 1
    ensures chain.chainwork[h] == Hashes(chain.branches[h]) <= Hashes(chain.branches[chain.tip])
    ensures chain.utxo.Contents() == Replay(chain.branches[chain.tip])
    ensures 0 <= Total(chain.utxo.utxos) <= CumulativeSubsidy(chain.heights[chain.tip] + 1) <= MAX_SUPPLY
  {
    StoredBlock(chain.rules, chain.View(), h);
    StoredBlock(chain.rules, chain.View(), chain.tip);
    SupplyBounded(chain.rules, chain.branches[chain.tip]);
    WorkIsHashes(chain.branches[h]);
    WorkIsHashes(chain.branches[chain.tip]);
  }
}
