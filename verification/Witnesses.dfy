/** Inputs for which delivery goes wrong: the order matters, and an exception strands an orphan. */
module Witnesses {
  import opened Params
  import opened Ledger
  import opened Results
  import opened CoinSet
  import opened Chain
  import opened Tree
  import opened NodeChain
  import opened Delivery
  import opened Orders
  import opened Mining
  import Pow

  /** Primitives under which every hash meets every target and every block is small. No key is readable. */
  function EasyRules(): Rules {
    Rules(0, (d: Digest) => 0, (b: Block) => 0, (s: string) => None, (k: string, m: Transaction, s: seq<Byte>) => None)
  }

  /** The block a miner assembles on a branch from an empty pool. */
  function CoinbaseOnly(branch: seq<Block>): Block
    requires |branch| > 0 && Pow.BitsInRange(Last(branch).header.bits)
  {
    Assembled(branch, Picked([], Replay(branch), 0), "", "", 0)
  }

  lemma {:induction false} CoinbaseOnlyFits(rules: Rules, branch: seq<Block>)
    requires rules == EasyRules() && ValidBranch(rules, branch) && BlockSubsidy(|branch|) > 0
    ensures var b := CoinbaseOnly(branch);
            FitsBranch(rules, branch, b) && ValidBranch(rules, branch + [b])
                && b.header.prevHash == HashOf(Last(branch))
  {
    var b := CoinbaseOnly(branch);
    AssembledFits(rules, branch, [], "", "", 0, 0);
    assert WithNonce(b, 0) == b;
    ExpectedBitsInRange(branch);
    ExtendBranch(rules, branch, b);
  }

  lemma {:induction false} EarlySubsidy(height: nat)
    requires height < HALVING_INTERVAL
    ensures BlockSubsidy(height) == INITIAL_SUBSIDY
  {
    assert height / HALVING_INTERVAL == 0;
  }

  /** Genesis, a child and a grandchild, each with nothing but its coinbase, within the clock. */
  ghost predicate Family(rules: Rules, now: int, s: seq<Block>) {
    && ValidBranch(rules, s) && |s| == 3
    && NotTooEarly(s[1], now) && NotTooEarly(s[2], now)
    && |s[1].transactions| == 1 && |s[2].transactions| == 1
  }

  lemma {:induction false} FamilyExists() returns (rules: Rules, now: int, s: seq<Block>)
    ensures rules == EasyRules() && Family(rules, now, s)
  {
    rules := EasyRules();
    var s1 := [GENESIS];
    var s2 := OneMore(rules, s1);
    s := OneMore(rules, s2);
    now := Pow.Max(s[1].header.timestamp, s[2].header.timestamp);
  }

  lemma {:induction false} OneMore(rules: Rules, s: seq<Block>) returns (s': seq<Block>)
    requires rules == EasyRules() && ValidBranch(rules, s) && |s| < HALVING_INTERVAL
    ensures ValidBranch(rules, s') && |s'| == |s| + 1 && s'[..|s|] == s && |s'[|s|].transactions| == 1
  {
    EarlySubsidy(|s|);
    CoinbaseOnlyFits(rules, s);
    s' := s + [CoinbaseOnly(s)];
  }

  /** What the members of a family are. */
  lemma {:induction false} FamilyFacts(rules: Rules, now: int, s: seq<Block>)
    requires Family(rules, now, s)
    ensures s[0] == GENESIS && s[1].header.prevHash == GENESIS_HASH && s[2].header.prevHash == HashOf(s[1])
    ensures HashOf(s[1]) != GENESIS_HASH && HashOf(s[2]) != GENESIS_HASH
    ensures Pow.BitsInRange(s[1].header.bits) && Pow.BitsInRange(s[2].header.bits)
    ensures IsCoinbase(s[1].transactions[0]) && IsCoinbase(s[2].transactions[0])
  {
    Linked(rules, s, 0);
    Linked(rules, s, 1);
    Linked(rules, s, 2);
    HashesDistinct(rules, s);
    ValidBits(rules, s);
    CoinbaseFirstAt(rules, s, 1);
    CoinbaseFirstAt(rules, s, 2);
  }

  lemma {:induction false} CoinbaseFirstAt(rules: Rules, s: seq<Block>, i: nat)
    requires ValidBranch(rules, s) && 1 <= i < |s|
    ensures |s[i].transactions| > 0 && IsCoinbase(s[i].transactions[0])
  {
    if i < |s| - 1 {
      LastLink(rules, s);
      CoinbaseFirstAt(rules, Init(s), i);
      InInit(s, i);
    } else {
      ValidTail(rules, s);
    }
  }

  /** Three blocks whose order matters: a parent, its child, and an empty body under the child's header. */
  lemma {:induction false} OrderCanMatter()
    ensures exists rules, now, delivered :: !OrderIrrelevant(rules, now, delivered)
  {
    var rules, now, s := FamilyExists();
    var twin := Block(s[2].header, []);
    TwinnedFamily(rules, now, s, twin);
    OrderIsIrrelevantExactly(rules, now, {s[1], s[2], twin});
  }

  lemma {:induction false} CoinbaseNeverRaises(rules: Rules, c: Coins, txs: seq<Transaction>, height: nat)
    requires forall i :: 0 <= i < |txs| ==> IsCoinbase(txs[i])
    ensures !TxsRaise(rules, c, txs, height)
  {
  }

  lemma {:induction false} CoinbaseOnlyIsCalm(rules: Rules, s: seq<Block>, b: Block, now: int)
    requires |s| > 0 && Pow.BitsInRange(Last(s).header.bits) && Pow.BitsInRange(b.header.bits)
    requires forall i :: 0 <= i < |b.transactions| ==> IsCoinbase(b.transactions[i])
    ensures Judge(rules, s, b, now) != Raise
  {
    CoinbaseNeverRaises(rules, Replay(s), b.transactions, |s|);
  }

  lemma {:induction false} TwinnedFamily(rules: Rules, now: int, s: seq<Block>, twin: Block)
    requires Family(rules, now, s) && twin == Block(s[2].header, [])
    ensures !Exact(rules, now, {s[1], s[2], twin})
  {
    var delivered := {s[1], s[2], twin};
    FamilyFacts(rules, now, s);
    FamilyReaches(rules, now, s, delivered);
    NotClear(rules, now, s, twin, delivered);
    FamilyIsCalm(rules, now, s, twin);
    NotExact(rules, now, delivered);
  }

  lemma {:induction false} NotExact(rules: Rules, now: int, delivered: set<Block>)
    requires !RaisesWithin(rules, now, delivered) && !Clear(rules, now, delivered)
    ensures !Exact(rules, now, delivered)
  {
  }

  lemma {:induction false} FamilyIsCalm(rules: Rules, now: int, s: seq<Block>, twin: Block)
    requires |s| == 3 && |s[1].transactions| == |s[2].transactions| == 1 && twin == Block(s[2].header, [])
    requires Pow.BitsInRange(s[1].header.bits) && Pow.BitsInRange(s[2].header.bits)
    requires IsCoinbase(s[1].transactions[0]) && IsCoinbase(s[2].transactions[0])
    ensures !RaisesWithin(rules, now, {s[1], s[2], twin})
  {
    CalmBlocks(rules, now, {s[1], s[2], twin});
  }

  lemma {:induction false} NotClear(rules: Rules, now: int, s: seq<Block>, twin: Block, delivered: set<Block>)
    requires Reaches(rules, now, delivered, s) && |s| > 2
    requires twin in delivered && twin != Last(s) && twin.header == Last(s).header
    ensures !Clear(rules, now, delivered)
  {
    assert HasTwin(delivered, Last(s));
  }

  lemma {:induction false} CalmBlocks(rules: Rules, now: int, delivered: set<Block>)
    requires forall b :: b in delivered ==> Pow.BitsInRange(b.header.bits)
    requires forall b, i :: b in delivered && 0 <= i < |b.transactions| ==> IsCoinbase(b.transactions[i])
    ensures !RaisesWithin(rules, now, delivered)
  {
    forall b, t | RaisesOn(rules, now, delivered, b, t) ensures false {
      CoinbaseOnlyIsCalm(rules, t, b, now);
    }
  }

  lemma {:induction false} FamilyReaches(rules: Rules, now: int, s: seq<Block>, delivered: set<Block>)
    requires Family(rules, now, s) && s[1] in delivered && s[2] in delivered
    ensures Reaches(rules, now, delivered, s)
  {
    forall i | 1 <= i < |s| ensures s[i] in delivered && NotTooEarly(s[i], now) {
      assert i == 1 || i == 2;
    }
  }

  // ----- an exception strands an orphan --------------------------------------------------- //

  /** Two orphans that raise on the block they wait for: one of them is left behind although its parent is stored. */
  lemma {:induction false} RaiseStrandsOrphan(rules: Rules, now: int, t0: BlockTree, t1: BlockTree, p0: Pool, p1: Pool,
                                              b: Block, r: AddResult, j: Digest, k: Digest)
    requires Sound(rules, t0) && Sound(rules, t1) && FateOf(rules, t0, b, now) == IsStored
    requires AddOutcome(rules, now, t0, t1, p0, p1, b, r)
    requires j in p0 && k in p0 && j != k && Strikes(rules, now, t1, p0[j]) && Strikes(rules, now, t1, p0[k])
    requires p0[j].header.prevHash == HashOf(b) && p0[k].header.prevHash == HashOf(b)
    ensures r == Raised && !TrueOrphans(t1, p1)
  {
    assert j in p1 || k in p1;
  }

  /** A child whose bits have no target. */
  function BadChild(parent: Block, nonce: int): Block {
    Block(Header(HashOf(parent), NULL_DIGEST, 0, 0, nonce), parent.transactions)
  }

  /** Such an input exists: two children without a target, then their parent. */
  lemma {:induction false} OrphanCanBeStranded()
    ensures exists rules, now, delivered, xs, z ::
              RunOver(rules, now, delivered, xs, z) && z.raised && !TrueOrphans(z.t, z.p)
  {
    var rules, now, xs, z := StrandingExists();
    assert RunOver(rules, now, BlockSet(xs), xs, z);
  }

  lemma {:induction false} StrandingExists() returns (rules: Rules, now: int, xs: seq<Block>, z: State)
    ensures Sound(rules, FreshTree()) && Leads(rules, now, Fresh(), xs, z) && z.raised && !TrueOrphans(z.t, z.p)
  {
    var s;
    rules, now, s := FamilyExists();
    FreshIsSound(rules);
    var pair := [BadChild(s[1], 0), BadChild(s[1], 1)];
    xs := pair + [s[1]];
    z := StrandingRun(rules, now, s, pair);
  }

  lemma {:induction false} StrandingRun(rules: Rules, now: int, s: seq<Block>, pair: seq<Block>) returns (z: State)
    requires rules == EasyRules() && Family(rules, now, s) && Sound(rules, FreshTree())
    requires |pair| == 2 && pair[0] == BadChild(s[1], 0) && pair[1] == BadChild(s[1], 1)
    ensures Leads(rules, now, Fresh(), pair + [s[1]], z)
    ensures z.raised && !TrueOrphans(z.t, z.p)
  {
    FamilyFacts(rules, now, s);
    var m := BothWait(rules, now, s[1], pair);
    var t, p, r := OutcomeExists(rules, now, m.t, m.p, s[1]);
    z := State(t, p, r == Raised);
    assert Step(rules, now, m, s[1], z, r);
    LeadsOn(rules, now, Fresh(), pair, m, s[1], z);
    ParentStrands(rules, now, s, m, t, p, r);
  }

  /** Delivered before their parent, two such children only wait. */
  lemma {:induction false} BothWait(rules: Rules, now: int, parent: Block, pair: seq<Block>) returns (m: State)
    requires HashOf(parent) != GENESIS_HASH && Sound(rules, FreshTree())
    requires |pair| == 2 && pair[0] == BadChild(parent, 0) && pair[1] == BadChild(parent, 1)
    ensures Leads(rules, now, Fresh(), pair, m) && Sound(rules, m.t) && !m.raised && m.t == FreshTree()
    ensures m.p == map[HashOf(pair[0]) := pair[0], HashOf(pair[1]) := pair[1]]
  {
    m := LeadsSomewhere(rules, now, Fresh(), pair);
    BadChildWaits(parent, 0);
    BadChildWaits(parent, 1);
    AllWait(pair);
    OrphansFirst(rules, now, Fresh(), pair, m);
    TwoWait(pair);
  }

  lemma AllWait(pair: seq<Block>)
    requires |pair| == 2 && Waits(pair[0]) && Waits(pair[1])
    ensures forall b :: b in pair ==> Waits(b)
  {
  }

  lemma BadChildWaits(parent: Block, nonce: int)
    requires HashOf(parent) != GENESIS_HASH
    ensures Waits(BadChild(parent, nonce))
  {
  }

  lemma {:induction false} TwoWait(pair: seq<Block>)
    requires |pair| == 2 && HashOf(pair[0]) != HashOf(pair[1])
    ensures PoolAfter(map[], pair) == map[HashOf(pair[0]) := pair[0], HashOf(pair[1]) := pair[1]]
  {
    var one := pair[..1];
    assert one[..0] == [] && one[0] == pair[0];
    assert PoolAfter(map[], one) == map[HashOf(pair[0]) := pair[0]];
  }

  lemma {:induction false} ParentStrands(rules: Rules, now: int, s: seq<Block>, m: State, t: BlockTree, p: Pool,
                                         r: AddResult)
    requires rules == EasyRules() && Family(rules, now, s)
    requires m.t == FreshTree() && Sound(rules, m.t) && Sound(rules, t)
    requires var j, k := BadChild(s[1], 0), BadChild(s[1], 1);
             m.p == map[HashOf(j) := j, HashOf(k) := k]
    requires AddOutcome(rules, now, m.t, t, m.p, p, s[1], r)
    ensures r == Raised && !TrueOrphans(t, p)
  {
    ParentIsStored(rules, now, s);
    BadChildStrikes(rules, now, t, s[1], 0);
    BadChildStrikes(rules, now, t, s[1], 1);
    RaiseStrandsOrphan(rules, now, m.t, t, m.p, p, s[1], r, HashOf(BadChild(s[1], 0)), HashOf(BadChild(s[1], 1)));
  }

  lemma {:induction false} ParentIsStored(rules: Rules, now: int, s: seq<Block>)
    requires Family(rules, now, s) && Sound(rules, FreshTree())
    ensures FateOf(rules, FreshTree(), s[1], now) == IsStored
  {
    FamilyFacts(rules, now, s);
    ValidPrefix(rules, s, 2);
    FirstTwo(s);
    ChildIsStored(rules, now, s[..2]);
  }

  lemma FirstTwo(s: seq<Block>)
    requires |s| > 2
    ensures |s[..2]| == 2 && s[..2][1] == s[1]
  {
  }

  /** A first block on genesis is stored by a new node. */
  lemma {:induction false} ChildIsStored(rules: Rules, now: int, u: seq<Block>)
    requires ValidBranch(rules, u) && |u| == 2 && NotTooEarly(u[1], now) && Sound(rules, FreshTree())
    ensures FateOf(rules, FreshTree(), u[1], now) == IsStored
  {
    LastLink(rules, u);
    ValidTail(rules, u);
    OnlyGenesis(rules, Init(u));
    AcceptedFits(rules, Init(u), u[1], now);
  }

  lemma {:induction false} OnlyGenesis(rules: Rules, s: seq<Block>)
    requires ValidBranch(rules, s) && |s| == 1
    ensures s[0] == GENESIS && FreshTree().branches[GENESIS_HASH] == s
  {
  }

  lemma {:induction false} BadChildStrikes(rules: Rules, now: int, t: BlockTree, parent: Block, nonce: int)
    requires rules == EasyRules() && Sound(rules, t) && HashOf(parent) in t.blocks && |parent.transactions| > 0
    ensures Strikes(rules, now, t, BadChild(parent, nonce))
  {
    StoredBlock(rules, t, HashOf(parent));
  }
}
