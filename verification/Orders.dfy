/**
 * When the order in which blocks are delivered matters (node.py, add_block with its orphan pool): the exact condition.
 */
module Orders {
  import opened Ledger
  import opened Chain
  import opened Tree
  import opened NodeChain
  import opened Delivery

  // ----- every delivery has an outcome --------------------------------------------------- //

  ghost predicate Keyed(p: Pool) {
    forall k :: k in p ==> HashOf(p[k]) == k
  }

  /** add_block on values: some outcome always exists. */
  lemma {:induction false} OutcomeExists(rules: Rules, now: int, t: BlockTree, p: Pool, b: Block)
    returns (t': BlockTree, p': Pool, r: AddResult)
    requires Sound(rules, t) && Keyed(p)
    ensures Sound(rules, t') && Keyed(p') && AddOutcome(rules, now, t, t', p, p', b, r)
    decreases p.Keys, 3
  {
    match FateOf(rules, t, b, now)
    case IsDuplicate => t', p', r := t, p, Duplicate;
    case IsOrphan => t', p', r := t, p[HashOf(b) := b], Orphaned;
    case IsInvalid => t', p', r := t, p, Invalid;
    case IsRaise => t', p', r := t, p, Raised;
    case IsStored => t', p', r := StoredOutcome(rules, now, t, p, b);
  }

  lemma {:induction false} StoredOutcome(rules: Rules, now: int, t: BlockTree, p: Pool, b: Block)
    returns (t': BlockTree, p': Pool, r: AddResult)
    requires Sound(rules, t) && Keyed(p) && FateOf(rules, t, b, now) == IsStored
    ensures Sound(rules, t') && Keyed(p') && AddOutcome(rules, now, t, t', p, p', b, r)
    decreases p.Keys, 2
  {
    var h, mid := HashOf(b), Graft(t, b);
    GraftIsSound(rules, t, b, now);
    GraftHasNoChild(rules, t, b);
    OrphansNotStored(rules, mid, p, h);
    var raised;
    t', p', raised := RetriesExist(rules, now, h, mid, p);
    r := if raised then Raised else SideBranch;
    RetriesMakeOutcome(rules, now, t, t', p, p', b, r);
  }

  lemma {:induction false} RetriesMakeOutcome(rules: Rules, now: int, t: BlockTree, t': BlockTree, p: Pool, p': Pool,
                                              b: Block, r: AddResult)
    requires Sound(rules, t) && Sound(rules, t') && FateOf(rules, t, b, now) == IsStored
    requires RetryOutcome(rules, now, HashOf(b), {}, Graft(t, b), t', p, p', r == Raised) && r in {SideBranch, Raised}
    ensures AddOutcome(rules, now, t, t', p, p', b, r)
  {
    ExtendsKeeps(Graft(t, b), t', HashOf(b));
  }

  /** The orphan loop on values. */
  lemma {:induction false} RetriesExist(rules: Rules, now: int, parent: Digest, t: BlockTree, p: Pool)
    returns (t': BlockTree, p': Pool, raised: bool)
    requires Sound(rules, t) && Keyed(p) && parent in t.blocks
    requires forall k :: k in p && p[k].header.prevHash == parent ==> k !in t.blocks
    ensures Sound(rules, t') && Keyed(p') && RetryOutcome(rules, now, parent, {}, t, t', p, p', raised)
    decreases p.Keys, 1
  {
    var todo := set k | k in p && p[k].header.prevHash == parent;
    t', p', raised := t, p, false;
    ConnectedToItself(rules, now, {parent}, t, p);
    while todo != {} && !raised
      invariant Sound(rules, t') && Keyed(p') && RetryOutcome(rules, now, parent, todo, t, t', p, p', raised)
      invariant p'.Keys < p.Keys || p'.Keys == p.Keys
      decreases todo
    {
      var k :| k in todo;
      t', p', raised := RetryExists(rules, now, parent, todo, t, t', p, p', k);
      todo := todo - {k};
    }
  }

  lemma {:induction false} RetryExists(rules: Rules, now: int, parent: Digest, todo: set<Digest>,
                                       t0: BlockTree, t: BlockTree, p0: Pool, p: Pool, k: Digest)
    returns (t': BlockTree, p': Pool, raised: bool)
    requires Sound(rules, t0) && Sound(rules, t) && Keyed(p) && parent in t0.blocks && k in todo
    requires RetryOutcome(rules, now, parent, todo, t0, t, p0, p, false)
    ensures Sound(rules, t') && Keyed(p') && RetryOutcome(rules, now, parent, todo - {k}, t0, t', p0, p', raised)
    ensures p'.Keys < p0.Keys || p'.Keys == p0.Keys
    decreases p.Keys, 0
  {
    var r;
    t', p', r := OutcomeExists(rules, now, t, p - {k}, p[k]);
    AfterRetry(rules, now, parent, todo, t0, t, t', p0, p, p', k, r);
    raised := r == Raised;
    SubPoolKeys(p', p0);
  }

  lemma {:induction false} LeadsSomewhere(rules: Rules, now: int, a: State, bs: seq<Block>) returns (z: State)
    requires Sound(rules, a.t) && Keyed(a.p)
    ensures Sound(rules, z.t) && Keyed(z.p) && Leads(rules, now, a, bs, z)
    decreases |bs|
  {
    if |bs| == 0 {
      z := a;
    } else {
      var m := LeadsSomewhere(rules, now, a, bs[..|bs| - 1]);
      if m.raised {
        z := m;
      } else {
        var t, p, r := OutcomeExists(rules, now, m.t, m.p, bs[|bs| - 1]);
        z := State(t, p, r == Raised);
        assert Step(rules, now, m, bs[|bs| - 1], z, r);
      }
    }
  }

  // ----- what runs keep -------------------------------------------------------------------- //

  ghost function FreshTree(): BlockTree {
    BlockTree(map[GENESIS_HASH := GENESIS], map[GENESIS_HASH := 0],
              map[GENESIS_HASH := BlockWork(GENESIS)], map[GENESIS_HASH := [GENESIS]])
  }

  ghost function Fresh(): State {
    State(FreshTree(), map[], false)
  }

  lemma FreshIsSound(rules: Rules)
    ensures Sound(rules, FreshTree())
  {
    GenesisAlone(rules);
  }

  /** Delivery in two parts. */
  lemma {:induction false} LeadsSplit(rules: Rules, now: int, a: State, xs: seq<Block>, ys: seq<Block>, z: State)
    returns (m: State)
    requires Sound(rules, a.t) && Leads(rules, now, a, xs + ys, z)
    ensures Leads(rules, now, a, xs, m) && Sound(rules, m.t) && Leads(rules, now, m, ys, z)
    decreases |ys|
  {
    LastApart(xs, ys);
    if |ys| == 0 {
      LeadsSound(rules, now, a, xs, z);
      m := z;
    } else {
      var init, last := ys[..|ys| - 1], ys[|ys| - 1];
      var l := LeadsLast(rules, now, a, xs + init, last, z);
      m := LeadsSplit(rules, now, a, xs, init, l);
      LeadsOn(rules, now, m, init, l, last, z);
    }
  }

  lemma LastApart(xs: seq<Block>, ys: seq<Block>)
    ensures |ys| == 0 ==> xs + ys == xs
    ensures |ys| > 0 ==> xs + ys == xs + ys[..|ys| - 1] + [ys[|ys| - 1]] && ys == ys[..|ys| - 1] + [ys[|ys| - 1]]
  {
  }

  lemma {:induction false} LeadsLast(rules: Rules, now: int, a: State, bs: seq<Block>, b: Block, z: State)
    returns (m: State)
    requires Sound(rules, a.t) && Leads(rules, now, a, bs + [b], z)
    ensures Leads(rules, now, a, bs, m) && Sound(rules, m.t) && Next(rules, now, m, b, z)
  {
    var all := bs + [b];
    m :| Leads(rules, now, a, all[..|all| - 1], m) && Sound(rules, m.t) && Next(rules, now, m, all[|all| - 1], z);
    assert all[..|all| - 1] == bs;
  }

  /** A run keeps the tree sound, keeps everything stored, and stops for good at an exception. */
  lemma {:induction false} LeadsSound(rules: Rules, now: int, a: State, xs: seq<Block>, z: State)
    requires Sound(rules, a.t) && Leads(rules, now, a, xs, z)
    ensures Sound(rules, z.t) && Extends(a.t, z.t) && (a.raised ==> z == a)
    decreases |xs|
  {
    if |xs| > 0 {
      var m :| Leads(rules, now, a, xs[..|xs| - 1], m) && Sound(rules, m.t) && Next(rules, now, m, xs[|xs| - 1], z);
      LeadsSound(rules, now, a, xs[..|xs| - 1], m);
      if !m.raised {
        var r :| Step(rules, now, m, xs[|xs| - 1], z, r);
        OutcomeExtends(rules, now, m.t, z.t, m.p, z.p, xs[|xs| - 1], r);
        ExtendsThrough(rules, a.t, m.t, z.t);
      }
    }
  }

  /** A run stores and keeps only what was there before or is delivered in it. */
  lemma {:induction false} LeadsOnlyDelivered(rules: Rules, now: int, a: State, before: set<Block>, xs: seq<Block>,
                                              z: State)
    requires Sound(rules, a.t) && Leads(rules, now, a, xs, z) && OnlyDelivered(now, a.t, a.p, before)
    ensures Sound(rules, z.t) && OnlyDelivered(now, z.t, z.p, before + BlockSet(xs))
    decreases |xs|
  {
    if |xs| == 0 {
      assert before + BlockSet(xs) == before;
    } else {
      var i := |xs| - 1;
      var m :| Leads(rules, now, a, xs[..i], m) && Sound(rules, m.t) && Next(rules, now, m, xs[i], z);
      LeadsOnlyDelivered(rules, now, a, before, xs[..i], m);
      BlockSetStep(before, xs, i);
      OneLonger(xs, i);
      if m.raised {
        StillOnlyMore(now, m.t, m.p, before + BlockSet(xs[..i]), before + BlockSet(xs));
      } else {
        var r :| Step(rules, now, m, xs[i], z, r);
        StillOnlyDelivered(rules, now, m.t, z.t, m.p, z.p, before + BlockSet(xs[..i]), xs[i], r);
      }
    }
  }

  lemma StillOnlyMore(now: int, t: BlockTree, p: Pool, some: set<Block>, more: set<Block>)
    requires OnlyDelivered(now, t, p, some) && some <= more
    ensures OnlyDelivered(now, t, p, more)
  {
  }

  /** Any set can be delivered, each block once. */
  lemma {:induction false} InSomeOrder(blocks: set<Block>) returns (xs: seq<Block>)
    ensures BlockSet(xs) == blocks && forall i, j :: 0 <= i < j < |xs| ==> xs[i] != xs[j]
  {
    if blocks == {} {
      xs := [];
    } else {
      var b :| b in blocks;
      var rest := InSomeOrder(blocks - {b});
      xs := rest + [b];
      assert forall c :: c in rest <==> c in BlockSet(rest);
    }
  }

  lemma BlockSetOfParts(xs: seq<Block>, ys: seq<Block>)
    ensures BlockSet(xs + ys) == BlockSet(xs) + BlockSet(ys)
  {
  }

  // ----- the question ------------------------------------------------------------------------ //

  /** Two runs that a caller could not tell apart: both raise, or neither does and the trees are the same. */
  predicate Agree(x: State, y: State) {
    x.raised == y.raised && (!x.raised ==> x.t == y.t)
  }

  /** A run of a fresh node over all the blocks, in some order, with any repetitions. */
  ghost predicate RunOver(rules: Rules, now: int, delivered: set<Block>, xs: seq<Block>, z: State) {
    Sound(rules, FreshTree()) && BlockSet(xs) == delivered && Leads(rules, now, Fresh(), xs, z)
  }

  /** Whatever the order, the outcome is the same. */
  ghost predicate OrderIrrelevant(rules: Rules, now: int, delivered: set<Block>) {
    forall xs, ys, x, y {:trigger RunOver(rules, now, delivered, xs, x), RunOver(rules, now, delivered, ys, y)} ::
      RunOver(rules, now, delivered, xs, x) && RunOver(rules, now, delivered, ys, y) ==> Agree(x, y)
  }

  lemma {:induction false} FreshRun(rules: Rules, now: int, delivered: set<Block>, xs: seq<Block>, z: State)
    requires RunOver(rules, now, delivered, xs, z)
    ensures Sound(rules, z.t)
    ensures z.raised ==> RaisesWithin(rules, now, delivered)
    ensures !z.raised ==> Settled(rules, now, z.t, z.p, delivered)
    ensures Unavoidable(rules, now, delivered) ==> z.raised
  {
    FreshIsSettled(rules, now, FreshTree());
    SettledLeads(rules, now, Fresh(), {}, xs, z);
    assert {} + BlockSet(xs) == delivered;
  }

  /** The condition suffices. */
  lemma {:induction false} ExactSuffices(rules: Rules, now: int, delivered: set<Block>)
    requires Exact(rules, now, delivered)
    ensures OrderIrrelevant(rules, now, delivered)
  {
    forall xs, ys, x, y | RunOver(rules, now, delivered, xs, x) && RunOver(rules, now, delivered, ys, y)
      ensures Agree(x, y)
    {
      RunsAgree(rules, now, delivered, xs, x, ys, y);
    }
  }

  lemma {:induction false} RunsAgree(rules: Rules, now: int, delivered: set<Block>, xs: seq<Block>, x: State,
                                     ys: seq<Block>, y: State)
    requires Exact(rules, now, delivered) && RunOver(rules, now, delivered, xs, x)
             && RunOver(rules, now, delivered, ys, y)
    ensures Agree(x, y)
  {
    FreshRun(rules, now, delivered, xs, x);
    FreshRun(rules, now, delivered, ys, y);
    if !x.raised && !y.raised {
      SameStored(rules, now, x.t, x.p, y.t, y.p, delivered);
      SameStored(rules, now, y.t, y.p, x.t, x.p, delivered);
      SameTree(x.t, y.t);
    }
  }

  // ----- branch first: an order that stores it, or raises ---------------------------------------- //

  /** Deliver the blocks of a branch in order, then the rest. */
  lemma {:induction false} BranchFirst(delivered: set<Block>, first: seq<Block>)
    returns (xs: seq<Block>, rest: seq<Block>)
    requires BlockSet(first) <= delivered
    ensures xs == first + rest && BlockSet(xs) == delivered && BlockSet(rest) == delivered - BlockSet(first)
  {
    rest := InSomeOrder(delivered - BlockSet(first));
    xs := first + rest;
    BlockSetOfParts(first, rest);
  }

  /** Blocks of one branch, and a block on top of it, have hashes of their own. */
  lemma {:induction false} NoTwinsOnBranch(rules: Rules, s: seq<Block>, c: Block, i: nat)
    requires ValidBranch(rules, s) && 1 <= i < |s| && c in s && c.header == s[i].header
    ensures c == s[i]
  {
    HashesDistinct(rules, s);
    OneOfEachHash(s, c, i);
  }

  lemma OneOfEachHash(s: seq<Block>, c: Block, i: nat)
    requires forall k, l :: 0 <= k < l < |s| ==> HashOf(s[k]) != HashOf(s[l])
    requires i < |s| && c in s && c.header == s[i].header
    ensures c == s[i]
  {
    var j :| 0 <= j < |s| && s[j] == c;
    assert HashOf(s[j]) == HashOf(s[i]);
  }

  lemma {:induction false} TopIsNew(rules: Rules, s: seq<Block>, b: Block, i: nat)
    requires ValidBranch(rules, s) && HashOf(Last(s)) == b.header.prevHash && i < |s|
    ensures HashOf(b) != HashOf(s[i])
  {
    HashesDistinct(rules, s);
    Linked(rules, s, i);
  }

  lemma {:induction false} BranchAlone(rules: Rules, now: int, delivered: set<Block>, s: seq<Block>)
    requires Reaches(rules, now, delivered, s)
    ensures Reaches(rules, now, BlockSet(s[1..]), s) && Safe(rules, now, BlockSet(s[1..]), s)
    ensures BlockSet(s[1..]) <= delivered
  {
    forall i | 1 <= i < |s| ensures s[i] in BlockSet(s[1..]) {
      assert s[1..][i - 1] == s[i];
    }
    forall i: nat | 2 <= i < |s| ensures SafeAt(rules, now, BlockSet(s[1..]), s, i) {
      forall c | c in BlockSet(s[1..]) && c.header == s[i].header ensures c == s[i] {
        assert c in s;
        NoTwinsOnBranch(rules, s, c, i);
      }
    }
  }

  /** Delivered first, in order, every branch is stored. */
  lemma {:induction false} BranchFirstStores(rules: Rules, now: int, delivered: set<Block>, s: seq<Block>)
    returns (xs: seq<Block>)
    requires Reaches(rules, now, delivered, s) && !RaisesWithin(rules, now, delivered)
    ensures BlockSet(xs) == delivered
    ensures forall z :: RunOver(rules, now, delivered, xs, z) ==>
              !z.raised && HashOf(Last(s)) in z.t.blocks && z.t.blocks[HashOf(Last(s))] == Last(s)
  {
    BranchAlone(rules, now, delivered, s);
    var rest;
    xs, rest := BranchFirst(delivered, s[1..]);
    forall z | RunOver(rules, now, delivered, xs, z)
      ensures !z.raised && HashOf(Last(s)) in z.t.blocks && z.t.blocks[HashOf(Last(s))] == Last(s)
    {
      FreshRun(rules, now, delivered, xs, z);
      var m := LeadsSplit(rules, now, Fresh(), s[1..], rest, z);
      LeadsSound(rules, now, m, rest, z);
      FreshRun(rules, now, BlockSet(s[1..]), s[1..], m);
      ReachedIsStored(rules, now, m.t, m.p, BlockSet(s[1..]), s);
      StoredBlock(rules, m.t, HashOf(Last(s)));
    }
  }

  lemma {:induction false} TrapAlone(rules: Rules, now: int, delivered: set<Block>, b: Block, s: seq<Block>)
    requires RaisesOn(rules, now, delivered, b, s)
    ensures var some := BlockSet(s[1..]) + {b};
            some <= delivered && Trap(rules, now, some, b, s)
  {
    var some := BlockSet(s[1..]) + {b};
    BranchAlone(rules, now, delivered, s);
    ReachesMore(rules, now, BlockSet(s[1..]), some, s);
    forall i: nat | i < |s| ensures HashOf(b) != HashOf(s[i]) { TopIsNew(rules, s, b, i); }
    forall i: nat | 2 <= i < |s| ensures SafeAt(rules, now, some, s, i) {
      assert SafeAt(rules, now, BlockSet(s[1..]), s, i);
    }
    forall c | c in some && c.header == b.header ensures c == b {}
  }

  /** Delivered right after the branch it raises on, a block does raise. */
  lemma {:induction false} BranchFirstRaises(rules: Rules, now: int, delivered: set<Block>, b: Block, s: seq<Block>)
    returns (xs: seq<Block>)
    requires RaisesOn(rules, now, delivered, b, s)
    ensures BlockSet(xs) == delivered && forall z :: RunOver(rules, now, delivered, xs, z) ==> z.raised
  {
    var first := TrapFirst(rules, now, delivered, b, s);
    var rest;
    xs, rest := BranchFirst(delivered, first);
    forall z | RunOver(rules, now, delivered, xs, z) ensures z.raised {
      RaisedEarly(rules, now, first, rest, z);
    }
  }

  lemma {:induction false} TrapFirst(rules: Rules, now: int, delivered: set<Block>, b: Block, s: seq<Block>)
    returns (first: seq<Block>)
    requires RaisesOn(rules, now, delivered, b, s)
    ensures BlockSet(first) <= delivered && Unavoidable(rules, now, BlockSet(first))
  {
    TrapAlone(rules, now, delivered, b, s);
    first := s[1..] + [b];
    BlockSetOfParts(s[1..], [b]);
    assert BlockSet([b]) == {b};
  }

  lemma {:induction false} RaisedEarly(rules: Rules, now: int, first: seq<Block>, rest: seq<Block>, z: State)
    requires Sound(rules, FreshTree()) && Leads(rules, now, Fresh(), first + rest, z)
    requires Unavoidable(rules, now, BlockSet(first))
    ensures z.raised
  {
    var m := LeadsSplit(rules, now, Fresh(), first, rest, z);
    FreshRun(rules, now, BlockSet(first), first, m);
    LeadsSound(rules, now, m, rest, z);
  }

  // ----- orphans first: an order that loses a twinned block -------------------------------------- //

  /** A block that has to wait while nothing but genesis is stored. */
  predicate Waits(b: Block) {
    b.header.prevHash != GENESIS_HASH && HashOf(b) != GENESIS_HASH
  }

  function PoolAfter(p: Pool, xs: seq<Block>): Pool {
    if |xs| == 0 then p else PoolAfter(p, xs[..|xs| - 1])[HashOf(xs[|xs| - 1]) := xs[|xs| - 1]]
  }

  lemma {:induction false} OrphansFirst(rules: Rules, now: int, a: State, xs: seq<Block>, z: State)
    requires Sound(rules, a.t) && Leads(rules, now, a, xs, z)
    requires a.t == FreshTree() && !a.raised && forall b :: b in xs ==> Waits(b)
    ensures z.t == FreshTree() && !z.raised && z.p == PoolAfter(a.p, xs)
    decreases |xs|
  {
    if |xs| > 0 {
      var m :| Leads(rules, now, a, xs[..|xs| - 1], m) && Sound(rules, m.t) && Next(rules, now, m, xs[|xs| - 1], z);
      OrphansFirst(rules, now, a, xs[..|xs| - 1], m);
      OneMoreWaits(rules, now, m, xs[|xs| - 1], z);
    }
  }

  lemma {:induction false} OneMoreWaits(rules: Rules, now: int, m: State, b: Block, z: State)
    requires Sound(rules, m.t) && m.t == FreshTree() && !m.raised && Waits(b) && Next(rules, now, m, b, z)
    ensures z.t == FreshTree() && !z.raised && z.p == m.p[HashOf(b) := b]
  {
    var r :| Step(rules, now, m, b, z, r);
    assert FateOf(rules, m.t, b, now) == IsOrphan;
  }

  /** A block deep enough to wait, then its twin, then the rest: the block is lost. */
  lemma {:induction false} TwinLoses(rules: Rules, now: int, delivered: set<Block>, s: seq<Block>, c: Block)
    returns (ys: seq<Block>)
    requires Reaches(rules, now, delivered, s) && |s| > 2
    requires c in delivered && c != Last(s) && c.header == Last(s).header
    ensures BlockSet(ys) == delivered
    ensures var b := Last(s);
            forall z :: RunOver(rules, now, delivered, ys, z) ==> HashOf(b) in z.t.blocks ==> z.t.blocks[HashOf(b)] != b
  {
    var b := Last(s);
    ReachedTail(rules, now, delivered, s);
    DeepWaits(rules, s);
    var rest;
    ys, rest := BranchFirst(delivered, [b, c]);
    assert b !in BlockSet(rest);
    forall z | RunOver(rules, now, delivered, ys, z) && HashOf(b) in z.t.blocks ensures z.t.blocks[HashOf(b)] != b {
      LostForGood(rules, now, b, c, rest, z);
    }
  }

  lemma {:induction false} LostForGood(rules: Rules, now: int, b: Block, c: Block, rest: seq<Block>, z: State)
    requires Sound(rules, FreshTree()) && Leads(rules, now, Fresh(), [b, c] + rest, z)
    requires Waits(b) && c != b && c.header == b.header && b !in rest
    ensures HashOf(b) in z.t.blocks ==> z.t.blocks[HashOf(b)] != b
  {
    var m := LeadsSplit(rules, now, Fresh(), [b, c], rest, z);
    OrphansFirst(rules, now, Fresh(), [b, c], m);
    PairPool(b, c);
    NeverBack(rules, now, m, b, c, rest, z);
  }

  lemma {:induction false} NeverBack(rules: Rules, now: int, m: State, b: Block, c: Block, rest: seq<Block>, z: State)
    requires Sound(rules, m.t) && Leads(rules, now, m, rest, z)
    requires m.t == FreshTree() && m.p == map[HashOf(b) := c]
    requires HashOf(b) != GENESIS_HASH && c != b && b !in rest
    ensures HashOf(b) in z.t.blocks ==> z.t.blocks[HashOf(b)] != b
  {
    assert OnlyDelivered(now, m.t, m.p, {c});
    LeadsOnlyDelivered(rules, now, m, {c}, rest, z);
    assert b !in {c} + BlockSet(rest);
  }

  lemma PairPool(b: Block, c: Block)
    requires c.header == b.header
    ensures PoolAfter(map[], [b, c]) == map[HashOf(b) := c]
  {
    assert [b, c][..1] == [b] && [b][..0] == [];
    assert PoolAfter(map[], [b]) == map[HashOf(b) := b];
  }

  lemma {:induction false} DeepWaits(rules: Rules, s: seq<Block>)
    requires ValidBranch(rules, s) && |s| > 2
    ensures Waits(Last(s))
  {
    HashesDistinct(rules, s);
    Linked(rules, s, 0);
    Linked(rules, s, |s| - 1);
  }

  // ----- an order that avoids every exception that can be avoided ------------------------------------ //

  /**
   * The best body to keep under its header: accepted only if no other is refused, raising only if all of them raise,
   * on the branch its parent ends.
   */
  ghost predicate Best(rules: Rules, now: int, delivered: set<Block>, c: Block) {
    forall s {:trigger Reaches(rules, now, delivered, s)} ::
      Reaches(rules, now, delivered, s) && HashOf(Last(s)) == c.header.prevHash ==> BestOn(rules, now, delivered, c, s)
  }

  ghost predicate BestOn(rules: Rules, now: int, delivered: set<Block>, c: Block, s: seq<Block>)
    requires ValidBranch(rules, s)
  {
    forall d :: d in delivered && d.header == c.header ==>
      && (Judge(rules, s, c, now) == Accept ==> Judge(rules, s, d, now) != Reject)
      && (Judge(rules, s, c, now) == Raise ==> Judge(rules, s, d, now) == Raise)
  }

  lemma {:induction false} BestExists(rules: Rules, now: int, delivered: set<Block>, b: Block) returns (c: Block)
    requires b in delivered
    ensures c in delivered && c.header == b.header && Best(rules, now, delivered, c)
  {
    c := b;
    if s :| Reaches(rules, now, delivered, s) && HashOf(Last(s)) == b.header.prevHash {
      if d :| d in delivered && d.header == b.header && Judge(rules, s, d, now) == Reject {
        c := d;
      } else if d :| d in delivered && d.header == b.header && Judge(rules, s, d, now) == Accept {
        c := d;
      }
      forall s' | Reaches(rules, now, delivered, s') && HashOf(Last(s')) == c.header.prevHash
        ensures BestOn(rules, now, delivered, c, s')
      {
        BranchIsUnique(rules, s, s');
      }
    }
  }

  predicate Under(blocks: set<Block>, h: Header) {
    exists b :: b in blocks && b.header == h
  }

  /** One body for each header under which somebody has to wait. */
  ghost predicate OnePerHeader(delivered: set<Block>, todo: set<Block>, chosen: set<Block>) {
    && chosen <= delivered && (forall b :: b in chosen ==> Waits(b))
    && (forall h {:trigger Under(chosen, h)} {:trigger Under(todo, h)} :: Under(chosen, h) <==> Under(todo, h))
    && (forall b, c :: b in chosen && c in chosen && b.header == c.header ==> b == c)
  }

  ghost predicate AllBest(rules: Rules, now: int, delivered: set<Block>, chosen: set<Block>) {
    forall b {:trigger Best(rules, now, delivered, b)} :: b in chosen ==> Best(rules, now, delivered, b)
  }

  lemma {:induction false} ChosenExist(rules: Rules, now: int, delivered: set<Block>, todo: set<Block>)
    returns (chosen: set<Block>)
    requires todo <= delivered && forall b :: b in todo ==> Waits(b)
    ensures OnePerHeader(delivered, todo, chosen) && AllBest(rules, now, delivered, chosen)
    decreases todo
  {
    chosen := {};
    if todo != {} {
      var b :| b in todo;
      var others := set c | c in todo && c.header != b.header;
      SmallerSet(others, todo, b);
      var rest := ChosenExist(rules, now, delivered, others);
      var c := BestExists(rules, now, delivered, b);
      chosen := {c} + rest;
      OneMoreChosen(delivered, todo, b, c, others, rest);
    }
  }

  lemma SmallerSet(a: set<Block>, b: set<Block>, x: Block)
    requires x in b && x !in a && a <= b
    ensures |a| < |b|
  {
    var c := b - {x} - a;
    assert b == a + c + {x};
  }

  lemma OneMoreChosen(delivered: set<Block>, todo: set<Block>, b: Block, c: Block, others: set<Block>, rest: set<Block>)
    requires b in todo && Waits(b) && others == set d | d in todo && d.header != b.header
    requires c in delivered && c.header == b.header && OnePerHeader(delivered, others, rest)
    ensures OnePerHeader(delivered, todo, {c} + rest)
  {
    forall h ensures Under({c} + rest, h) <==> h == c.header || Under(rest, h) {
      OneMoreUnder(rest, c, h);
    }
    forall h ensures Under(todo, h) <==> h == c.header || Under(others, h) {
      LeftUnder(todo, b, others, h);
    }
    forall d | d in rest ensures d.header != c.header {
      assert Under(rest, d.header) && Under(others, d.header);
    }
  }

  lemma OneMoreUnder(rest: set<Block>, c: Block, h: Header)
    ensures Under({c} + rest, h) <==> h == c.header || Under(rest, h)
  {
    assert c in {c} + rest;
    if Under(rest, h) {
      var d :| d in rest && d.header == h;
      assert d in {c} + rest;
    }
  }

  lemma LeftUnder(todo: set<Block>, b: Block, others: set<Block>, h: Header)
    requires b in todo && others == set d | d in todo && d.header != b.header
    ensures Under(todo, h) <==> h == b.header || Under(others, h)
  {
    if Under(todo, h) && h != b.header {
      var d :| d in todo && d.header == h;
      assert d in others;
    }
  }

  lemma {:induction false} PoolAfterBoth(p: Pool, xs: seq<Block>, ys: seq<Block>)
    ensures PoolAfter(p, xs + ys) == PoolAfter(PoolAfter(p, xs), ys)
  {
    LastApart(xs, ys);
    if |ys| > 0 {
      PoolAfterBoth(p, xs, ys[..|ys| - 1]);
      var all := xs + ys;
      assert all[..|all| - 1] == xs + ys[..|ys| - 1];
    }
  }

  lemma {:induction false} PoolHolds(p: Pool, xs: seq<Block>)
    ensures forall b :: b in xs ==> HashOf(b) in PoolAfter(p, xs)
    ensures forall k :: k in PoolAfter(p, xs) ==>
              || (PoolAfter(p, xs)[k] in xs && HashOf(PoolAfter(p, xs)[k]) == k)
              || (k in p && PoolAfter(p, xs)[k] == p[k] && forall b :: b in xs ==> HashOf(b) != k)
  {
    if |xs| > 0 {
      PoolHolds(p, xs[..|xs| - 1]);
      assert xs == xs[..|xs| - 1] + [xs[|xs| - 1]];
    }
  }

  /** With the chosen bodies delivered last, the pool holds only chosen bodies. */
  lemma {:induction false} ChosenStay(delivered: set<Block>, todo: set<Block>, chosen: set<Block>, xs: seq<Block>,
                                      ys: seq<Block>)
    requires OnePerHeader(delivered, todo, chosen) && BlockSet(xs) <= todo && BlockSet(ys) == chosen
    ensures forall k :: k in PoolAfter(map[], xs + ys) ==> PoolAfter(map[], xs + ys)[k] in chosen
  {
    PoolAfterBoth(map[], xs, ys);
    var p := PoolAfter(map[], xs);
    PoolHolds(map[], xs);
    PoolHolds(p, ys);
    forall k | k in p ensures exists c :: c in ys && HashOf(c) == k {
      assert p[k] in BlockSet(xs);
      assert Under(todo, p[k].header) && Under(chosen, p[k].header);
      var c :| c in chosen && c.header == p[k].header;
      assert c in BlockSet(ys);
    }
    forall k | k in PoolAfter(p, ys) ensures PoolAfter(p, ys)[k] in BlockSet(ys) {}
  }

  /**
   * What stays true while the children of genesis are delivered: only chosen bodies wait, or are stored deeper down.
   */
  ghost predicate OnlyChosen(rules: Rules, now: int, delivered: set<Block>, chosen: set<Block>, t: BlockTree, p: Pool) {
    && Sound(rules, t) && OnlyDelivered(now, t, p, delivered)
    && (forall k :: k in p ==> p[k] in chosen)
    && (forall h :: h in t.blocks && h != GENESIS_HASH ==>
          t.blocks[h].header.prevHash == GENESIS_HASH || t.blocks[h] in chosen)
  }

  lemma {:induction false} StillOnlyChosen(rules: Rules, now: int, delivered: set<Block>, chosen: set<Block>,
                                           t: BlockTree, t': BlockTree, p: Pool, p': Pool, b: Block, r: AddResult)
    requires OnlyChosen(rules, now, delivered, chosen, t, p) && Sound(rules, t')
    requires b in delivered && !Waits(b) && AddOutcome(rules, now, t, t', p, p', b, r)
    ensures OnlyChosen(rules, now, delivered, chosen, t', p')
  {
    StillOnlyDelivered(rules, now, t, t', p, p', delivered, b, r);
    WithMember(delivered, b);
    if FateOf(rules, t, b, now) == IsStored {
      AddedFrom(now, t, t', p, b);
      ChosenBelow(now, chosen, t, t', p, b);
    }
  }

  lemma WithMember(delivered: set<Block>, b: Block)
    requires b in delivered
    ensures delivered + {b} == delivered
  {
  }

  lemma ChosenBelow(now: int, chosen: set<Block>, t: BlockTree, t': BlockTree, p: Pool, b: Block)
    requires Shaped(t) && b.header.prevHash in t.blocks && !Waits(b)
    requires forall h {:trigger ComesFrom(now, t, t', p, b, h)} :: h in t'.blocks ==> ComesFrom(now, t, t', p, b, h)
    requires forall k :: k in p ==> p[k] in chosen
    requires forall h :: h in t.blocks && h != GENESIS_HASH ==>
               t.blocks[h].header.prevHash == GENESIS_HASH || t.blocks[h] in chosen
    ensures forall h :: h in t'.blocks && h != GENESIS_HASH ==>
              t'.blocks[h].header.prevHash == GENESIS_HASH || t'.blocks[h] in chosen
  {
    forall h | h in t'.blocks && h != GENESIS_HASH
      ensures t'.blocks[h].header.prevHash == GENESIS_HASH || t'.blocks[h] in chosen
    {
      assert ComesFrom(now, t, t', p, b, h);
    }
  }

  /** A chosen body that raises on its stored parent sits in a trap. */
  lemma {:induction false} ChosenIsTrapped(rules: Rules, now: int, delivered: set<Block>, chosen: set<Block>,
                                           t: BlockTree, p: Pool, c: Block)
    requires AllBest(rules, now, delivered, chosen) && OnlyChosen(rules, now, delivered, chosen, t, p)
    requires c in chosen && c in delivered && Waits(c) && Strikes(rules, now, t, c)
    ensures Unavoidable(rules, now, delivered)
  {
    var h := c.header.prevHash;
    var s := t.branches[h];
    StruckOnPath(rules, now, t, p, delivered, c);
    forall i: nat | 2 <= i < |s| ensures SafeAt(rules, now, delivered, s, i) {
      DeepIsChosen(rules, now, delivered, chosen, t, p, h, i);
      ChosenIsSafe(rules, now, delivered, s, i);
    }
    BestIsTrapped(rules, now, delivered, c, s);
  }

  lemma {:induction false} ChosenIsSafe(rules: Rules, now: int, delivered: set<Block>, s: seq<Block>, i: nat)
    requires Reaches(rules, now, delivered, s) && 2 <= i < |s| && Best(rules, now, delivered, s[i])
    ensures SafeAt(rules, now, delivered, s, i)
  {
    AcceptedAt(rules, now, delivered, s, i);
    assert BestOn(rules, now, delivered, s[i], s[..i]);
  }

  lemma {:induction false} BestIsTrapped(rules: Rules, now: int, delivered: set<Block>, c: Block, s: seq<Block>)
    requires Best(rules, now, delivered, c) && Waits(c) && Safe(rules, now, delivered, s)
    requires RaisesOn(rules, now, delivered, c, s)
    ensures Unavoidable(rules, now, delivered)
  {
    assert BestOn(rules, now, delivered, c, s);
    Linked(rules, s, 0);
    assert Trap(rules, now, delivered, c, s);
  }

  lemma {:induction false} DeepIsChosen(rules: Rules, now: int, delivered: set<Block>, chosen: set<Block>,
                                        t: BlockTree, p: Pool, h: Digest, i: nat)
    requires OnlyChosen(rules, now, delivered, chosen, t, p) && h in t.blocks && 2 <= i < |t.branches[h]|
    ensures t.branches[h][i] in chosen
  {
    PathsOk(rules, t, h);
    var s := t.branches[h];
    assert StepOk(t, s, i) && StepOk(t, s, i - 1);
  }

  lemma {:induction false} AcceptedAt(rules: Rules, now: int, delivered: set<Block>, s: seq<Block>, i: nat)
    requires Reaches(rules, now, delivered, s) && 1 <= i < |s|
    ensures Reaches(rules, now, delivered, s[..i]) && HashOf(Last(s[..i])) == s[i].header.prevHash
    ensures Judge(rules, s[..i], s[i], now) == Accept
  {
    ReachedPrefix(rules, now, delivered, s, i + 1);
    PrefixEnds(s, i);
    ReachedTail(rules, now, delivered, s[..i + 1]);
  }

  lemma PrefixEnds(s: seq<Block>, i: nat)
    requires i < |s|
    ensures Init(s[..i + 1]) == s[..i] && Last(s[..i + 1]) == s[i]
  {
  }

  /** Blocks that genesis can take at once. */
  ghost predicate FitsGenesis(rules: Rules, now: int, b: Block) {
    && b.header.prevHash == GENESIS_HASH && ValidBranch(rules, [GENESIS])
    && Judge(rules, [GENESIS], b, now) == Accept
  }

  ghost predicate AllStored(t: BlockTree, blocks: set<Block>) {
    forall b :: b in blocks ==> HashOf(b) in t.blocks
  }

  /** `chosen` are best bodies that have to wait, `early` the blocks that genesis can take at once. */
  ghost predicate Sorted(rules: Rules, now: int, delivered: set<Block>, chosen: set<Block>, early: set<Block>) {
    && AllBest(rules, now, delivered, chosen) && chosen <= delivered && (forall c :: c in chosen ==> Waits(c))
    && (forall c {:trigger FitsGenesis(rules, now, c)} ::
          c in delivered ==> (c in early <==> FitsGenesis(rules, now, c)))
    && early <= delivered && !Unavoidable(rules, now, delivered)
  }

  lemma {:induction false} GenesisTrap(rules: Rules, now: int, delivered: set<Block>, b: Block)
    requires ValidBranch(rules, [GENESIS]) && b in delivered && b.header.prevHash == GENESIS_HASH
    requires Judge(rules, [GENESIS], b, now) == Raise
    requires forall c :: c in delivered && c.header == b.header ==> !FitsGenesis(rules, now, c)
    ensures Unavoidable(rules, now, delivered)
  {
    assert RaisesOn(rules, now, delivered, b, [GENESIS]);
    forall c | c in delivered && c.header == b.header ensures Judge(rules, [GENESIS], c, now) != Accept {
      assert !FitsGenesis(rules, now, c);
    }
    assert Trap(rules, now, delivered, b, [GENESIS]);
  }

  /** A child of genesis does not raise if it fits, or if whatever fits under its header is stored already. */
  lemma {:induction false} ChildIsCalm(rules: Rules, now: int, delivered: set<Block>, chosen: set<Block>,
                                       early: set<Block>,
                                       t: BlockTree, b: Block)
    requires Sorted(rules, now, delivered, chosen, early) && Sound(rules, t) && b in delivered && !Waits(b)
    requires b in early || AllStored(t, early)
    ensures FateOf(rules, t, b, now) != IsRaise
    ensures b in early ==> HashOf(b) in t.blocks || FateOf(rules, t, b, now) == IsStored
  {
    StoredBlock(rules, t, GENESIS_HASH);
    assert b in early <==> FitsGenesis(rules, now, b);
    if FateOf(rules, t, b, now) == IsRaise {
      forall c | c in delivered && c.header == b.header ensures !FitsGenesis(rules, now, c) {}
      GenesisTrap(rules, now, delivered, b);
    }
  }

  /** One child of genesis: no exception, and what fits is stored. */
  lemma {:induction false} CalmNext(rules: Rules, now: int, delivered: set<Block>, chosen: set<Block>,
                                    early: set<Block>,
                                    a: State, b: Block, z: State)
    requires Sorted(rules, now, delivered, chosen, early)
    requires OnlyChosen(rules, now, delivered, chosen, a.t, a.p) && !a.raised && b in delivered && !Waits(b)
    requires b in early || AllStored(a.t, early)
    requires Next(rules, now, a, b, z)
    ensures !z.raised && OnlyChosen(rules, now, delivered, chosen, z.t, z.p) && Extends(a.t, z.t)
    ensures b in early ==> HashOf(b) in z.t.blocks
  {
    var r :| Step(rules, now, a, b, z, r);
    StillOnlyChosen(rules, now, delivered, chosen, a.t, z.t, a.p, z.p, b, r);
    OutcomeExtends(rules, now, a.t, z.t, a.p, z.p, b, r);
    ChildIsCalm(rules, now, delivered, chosen, early, a.t, b);
    if r == Raised {
      var c := Culprit(rules, now, a.t, z.t, a.p, z.p, b);
      ChosenIsTrapped(rules, now, delivered, chosen, z.t, z.p, c);
    }
  }

  /** The children of genesis, those that fit first: no exception. */
  lemma {:induction false} CalmLeads(rules: Rules, now: int, delivered: set<Block>, chosen: set<Block>,
                                     early: set<Block>,
                                     a: State, xs: seq<Block>, z: State)
    requires Sorted(rules, now, delivered, chosen, early)
    requires OnlyChosen(rules, now, delivered, chosen, a.t, a.p) && !a.raised
    requires forall b :: b in xs ==> b in delivered && !Waits(b)
    requires (forall b :: b in xs ==> b in early) || AllStored(a.t, early)
    requires Leads(rules, now, a, xs, z)
    ensures !z.raised && OnlyChosen(rules, now, delivered, chosen, z.t, z.p) && Extends(a.t, z.t)
    ensures forall b :: b in xs && b in early ==> HashOf(b) in z.t.blocks
    decreases |xs|
  {
    if |xs| > 0 {
      var init, b := xs[..|xs| - 1], xs[|xs| - 1];
      FirstOrLast(xs);
      var m :| Leads(rules, now, a, init, m) && Sound(rules, m.t) && Next(rules, now, m, b, z);
      CalmLeads(rules, now, delivered, chosen, early, a, init, m);
      CalmStep(rules, now, delivered, chosen, early, a, init, m, b, z);
    }
  }

  lemma FirstOrLast(xs: seq<Block>)
    requires |xs| > 0
    ensures forall c :: c in xs <==> c in xs[..|xs| - 1] || c == xs[|xs| - 1]
  {
    LastApart([], xs);
  }

  lemma {:induction false} CalmStep(rules: Rules, now: int, delivered: set<Block>, chosen: set<Block>,
                                    early: set<Block>,
                                    a: State, init: seq<Block>, m: State, b: Block, z: State)
    requires Sorted(rules, now, delivered, chosen, early) && Sound(rules, a.t) && Extends(a.t, m.t)
    requires OnlyChosen(rules, now, delivered, chosen, m.t, m.p) && !m.raised && b in delivered && !Waits(b)
    requires b in early || AllStored(a.t, early)
    requires Next(rules, now, m, b, z)
    requires forall c :: c in init && c in early ==> HashOf(c) in m.t.blocks
    ensures !z.raised && OnlyChosen(rules, now, delivered, chosen, z.t, z.p) && Extends(a.t, z.t)
    ensures forall c :: (c in init || c == b) && c in early ==> HashOf(c) in z.t.blocks
  {
    StoredStay(a.t, m.t, early);
    CalmNext(rules, now, delivered, chosen, early, m, b, z);
    ExtendsThrough(rules, a.t, m.t, z.t);
  }

  lemma StoredStay(t: BlockTree, t': BlockTree, blocks: set<Block>)
    requires Extends(t, t') && Shaped(t)
    ensures AllStored(t, blocks) ==> AllStored(t', blocks)
  {
  }

  /** Unless it is unavoidable, an order of the blocks gets by without an exception. */
  lemma {:induction false} CalmOrder(rules: Rules, now: int, delivered: set<Block>) returns (xs: seq<Block>)
    requires !Unavoidable(rules, now, delivered)
    ensures BlockSet(xs) == delivered && forall z :: RunOver(rules, now, delivered, xs, z) ==> !z.raised
  {
    var waiters := set b | b in delivered && Waits(b);
    var early := set b | b in delivered && FitsGenesis(rules, now, b);
    var chosen := ChosenExist(rules, now, delivered, waiters);
    var others := InSomeOrder(waiters - chosen);
    var best := InSomeOrder(chosen);
    var first := InSomeOrder(early);
    var last := InSomeOrder(delivered - waiters - early);
    xs := (others + best) + (first + last);
    BlockSetOfParts(others, best);
    BlockSetOfParts(first, last);
    BlockSetOfParts(others + best, first + last);
    assert BlockSet(xs) == delivered;
    forall z | RunOver(rules, now, delivered, xs, z) ensures !z.raised {
      ChosenStay(delivered, waiters, chosen, others, best);
      forall b ensures b in first <==> b in early { assert b in first <==> b in BlockSet(first); }
      forall b | b in others + best ensures Waits(b) { assert b in BlockSet(others + best); }
      forall b | b in last ensures b in delivered && !Waits(b) { assert b in BlockSet(last); }
      CalmRun(rules, now, delivered, chosen, early, others + best, first, last, z);
    }
  }

  lemma {:induction false} CalmRun(rules: Rules, now: int, delivered: set<Block>, chosen: set<Block>, early: set<Block>,
                                   waiters: seq<Block>, first: seq<Block>, last: seq<Block>, z: State)
    requires Sound(rules, FreshTree()) && Leads(rules, now, Fresh(), waiters + (first + last), z)
    requires Sorted(rules, now, delivered, chosen, early) && forall b :: b in waiters ==> Waits(b)
    requires forall k :: k in PoolAfter(map[], waiters) ==> PoolAfter(map[], waiters)[k] in chosen
    requires forall b :: b in first <==> b in early
    requires forall b :: b in early || b in last ==> b in delivered && !Waits(b)
    ensures !z.raised
  {
    var m := LeadsSplit(rules, now, Fresh(), waiters, first + last, z);
    OrphansFirst(rules, now, Fresh(), waiters, m);
    CalmEnd(rules, now, delivered, chosen, early, m, first, last, z);
  }

  lemma {:induction false} StartsChosen(rules: Rules, now: int, delivered: set<Block>, chosen: set<Block>,
                                        t: BlockTree, p: Pool)
    requires Sound(rules, t) && t == FreshTree() && chosen <= delivered
    requires forall k :: k in p ==> p[k] in chosen
    ensures OnlyChosen(rules, now, delivered, chosen, t, p)
  {
  }

  lemma {:induction false} CalmEnd(rules: Rules, now: int, delivered: set<Block>, chosen: set<Block>, early: set<Block>,
                                   m: State, first: seq<Block>, last: seq<Block>, z: State)
    requires Sorted(rules, now, delivered, chosen, early) && Sound(rules, m.t) && m.t == FreshTree() && !m.raised
    requires forall k :: k in m.p ==> m.p[k] in chosen
    requires Leads(rules, now, m, first + last, z)
    requires forall b :: b in first <==> b in early
    requires forall b :: b in early || b in last ==> b in delivered && !Waits(b)
    ensures !z.raised
  {
    StartsChosen(rules, now, delivered, chosen, m.t, m.p);
    var n := LeadsSplit(rules, now, m, first, last, z);
    CalmLeads(rules, now, delivered, chosen, early, m, first, n);
    assert AllStored(n.t, early);
    CalmLeads(rules, now, delivered, chosen, early, n, last, z);
  }

  // ----- the answer --------------------------------------------------------------------------------- //

  /** Two orders of the same blocks, all whose runs disagree. */
  ghost predicate Disagree(rules: Rules, now: int, delivered: set<Block>, xs: seq<Block>, ys: seq<Block>) {
    && BlockSet(xs) == delivered && BlockSet(ys) == delivered
    && forall x, y :: RunOver(rules, now, delivered, xs, x) && RunOver(rules, now, delivered, ys, y) ==> !Agree(x, y)
  }

  /** They settle that the order matters: every order has a run. */
  lemma {:induction false} TwoOrdersDiffer(rules: Rules, now: int, delivered: set<Block>, xs: seq<Block>,
                                           ys: seq<Block>)
    requires Disagree(rules, now, delivered, xs, ys)
    ensures !OrderIrrelevant(rules, now, delivered)
  {
    var x := SomeRun(rules, now, delivered, xs);
    var y := SomeRun(rules, now, delivered, ys);
  }

  lemma {:induction false} SomeRun(rules: Rules, now: int, delivered: set<Block>, xs: seq<Block>) returns (z: State)
    requires BlockSet(xs) == delivered
    ensures RunOver(rules, now, delivered, xs, z)
  {
    FreshIsSound(rules);
    z := LeadsSomewhere(rules, now, Fresh(), xs);
  }

  lemma {:induction false} AvoidableMatters(rules: Rules, now: int, delivered: set<Block>)
    returns (xs: seq<Block>, ys: seq<Block>)
    requires RaisesWithin(rules, now, delivered) && !Unavoidable(rules, now, delivered)
    ensures Disagree(rules, now, delivered, xs, ys)
  {
    var b, s :| RaisesOn(rules, now, delivered, b, s);
    xs := BranchFirstRaises(rules, now, delivered, b, s);
    ys := CalmOrder(rules, now, delivered);
  }

  lemma {:induction false} TwinMatters(rules: Rules, now: int, delivered: set<Block>)
    returns (xs: seq<Block>, ys: seq<Block>)
    requires !RaisesWithin(rules, now, delivered) && !Clear(rules, now, delivered)
    ensures Disagree(rules, now, delivered, xs, ys)
  {
    var s :| Reaches(rules, now, delivered, s) && |s| > 2 && HasTwin(delivered, Last(s));
    var c :| c in delivered && c != Last(s) && c.header == Last(s).header;
    xs := BranchFirstStores(rules, now, delivered, s);
    ys := TwinLoses(rules, now, delivered, s, c);
    forall x, y | RunOver(rules, now, delivered, xs, x) && RunOver(rules, now, delivered, ys, y) ensures !Agree(x, y) {
      assert HashOf(Last(s)) in x.t.blocks && x.t.blocks[HashOf(Last(s))] == Last(s);
    }
  }

  /**
   * The order of delivery is irrelevant exactly in two cases. Either no delivered block raises on a branch of
   * delivered blocks, and no acceptable block with a parent other than genesis shares its header with another
   * delivered body. Or an exception is unavoidable. Otherwise there are two orders that never come to the same,
   * in whatever order orphans are retried.
   */
  lemma {:induction false} OrderIsIrrelevantExactly(rules: Rules, now: int, delivered: set<Block>)
    ensures OrderIrrelevant(rules, now, delivered) <==> Exact(rules, now, delivered)
    ensures !Exact(rules, now, delivered) ==> exists xs, ys :: Disagree(rules, now, delivered, xs, ys)
  {
    if Exact(rules, now, delivered) {
      ExactSuffices(rules, now, delivered);
    } else {
      var xs, ys;
      if RaisesWithin(rules, now, delivered) {
        xs, ys := AvoidableMatters(rules, now, delivered);
      } else {
        xs, ys := TwinMatters(rules, now, delivered);
      }
      TwoOrdersDiffer(rules, now, delivered, xs, ys);
    }
  }

  /** Every run over the order raises. */
  ghost predicate AlwaysRaises(rules: Rules, now: int, delivered: set<Block>, xs: seq<Block>) {
    BlockSet(xs) == delivered && forall z :: RunOver(rules, now, delivered, xs, z) ==> z.raised
  }

  /** No run over the order raises. */
  ghost predicate NeverRaises(rules: Rules, now: int, delivered: set<Block>, xs: seq<Block>) {
    BlockSet(xs) == delivered && forall z :: RunOver(rules, now, delivered, xs, z) ==> !z.raised
  }

  /**
   * Some run raises exactly when a delivered block raises on a branch of delivered blocks, and then some order always
   * does.
   */
  lemma {:induction false} SomeOrderRaises(rules: Rules, now: int, delivered: set<Block>)
    ensures (exists xs, z :: RunOver(rules, now, delivered, xs, z) && z.raised) <==> RaisesWithin(rules, now, delivered)
    ensures (exists xs :: AlwaysRaises(rules, now, delivered, xs)) <==> RaisesWithin(rules, now, delivered)
  {
    forall xs, z | RunOver(rules, now, delivered, xs, z) && z.raised ensures RaisesWithin(rules, now, delivered) {
      FreshRun(rules, now, delivered, xs, z);
    }
    forall xs | AlwaysRaises(rules, now, delivered, xs) ensures RaisesWithin(rules, now, delivered) {
      var z := SomeRun(rules, now, delivered, xs);
      FreshRun(rules, now, delivered, xs, z);
    }
    if b, s :| RaisesOn(rules, now, delivered, b, s) {
      var xs := BranchFirstRaises(rules, now, delivered, b, s);
      assert AlwaysRaises(rules, now, delivered, xs);
      var z := SomeRun(rules, now, delivered, xs);
    }
  }

  /** Every run raises exactly when an exception is unavoidable, and otherwise some order never does. */
  lemma {:induction false} EveryOrderRaises(rules: Rules, now: int, delivered: set<Block>)
    ensures (forall xs, z :: RunOver(rules, now, delivered, xs, z) ==> z.raised) <==> Unavoidable(rules, now, delivered)
    ensures (exists xs :: NeverRaises(rules, now, delivered, xs)) <==> !Unavoidable(rules, now, delivered)
  {
    forall xs, z | RunOver(rules, now, delivered, xs, z) && Unavoidable(rules, now, delivered) ensures z.raised {
      FreshRun(rules, now, delivered, xs, z);
    }
    forall xs | NeverRaises(rules, now, delivered, xs) ensures !Unavoidable(rules, now, delivered) {
      var z := SomeRun(rules, now, delivered, xs);
      FreshRun(rules, now, delivered, xs, z);
    }
    if !Unavoidable(rules, now, delivered) {
      var xs := CalmOrder(rules, now, delivered);
      assert NeverRaises(rules, now, delivered, xs);
      var z := SomeRun(rules, now, delivered, xs);
    }
  }
}
