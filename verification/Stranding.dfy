/** When an exception leaves an orphan behind although its parent is stored (node.py, _try_connect_orphans). */
module Stranding {
  import opened Ledger
  import opened Chain
  import opened Tree
  import opened NodeChain
  import opened Delivery
  import opened Orders

  /** An orphan is left in the pool whose parent is stored. */
  ghost predicate Stranded(t: BlockTree, p: Pool) {
    exists k :: k in p && p[k].header.prevHash in t.blocks
  }

  /**
   * The block `b` raises on the branch `s`, and `c`, which is neither `b` nor on `s` under whatever body, waits for
   * block `j` of `s`, a block other than genesis.
   */
  ghost predicate LeftBehind(rules: Rules, now: int, delivered: set<Block>, b: Block, s: seq<Block>, c: Block, j: nat) {
    && RaisesOn(rules, now, delivered, b, s) && 1 <= j < |s|
    && c in delivered && c.header.prevHash == HashOf(s[j])
    && HashOf(c) != HashOf(b) && forall i :: 0 <= i < |s| ==> HashOf(s[i]) != HashOf(c)
  }

  ghost predicate Strandable(rules: Rules, now: int, delivered: set<Block>) {
    exists b, s, c, j :: LeftBehind(rules, now, delivered, b, s, c, j)
  }

  ghost predicate StrandableAs(rules: Rules, now: int, delivered: set<Block>, c: Block) {
    exists b, s, j :: LeftBehind(rules, now, delivered, b, s, c, j)
  }

  lemma {:induction false} StrandableMore(rules: Rules, now: int, some: set<Block>, more: set<Block>)
    requires Strandable(rules, now, some) && some <= more
    ensures Strandable(rules, now, more)
  {
    var b, s, c, j :| LeftBehind(rules, now, some, b, s, c, j);
    ReachesMore(rules, now, some, more, s);
    assert LeftBehind(rules, now, more, b, s, c, j);
  }

  // ----- a stranded orphan has this cause ------------------------------------------------- //

  /**
   * A newly stranded orphan was one before, is not stored, and waits for a block that arrived with the last delivery.
   */
  lemma {:induction false} StrandedIsLeft(rules: Rules, now: int, t0: BlockTree, t1: BlockTree, p0: Pool, p1: Pool,
                                          b: Block, k: Digest)
    requires Sound(rules, t0) && Sound(rules, t1) && Keyed(p0)
    requires AddOutcome(rules, now, t0, t1, p0, p1, b, Raised)
    requires k in p1 && p1[k].header.prevHash in t1.blocks && p1[k].header.prevHash !in t0.blocks
    ensures FateOf(rules, t0, b, now) == IsStored
    ensures k in p0 && p1[k] == p0[k] && k !in t1.blocks
    ensures p0[k].header.prevHash in {HashOf(b)} + Added(Graft(t0, b), t1)
  {
    assert k in p0 && HashOf(p0[k]) == k;
    if k in t0.blocks { StoredBlock(rules, t0, k); }
    assert k != HashOf(b);
  }

  lemma {:induction false} NewlyStranded(rules: Rules, now: int, t0: BlockTree, t1: BlockTree, p0: Pool, p1: Pool,
                                         delivered: set<Block>, b: Block, k: Digest)
    requires Sound(rules, t0) && Sound(rules, t1) && Keyed(p0) && OnlyDelivered(now, t0, p0, delivered)
    requires AddOutcome(rules, now, t0, t1, p0, p1, b, Raised)
    requires k in p1 && p1[k].header.prevHash in t1.blocks && p1[k].header.prevHash !in t0.blocks
    ensures StrandableAs(rules, now, delivered + {b}, p1[k])
  {
    StrandedIsLeft(rules, now, t0, t1, p0, p1, b, k);
    var e :| e in p0 && e !in p1 && Strikes(rules, now, t1, p0[e]);
    StillOnlyDelivered(rules, now, t0, t1, p0, p1, delivered, b, Raised);
    StruckOnPath(rules, now, t1, p1, delivered + {b}, p0[e]);
    assert OnWay(t1, p0[k].header.prevHash, p0[e].header.prevHash);
    WaitsOnBranch(rules, now, t0, t1, p0, delivered + {b}, k, e);
  }

  lemma {:induction false} StrandedStep(rules: Rules, now: int, t0: BlockTree, t1: BlockTree, p0: Pool, p1: Pool,
                                        delivered: set<Block>, b: Block)
    requires Settled(rules, now, t0, p0, delivered) && Sound(rules, t1)
    requires AddOutcome(rules, now, t0, t1, p0, p1, b, Raised) && Stranded(t1, p1)
    ensures Strandable(rules, now, delivered + {b})
  {
    var k :| k in p1 && p1[k].header.prevHash in t1.blocks;
    assert k in p0 && p1[k] == p0[k] && p0[k].header.prevHash !in t0.blocks;
    NewlyStranded(rules, now, t0, t1, p0, p1, delivered, b, k);
    var e, s, j :| LeftBehind(rules, now, delivered + {b}, e, s, p1[k], j);
  }

  lemma {:induction false} WaitsOnBranch(rules: Rules, now: int, t0: BlockTree, t1: BlockTree, p0: Pool,
                                         delivered: set<Block>, k: Digest, e: Digest)
    requires Sound(rules, t0) && Sound(rules, t1) && k in p0 && e in p0 && k != e
    requires HashOf(p0[k]) == k && HashOf(p0[e]) == e && p0[k] in delivered
    requires k !in t1.blocks && p0[k].header.prevHash !in t0.blocks
    requires OnWay(t1, p0[k].header.prevHash, p0[e].header.prevHash) && p0[e].header.prevHash in t1.blocks
    requires RaisesOn(rules, now, delivered, p0[e], t1.branches[p0[e].header.prevHash])
    ensures StrandableAs(rules, now, delivered, p0[k])
  {
    var y := p0[e].header.prevHash;
    var s := t1.branches[y];
    PathAvoids(rules, t1, y, k);
    assert GENESIS_HASH in t0.blocks;
    StandsOn(rules, now, delivered, p0[e], s, p0[k]);
  }

  lemma {:induction false} StandsOn(rules: Rules, now: int, delivered: set<Block>, b: Block, s: seq<Block>, c: Block)
    requires ValidBranch(rules, s) && RaisesOn(rules, now, delivered, b, s) && c in delivered && HashOf(c) != HashOf(b)
    requires c.header.prevHash != GENESIS_HASH && exists i :: 0 <= i < |s| && HashOf(s[i]) == c.header.prevHash
    requires forall i :: 0 <= i < |s| ==> HashOf(s[i]) != HashOf(c)
    ensures StrandableAs(rules, now, delivered, c)
  {
    var j :| 0 <= j < |s| && HashOf(s[j]) == c.header.prevHash;
    BranchStart(rules, s);
    BehindOn(rules, now, delivered, b, s, c, j);
  }

  /** A branch has no block that is not stored. */
  lemma {:induction false} PathAvoids(rules: Rules, t: BlockTree, y: Digest, k: Digest)
    requires Sound(rules, t) && y in t.blocks && k !in t.blocks
    ensures ValidBranch(rules, t.branches[y])
    ensures forall i :: 0 <= i < |t.branches[y]| ==> HashOf(t.branches[y][i]) != k
  {
    var s := t.branches[y];
    PathsOk(rules, t, y);
    StoredBlock(rules, t, y);
    forall i | 0 <= i < |s| ensures HashOf(s[i]) != k {
      assert StepOk(t, s, i);
    }
  }

  lemma BehindOn(rules: Rules, now: int, delivered: set<Block>, b: Block, s: seq<Block>, c: Block, j: nat)
    requires RaisesOn(rules, now, delivered, b, s) && 1 <= j < |s| && c in delivered
    requires c.header.prevHash == HashOf(s[j]) && HashOf(c) != HashOf(b)
    requires forall i :: 0 <= i < |s| ==> HashOf(s[i]) != HashOf(c)
    ensures StrandableAs(rules, now, delivered, c)
  {
    assert LeftBehind(rules, now, delivered, b, s, c, j);
  }

  lemma {:induction false} BranchStart(rules: Rules, s: seq<Block>)
    requires ValidBranch(rules, s)
    ensures s[0] == GENESIS
  {
    Linked(rules, s, 0);
  }

  /** Whatever the run, from a settled node only such blocks strand an orphan. */
  lemma {:induction false} StrandedLeads(rules: Rules, now: int, a: State, before: set<Block>, bs: seq<Block>, z: State)
    requires Settled(rules, now, a.t, a.p, before) && !a.raised && Leads(rules, now, a, bs, z) && Stranded(z.t, z.p)
    ensures Strandable(rules, now, before + BlockSet(bs))
    decreases |bs|
  {
    if |bs| > 0 {
      var i := |bs| - 1;
      var m :| Leads(rules, now, a, bs[..i], m) && Sound(rules, m.t) && Next(rules, now, m, bs[i], z);
      var sofar, all := before + BlockSet(bs[..i]), before + BlockSet(bs);
      BlockSetStep(before, bs, i);
      OneLonger(bs, i);
      if m.raised {
        StrandedLeads(rules, now, a, before, bs[..i], m);
        StrandableMore(rules, now, sofar, all);
      } else {
        SettledLeads(rules, now, a, before, bs[..i], m);
        StrandedNext(rules, now, m, sofar, bs[i], z);
      }
    }
  }

  lemma {:induction false} StrandedNext(rules: Rules, now: int, m: State, delivered: set<Block>, b: Block, z: State)
    requires Settled(rules, now, m.t, m.p, delivered) && !m.raised && Next(rules, now, m, b, z) && Stranded(z.t, z.p)
    ensures Strandable(rules, now, delivered + {b})
  {
    var r :| Step(rules, now, m, b, z, r);
    if r == Raised {
      StrandedStep(rules, now, m.t, z.t, m.p, z.p, delivered, b);
    } else {
      DeliverOne(rules, now, m.t, z.t, m.p, z.p, delivered, b, r);
    }
  }

  // ----- and where there is this cause, some delivery strands an orphan ---------------------- //

  /** One more orphan in both pools changes nothing for those taken out. */
  lemma TakenOutAlike(p0: Pool, p1: Pool, c: Block)
    requires HashOf(c) !in p0 && SubPool(p1, p0)
    ensures var q0, q1 := p0[HashOf(c) := c], p1[HashOf(c) := c];
            && SubPool(q1, q0)
            && forall e :: (e in q0 && e !in q1 <==> e in p0 && e !in p1) && (e in p0 ==> q0[e] == p0[e])
  {
  }

  lemma {:induction false} ConnectedAlike(rules: Rules, now: int, roots: set<Digest>, pre: BlockTree, post: BlockTree,
                                          p0: Pool, p1: Pool, c: Block)
    requires Sound(rules, post) && Connected(rules, now, roots, pre, post, p0, p1)
    requires HashOf(c) !in p0 && HashOf(c) !in post.blocks
    ensures Connected(rules, now, roots, pre, post, p0[HashOf(c) := c], p1[HashOf(c) := c])
  {
    TakenOutAlike(p0, p1, c);
  }

  lemma {:induction false} StruckAlike(rules: Rules, now: int, t: BlockTree, p0: Pool, p1: Pool, c: Block)
    requires Sound(rules, t) && HashOf(c) !in p0 && SubPool(p1, p0)
    requires Struck(rules, now, t, p0, p1) && StruckOnce(rules, now, t, p0, p1)
    ensures Struck(rules, now, t, p0[HashOf(c) := c], p1[HashOf(c) := c])
    ensures StruckOnce(rules, now, t, p0[HashOf(c) := c], p1[HashOf(c) := c])
  {
    TakenOutAlike(p0, p1, c);
    var q0 := p0[HashOf(c) := c];
    var e :| e in p0 && e !in p1 && Strikes(rules, now, t, p0[e]);
    assert Strikes(rules, now, t, q0[e]);
    forall j, k | j in p0 && j !in p1 && k in p0 && k !in p1 && Strikes(rules, now, t, q0[j])
        && Strikes(rules, now, t, q0[k])
      ensures j == k
    {
      assert Strikes(rules, now, t, p0[j]) && Strikes(rules, now, t, p0[k]);
    }
  }

  lemma {:induction false} BehindAlike(rules: Rules, now: int, roots: set<Digest>, pre: BlockTree, post: BlockTree,
                                       p0: Pool, p1: Pool, c: Block)
    requires Sound(rules, post) && Behind(rules, now, roots, pre, post, p0, p1) && HashOf(c) !in p0 && SubPool(p1, p0)
    requires forall e :: e in p0 && e !in p1 && Strikes(rules, now, post, p0[e]) ==>
               OnWay(post, c.header.prevHash, p0[e].header.prevHash)
    ensures Behind(rules, now, roots, pre, post, p0[HashOf(c) := c], p1[HashOf(c) := c])
  {
    TakenOutAlike(p0, p1, c);
    var q0, q1 := p0[HashOf(c) := c], p1[HashOf(c) := c];
    forall e, k | e in q0 && e !in q1 && Strikes(rules, now, post, q0[e]) && k in q1
        && q1[k].header.prevHash in roots + Added(pre, post)
      ensures OnWay(post, q1[k].header.prevHash, q0[e].header.prevHash)
    {
      assert Strikes(rules, now, post, p0[e]);
      if k != HashOf(c) { assert q1[k] == p1[k]; }
    }
  }

  /** One more orphan that waits on the way to an exception is left where it is. */
  lemma {:induction false} OneMoreOrphanLeft(rules: Rules, now: int, t0: BlockTree, t1: BlockTree, p0: Pool, p1: Pool,
                                             b: Block, c: Block)
    requires Sound(rules, t0) && Sound(rules, t1) && AddOutcome(rules, now, t0, t1, p0, p1, b, Raised)
    requires FateOf(rules, t0, b, now) == IsStored && HashOf(c) !in p0 && HashOf(c) !in t1.blocks
    requires forall e :: e in p0 && e !in p1 && Strikes(rules, now, t1, p0[e]) ==>
               OnWay(t1, c.header.prevHash, p0[e].header.prevHash)
    ensures AddOutcome(rules, now, t0, t1, p0[HashOf(c) := c], p1[HashOf(c) := c], b, Raised)
  {
    ConnectedAlike(rules, now, {HashOf(b)}, Graft(t0, b), t1, p0, p1, c);
    StruckAlike(rules, now, t1, p0, p1, c);
    BehindAlike(rules, now, {HashOf(b)}, Graft(t0, b), t1, p0, p1, c);
  }

  /** The blocks of a branch above its first, and one on top of it: all have to wait for the first. */
  lemma {:induction false} UpperWait(rules: Rules, s: seq<Block>, b: Block)
    requires ValidBranch(rules, s) && |s| > 1 && HashOf(Last(s)) == b.header.prevHash
    ensures forall x :: x in s[2..] + [b] ==> Waits(x)
  {
    HashesDistinct(rules, s);
    BranchStart(rules, s);
    forall i | 2 <= i < |s| ensures Waits(s[i]) {
      Linked(rules, s, i);
    }
    TopIsNew(rules, s, b, 0);
  }

  /** Delivered before the first block of the branch, they are the orphans. */
  lemma {:induction false} WaitingRun(rules: Rules, now: int, xs: seq<Block>) returns (m: State)
    requires Sound(rules, FreshTree()) && forall x :: x in xs ==> Waits(x)
    ensures Sound(rules, m.t) && Keyed(m.p) && Leads(rules, now, Fresh(), xs, m)
    ensures m == State(FreshTree(), PoolAfter(map[], xs), false)
  {
    m := LeadsSomewhere(rules, now, Fresh(), xs);
    OrphansFirst(rules, now, Fresh(), xs, m);
  }

  /** Then the first block of the branch: the exception comes for sure. */
  lemma {:induction false} FirstThenRaises(rules: Rules, now: int, delivered: set<Block>, b: Block, s: seq<Block>,
                                           wait: seq<Block>)
    returns (t: BlockTree, p: Pool)
    requires Sound(rules, FreshTree()) && RaisesOn(rules, now, delivered, b, s) && |s| > 1 && wait == s[2..] + [b]
    ensures Sound(rules, t) && AddOutcome(rules, now, FreshTree(), t, PoolAfter(map[], wait), p, s[1], Raised)
  {
    UpperWait(rules, s, b);
    var m := WaitingRun(rules, now, wait);
    var r;
    t, p, r := OutcomeExists(rules, now, m.t, m.p, s[1]);
    var z := State(t, p, r == Raised);
    assert Step(rules, now, m, s[1], z, r);
    LeadsOn(rules, now, Fresh(), wait, m, s[1], z);
    MustRaise(rules, now, delivered, b, s, wait, z);
  }

  lemma {:induction false} MustRaise(rules: Rules, now: int, delivered: set<Block>, b: Block, s: seq<Block>,
                                     wait: seq<Block>, z: State)
    requires Sound(rules, FreshTree()) && RaisesOn(rules, now, delivered, b, s) && |s| > 1 && wait == s[2..] + [b]
    requires Leads(rules, now, Fresh(), wait + [s[1]], z)
    ensures z.raised
  {
    TrapAlone(rules, now, delivered, b, s);
    UpperAndFirst(s, b, wait);
    FreshRun(rules, now, BlockSet(s[1..]) + {b}, wait + [s[1]], z);
  }

  lemma UpperAndFirst(s: seq<Block>, b: Block, wait: seq<Block>)
    requires |s| > 1 && wait == s[2..] + [b]
    ensures BlockSet(wait + [s[1]]) == BlockSet(s[1..]) + {b}
  {
    assert s[1..] == [s[1]] + s[2..];
  }

  /** Of these orphans only the last can raise, and it does so on the branch. */
  lemma {:induction false} OnlyTopStrikes(rules: Rules, now: int, delivered: set<Block>, b: Block, s: seq<Block>,
                                          t: BlockTree, x: Block)
    requires RaisesOn(rules, now, delivered, b, s) && |s| > 1 && Sound(rules, t)
    requires x in s[2..] + [b] && Strikes(rules, now, t, x)
    ensures x == b && HashOf(Last(s)) == b.header.prevHash && t.branches[b.header.prevHash] == s
  {
    if x != b {
      var i :| 2 <= i < |s| && s[i] == x;
      AcceptedAt(rules, now, delivered, s, i);
      StoredPathIs(rules, t, s[..i]);
      assert false;
    }
    StoredPathIs(rules, t, s);
  }

  /** The orphans are the blocks that wait, and nothing else is stored in the end. */
  lemma {:induction false} OnlyThese(now: int, rules: Rules, wait: seq<Block>, first: Block, t: BlockTree, p: Pool,
                                     h: Digest)
    requires Sound(rules, FreshTree()) && Sound(rules, t) && FateOf(rules, FreshTree(), first, now) == IsStored
    requires AddOutcome(rules, now, FreshTree(), t, PoolAfter(map[], wait), p, first, Raised)
    requires h != GENESIS_HASH && h != HashOf(first) && forall x :: x in wait ==> HashOf(x) != h
    ensures h !in PoolAfter(map[], wait) && h !in t.blocks
  {
    NotInPool(wait, h);
    StoredFrom(rules, now, FreshTree(), t, PoolAfter(map[], wait), p, first, h);
  }

  lemma {:induction false} NotInPool(wait: seq<Block>, h: Digest)
    requires forall x :: x in wait ==> HashOf(x) != h
    ensures h !in PoolAfter(map[], wait)
  {
    PoolHolds(map[], wait);
  }

  lemma {:induction false} StoredFrom(rules: Rules, now: int, t0: BlockTree, t1: BlockTree, p0: Pool, p1: Pool,
                                      b: Block, h: Digest)
    requires Sound(rules, t0) && Sound(rules, t1) && FateOf(rules, t0, b, now) == IsStored
    requires AddOutcome(rules, now, t0, t1, p0, p1, b, Raised)
    ensures h in t1.blocks ==> h in t0.blocks || h == HashOf(b) || h in p0
  {
    AddedFrom(now, t0, t1, p0, b);
  }

  /** A block of the branch, delivered, waiting and left behind by the exception that comes with the first block. */
  lemma {:induction false} LeftInPool(rules: Rules, now: int, delivered: set<Block>, b: Block, s: seq<Block>, c: Block,
                                      j: nat, wait: seq<Block>)
    returns (t: BlockTree, p: Pool)
    requires Sound(rules, FreshTree()) && LeftBehind(rules, now, delivered, b, s, c, j) && wait == s[2..] + [b]
    ensures Sound(rules, t) && HashOf(c) in p && p[HashOf(c)] == c && HashOf(s[j]) in t.blocks && HashOf(c) !in t.blocks
    ensures AddOutcome(rules, now, FreshTree(), t, PoolAfter(map[], wait)[HashOf(c) := c], p, s[1], Raised)
  {
    var p1;
    t, p1 := FirstThenRaises(rules, now, delivered, b, s, wait);
    FirstIsStored(rules, now, delivered, s);
    OnlyWaiting(rules, s, b, c, wait);
    OnlyThese(now, rules, wait, s[1], t, p1, HashOf(c));
    var p0 := PoolAfter(map[], wait);
    PoolHolds(map[], wait);
    forall e | e in p0 && e !in p1 && Strikes(rules, now, t, p0[e])
      ensures OnWay(t, c.header.prevHash, p0[e].header.prevHash)
    {
      OnlyTopStrikes(rules, now, delivered, b, s, t, p0[e]);
      assert HashOf(t.branches[b.header.prevHash][j]) == c.header.prevHash;
    }
    var e :| e in p0 && e !in p1 && Strikes(rules, now, t, p0[e]);
    OnlyTopStrikes(rules, now, delivered, b, s, t, p0[e]);
    StoredElement(rules, t, s, j);
    OneMoreOrphanLeft(rules, now, FreshTree(), t, p0, p1, s[1], c);
    p := p1[HashOf(c) := c];
  }

  lemma {:induction false} StoredElement(rules: Rules, t: BlockTree, s: seq<Block>, j: nat)
    requires Sound(rules, t) && |s| > 0 && HashOf(Last(s)) in t.blocks && t.branches[HashOf(Last(s))] == s && j < |s|
    ensures HashOf(s[j]) in t.blocks
  {
    PathsOk(rules, t, HashOf(Last(s)));
    assert StepOk(t, s, j);
  }

  lemma {:induction false} FirstIsStored(rules: Rules, now: int, delivered: set<Block>, s: seq<Block>)
    requires Reaches(rules, now, delivered, s) && |s| > 1 && Sound(rules, FreshTree())
    ensures FateOf(rules, FreshTree(), s[1], now) == IsStored
  {
    AcceptedAt(rules, now, delivered, s, 1);
    BranchOfGenesis(rules, s[..1]);
    HashesDistinct(rules, s);
    BranchStart(rules, s);
  }

  lemma {:induction false} OnlyWaiting(rules: Rules, s: seq<Block>, b: Block, c: Block, wait: seq<Block>)
    requires ValidBranch(rules, s) && |s| > 1 && wait == s[2..] + [b]
    requires HashOf(c) != HashOf(b) && forall i :: 0 <= i < |s| ==> HashOf(s[i]) != HashOf(c)
    ensures HashOf(c) != GENESIS_HASH && HashOf(c) != HashOf(s[1]) && forall x :: x in wait ==> HashOf(x) != HashOf(c)
  {
    BranchStart(rules, s);
    NotAmong(s, b, c, wait);
  }

  lemma NotAmong(s: seq<Block>, b: Block, c: Block, wait: seq<Block>)
    requires |s| > 1 && s[0] == GENESIS && wait == s[2..] + [b]
    requires HashOf(c) != HashOf(b) && forall i :: 0 <= i < |s| ==> HashOf(s[i]) != HashOf(c)
    ensures HashOf(c) != GENESIS_HASH && HashOf(c) != HashOf(s[1]) && forall x :: x in wait ==> HashOf(x) != HashOf(c)
  {
    assert HashOf(s[0]) == GENESIS_HASH;
    forall x | x in wait ensures HashOf(x) != HashOf(c) {
      InWait(s, b, wait, x);
    }
  }

  lemma InWait(s: seq<Block>, b: Block, wait: seq<Block>, x: Block)
    requires |s| > 1 && wait == s[2..] + [b] && x in wait
    ensures x == b || exists i :: 2 <= i < |s| && s[i] == x
  {
    if x in s[2..] {
      var i :| 0 <= i < |s[2..]| && s[2..][i] == x;
      assert s[i + 2] == x;
    }
  }

  lemma {:induction false} RaisedStays(rules: Rules, now: int, a: State, xs: seq<Block>, rest: seq<Block>, z: State)
    requires Sound(rules, a.t) && Leads(rules, now, a, xs, z) && Sound(rules, z.t) && z.raised
    ensures Leads(rules, now, a, xs + rest, z)
    decreases |rest|
  {
    LastApart(xs, rest);
    if |rest| > 0 {
      RaisedStays(rules, now, a, xs, rest[..|rest| - 1], z);
      LeadsOn(rules, now, a, xs + rest[..|rest| - 1], z, rest[|rest| - 1], z);
    }
  }

  /** The delivery starts with the upper part of the branch, the block that raises, and the one that is left. */
  lemma {:induction false} StrandingStart(rules: Rules, now: int, delivered: set<Block>, b: Block, s: seq<Block>,
                                          c: Block, j: nat)
    returns (first: seq<Block>, m: State, z: State)
    requires LeftBehind(rules, now, delivered, b, s, c, j)
    ensures Sound(rules, FreshTree()) && Leads(rules, now, Fresh(), first, m) && Sound(rules, m.t) && !m.raised
    ensures Step(rules, now, m, s[1], z, Raised) && BlockSet(first + [s[1]]) <= delivered && c in first
    ensures HashOf(c) in z.p && z.p[HashOf(c)] == c && HashOf(s[j]) in z.t.blocks && HashOf(c) !in z.t.blocks
  {
    FreshIsSound(rules);
    var wait := s[2..] + [b];
    first := wait + [c];
    var t, p := LeftInPool(rules, now, delivered, b, s, c, j, wait);
    z := State(t, p, true);
    UpperWait(rules, s, b);
    ThirdWaits(rules, s, c, j);
    m := WaitingRun(rules, now, first);
    PoolAfterOne(wait, c);
    FirstDelivered(rules, now, delivered, b, s, c, first);
  }

  /**
   * The delivery: the upper part of the branch, the block that raises, the one that is left, the first block, the rest.
   */
  lemma {:induction false} StrandingRun(rules: Rules, now: int, delivered: set<Block>, b: Block, s: seq<Block>,
                                        c: Block, j: nat)
    returns (xs: seq<Block>, z: State)
    requires LeftBehind(rules, now, delivered, b, s, c, j)
    ensures RunOver(rules, now, delivered, xs, z) && z.raised && Stranded(z.t, z.p)
  {
    var first, m;
    first, m, z := StrandingStart(rules, now, delivered, b, s, c, j);
    LeadsOn(rules, now, Fresh(), first, m, s[1], z);
    var rest;
    xs, rest := BranchFirst(delivered, first + [s[1]]);
    RaisedStays(rules, now, Fresh(), first + [s[1]], rest, z);
  }

  lemma {:induction false} ThirdWaits(rules: Rules, s: seq<Block>, c: Block, j: nat)
    requires ValidBranch(rules, s) && 1 <= j < |s| && c.header.prevHash == HashOf(s[j]) && HashOf(c) != HashOf(s[0])
    ensures Waits(c)
  {
    HashesDistinct(rules, s);
    BranchStart(rules, s);
    assert HashOf(s[0]) == GENESIS_HASH;
  }

  lemma {:induction false} PoolAfterOne(wait: seq<Block>, c: Block)
    ensures PoolAfter(map[], wait + [c]) == PoolAfter(map[], wait)[HashOf(c) := c]
  {
    assert (wait + [c])[..|wait|] == wait;
  }

  lemma {:induction false} FirstDelivered(rules: Rules, now: int, delivered: set<Block>, b: Block, s: seq<Block>,
                                          c: Block, first: seq<Block>)
    requires RaisesOn(rules, now, delivered, b, s) && c in delivered && |s| > 1 && first == s[2..] + [b] + [c]
    ensures BlockSet(first + [s[1]]) <= delivered
  {
    forall x | x in first + [s[1]] ensures x in delivered {
      OneOfThese(s, b, c, first, x);
    }
  }

  lemma OneOfThese(s: seq<Block>, b: Block, c: Block, first: seq<Block>, x: Block)
    requires |s| > 1 && first == s[2..] + [b] + [c] && x in first + [s[1]]
    ensures x == b || x == c || exists i :: 1 <= i < |s| && s[i] == x
  {
    if x in s[2..] {
      var i :| 0 <= i < |s[2..]| && s[2..][i] == x;
      assert s[i + 2] == x;
    }
  }

  lemma {:induction false} StrandedOver(rules: Rules, now: int, delivered: set<Block>, xs: seq<Block>, z: State)
    requires RunOver(rules, now, delivered, xs, z) && Stranded(z.t, z.p)
    ensures Strandable(rules, now, delivered)
  {
    FreshIsSettled(rules, now, FreshTree());
    StrandedLeads(rules, now, Fresh(), {}, xs, z);
    assert {} + BlockSet(xs) == delivered;
  }

  /**
   * Some delivery to a new node, in some order of blocks and of the orphans retried, leaves an orphan behind its stored
   * parent exactly when some delivered block raises on a branch of delivered blocks, and another waits on that branch.
   */
  lemma {:induction false} SomeOrderStrands(rules: Rules, now: int, delivered: set<Block>)
    ensures (exists xs, z :: RunOver(rules, now, delivered, xs, z) && Stranded(z.t, z.p))
            <==> Strandable(rules, now, delivered)
  {
    forall xs, z | RunOver(rules, now, delivered, xs, z) && Stranded(z.t, z.p)
      ensures Strandable(rules, now, delivered)
    {
      StrandedOver(rules, now, delivered, xs, z);
    }
    if b, s, c, j :| LeftBehind(rules, now, delivered, b, s, c, j) {
      var xs, z := StrandingRun(rules, now, delivered, b, s, c, j);
    }
  }
}
