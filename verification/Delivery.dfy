/** Delivering blocks one after the other: what ends up stored, and when delivery raises. */
module Delivery {
  import opened Ledger
  import opened Chain
  import opened Tree
  import opened NodeChain

  function BlockSet(bs: seq<Block>): set<Block> {
    set b | b in bs
  }

  /** Everything stored was delivered, and passed the clock. */
  ghost predicate OnlyDelivered(now: int, t: BlockTree, p: Pool, delivered: set<Block>) {
    && (forall h :: h in t.blocks && h != GENESIS_HASH ==> t.blocks[h] in delivered && NotTooEarly(t.blocks[h], now))
    && (forall k :: k in p ==> p[k] in delivered)
  }

  /** No orphan is stored, and none has a stored parent. */
  ghost predicate TrueOrphans(t: BlockTree, p: Pool) {
    forall k :: k in p ==> HashOf(p[k]) == k && k !in t.blocks && p[k].header.prevHash !in t.blocks
  }

  /**
   * A delivered body under the header of `b` was refused on its parent's branch. It is `b` itself when the parent
   * is genesis: then nobody ever had to wait, and no body has taken the place of another.
   */
  ghost predicate Refused(rules: Rules, now: int, t: BlockTree, delivered: set<Block>, b: Block)
    requires Sound(rules, t)
  {
    && b.header.prevHash in t.blocks
    && exists c :: && c in delivered && c.header == b.header && (b.header.prevHash == GENESIS_HASH ==> c == b)
                   && VerdictOn(rules, t, c, now) == Reject
  }

  /** A delivered block, or another body under its header, is stored, or waits for its parent, or was refused. */
  ghost predicate Placed(rules: Rules, now: int, t: BlockTree, p: Pool, delivered: set<Block>, b: Block)
    requires Sound(rules, t)
  {
    HashOf(b) in t.blocks || HashOf(b) in p || Refused(rules, now, t, delivered, b)
  }

  /** The state of a node that has digested the blocks `delivered`. */
  ghost predicate Settled(rules: Rules, now: int, t: BlockTree, p: Pool, delivered: set<Block>) {
    && Sound(rules, t)
    && OnlyDelivered(now, t, p, delivered)
    && TrueOrphans(t, p)
    && (forall b {:trigger Placed(rules, now, t, p, delivered, b)} ::
          b in delivered ==> Placed(rules, now, t, p, delivered, b))
  }

  // ----- one more delivery -------------------------------------------------------- //

  /** Where a block stored after `b` was added comes from: it was there, or it is `b`, or it was an orphan. */
  ghost predicate ComesFrom(now: int, t0: BlockTree, t1: BlockTree, p0: Pool, b: Block, h: Digest)
    requires Shaped(t0) && b.header.prevHash in t0.blocks && h in t1.blocks
  {
    || (h in t0.blocks && t1.blocks[h] == t0.blocks[h])
    || (h == HashOf(b) && t1.blocks[h] == b)
    || (h in p0 && t1.blocks[h] == p0[h] && NotTooEarly(p0[h], now) && h in Added(Graft(t0, b), t1))
  }

  lemma AddedFrom(now: int, t0: BlockTree, t1: BlockTree, p0: Pool, b: Block)
    requires Shaped(t0) && b.header.prevHash in t0.blocks && HashOf(b) !in t0.blocks
    requires Extends(Graft(t0, b), t1) && Grown(now, {HashOf(b)}, Graft(t0, b), t1, p0)
    ensures forall h {:trigger ComesFrom(now, t0, t1, p0, b, h)} :: h in t1.blocks ==> ComesFrom(now, t0, t1, p0, b, h)
    ensures forall h :: h in t1.blocks ==> h in t0.blocks || h == HashOf(b) || (h in p0 && h in Added(Graft(t0, b), t1))
  {
    forall h | h in t1.blocks && h !in t0.blocks && h != HashOf(b) ensures h in Added(Graft(t0, b), t1) {
    }
  }

  /** Storing only ever draws on what was delivered, also when an exception cuts it short. */
  lemma StillOnlyDelivered(rules: Rules, now: int, t0: BlockTree, t1: BlockTree, p0: Pool, p1: Pool,
                           delivered: set<Block>, b: Block, r: AddResult)
    requires Sound(rules, t0) && Sound(rules, t1) && OnlyDelivered(now, t0, p0, delivered)
    requires AddOutcome(rules, now, t0, t1, p0, p1, b, r)
    ensures OnlyDelivered(now, t1, p1, delivered + {b})
  {
    if FateOf(rules, t0, b, now) == IsStored {
      AddedFrom(now, t0, t1, p0, b);
      GrowsFromDelivered(now, t0, t1, p0, p1, delivered, b);
    }
  }

  lemma GrowsFromDelivered(now: int, t0: BlockTree, t1: BlockTree, p0: Pool, p1: Pool, delivered: set<Block>, b: Block)
    requires OnlyDelivered(now, t0, p0, delivered) && SubPool(p1, p0) && NotTooEarly(b, now)
    requires Shaped(t0) && b.header.prevHash in t0.blocks
    requires forall h {:trigger ComesFrom(now, t0, t1, p0, b, h)} :: h in t1.blocks ==> ComesFrom(now, t0, t1, p0, b, h)
    ensures OnlyDelivered(now, t1, p1, delivered + {b})
  {
    forall h | h in t1.blocks && h != GENESIS_HASH
      ensures t1.blocks[h] in delivered + {b} && NotTooEarly(t1.blocks[h], now)
    {
      assert ComesFrom(now, t0, t1, p0, b, h);
    }
  }

  lemma StillTrueOrphans(rules: Rules, now: int, t0: BlockTree, t1: BlockTree, p0: Pool, p1: Pool, b: Block,
                         r: AddResult)
    requires Sound(rules, t0) && Sound(rules, t1) && TrueOrphans(t0, p0) && r != Raised
    requires AddOutcome(rules, now, t0, t1, p0, p1, b, r)
    ensures TrueOrphans(t1, p1)
  {
    if FateOf(rules, t0, b, now) == IsStored {
      AddedFrom(now, t0, t1, p0, b);
      forall k | k in p1
        ensures HashOf(p1[k]) == k && k !in t1.blocks && p1[k].header.prevHash !in t1.blocks
      {
        assert p1[k] == p0[k];
      }
    }
  }

  /** However it ends, add_block keeps everything that was stored. */
  lemma OutcomeExtends(rules: Rules, now: int, t0: BlockTree, t1: BlockTree, p0: Pool, p1: Pool, b: Block, r: AddResult)
    requires Sound(rules, t0) && Sound(rules, t1) && AddOutcome(rules, now, t0, t1, p0, p1, b, r)
    ensures Extends(t0, t1)
  {
    if FateOf(rules, t0, b, now) == IsStored {
      GraftExtends(t0, b);
      GraftIsSound(rules, t0, b, now);
      ExtendsThrough(rules, t0, Graft(t0, b), t1);
    }
  }

  lemma RefusalKept(rules: Rules, now: int, t0: BlockTree, t1: BlockTree, some: set<Block>, more: set<Block>, a: Block)
    requires Sound(rules, t0) && Sound(rules, t1) && Extends(t0, t1) && some <= more
    requires Refused(rules, now, t0, some, a)
    ensures Refused(rules, now, t1, more, a)
  {
    var c :| && c in some && c.header == a.header && (a.header.prevHash == GENESIS_HASH ==> c == a)
             && VerdictOn(rules, t0, c, now) == Reject;
    VerdictKept(rules, t0, t1, c, now);
  }

  lemma StillPlaced(rules: Rules, now: int, t0: BlockTree, t1: BlockTree, p0: Pool, p1: Pool,
                    delivered: set<Block>, b: Block, r: AddResult, a: Block)
    requires Settled(rules, now, t0, p0, delivered) && Sound(rules, t1) && r != Raised
    requires AddOutcome(rules, now, t0, t1, p0, p1, b, r) && a in delivered + {b}
    ensures Placed(rules, now, t1, p1, delivered + {b}, a)
  {
    OutcomeExtends(rules, now, t0, t1, p0, p1, b, r);
    if a in delivered {
      assert Placed(rules, now, t0, p0, delivered, a);
      if HashOf(a) in t0.blocks {
        ExtendsKeeps(t0, t1, HashOf(a));
      } else if HashOf(a) in p0 {
        OrphanPlaced(rules, now, t0, t1, p0, p1, delivered, b, r, a);
      } else {
        RefusalKept(rules, now, t0, t1, delivered, delivered + {b}, a);
      }
    }
  }

  lemma OrphanPlaced(rules: Rules, now: int, t0: BlockTree, t1: BlockTree, p0: Pool, p1: Pool,
                     delivered: set<Block>, b: Block, r: AddResult, a: Block)
    requires Sound(rules, t0) && Sound(rules, t1) && r != Raised && OnlyDelivered(now, t0, p0, delivered)
    requires AddOutcome(rules, now, t0, t1, p0, p1, b, r)
    requires TrueOrphans(t0, p0) && HashOf(a) in p0
    ensures Placed(rules, now, t1, p1, delivered + {b}, a)
  {
    var k := HashOf(a);
    if FateOf(rules, t0, b, now) == IsStored && k !in p1 && k !in t1.blocks {
      assert Resolved(rules, now, t1, p0[k]);
      assert !Strikes(rules, now, t1, p0[k]);
    }
  }

  /** A delivery that does not raise keeps the node settled. */
  lemma DeliverOne(rules: Rules, now: int, t0: BlockTree, t1: BlockTree, p0: Pool, p1: Pool,
                   delivered: set<Block>, b: Block, r: AddResult)
    requires Settled(rules, now, t0, p0, delivered) && Sound(rules, t1) && r != Raised
    requires AddOutcome(rules, now, t0, t1, p0, p1, b, r)
    ensures Settled(rules, now, t1, p1, delivered + {b})
  {
    StillOnlyDelivered(rules, now, t0, t1, p0, p1, delivered, b, r);
    StillTrueOrphans(rules, now, t0, t1, p0, p1, b, r);
    forall a | a in delivered + {b} ensures Placed(rules, now, t1, p1, delivered + {b}, a) {
      StillPlaced(rules, now, t0, t1, p0, p1, delivered, b, r, a);
    }
  }

  // ----- what a settled node stores ------------------------------------------------- //

  /** A valid branch made of delivered blocks that pass the clock. */
  ghost predicate Reaches(rules: Rules, now: int, delivered: set<Block>, s: seq<Block>) {
    && ValidBranch(rules, s)
    && forall i :: 1 <= i < |s| ==> s[i] in delivered && NotTooEarly(s[i], now)
  }

  /** Block `i` of the branch cannot lose its place: no other delivered body under its header is refused there. */
  ghost predicate SafeAt(rules: Rules, now: int, delivered: set<Block>, s: seq<Block>, i: nat)
    requires 2 <= i < |s|
  {
    forall c :: c in delivered && c != s[i] && c.header == s[i].header ==>
      && ValidBranch(rules, s[..i]) && Judge(rules, s[..i], c, now) != Reject
  }

  /** No block of the branch can lose its place. A child of genesis cannot: it never waits. */
  ghost predicate Safe(rules: Rules, now: int, delivered: set<Block>, s: seq<Block>) {
    forall i: nat {:trigger SafeAt(rules, now, delivered, s, i)} :: 2 <= i < |s| ==> SafeAt(rules, now, delivered, s, i)
  }

  /** Every stored block is reached by delivered blocks. */
  lemma StoredIsReached(rules: Rules, now: int, t: BlockTree, p: Pool, delivered: set<Block>, h: Digest)
    requires Sound(rules, t) && OnlyDelivered(now, t, p, delivered) && h in t.blocks
    ensures Reaches(rules, now, delivered, t.branches[h])
  {
    PathsOk(rules, t, h);
    var s := t.branches[h];
    forall i | 1 <= i < |s| ensures s[i] in delivered && NotTooEarly(s[i], now) {
      assert StepOk(t, s, i);
    }
  }

  lemma {:induction false} ReachedTail(rules: Rules, now: int, delivered: set<Block>, s: seq<Block>)
    requires Reaches(rules, now, delivered, s) && |s| > 1
    ensures Reaches(rules, now, delivered, Init(s)) && Last(s).header.prevHash == HashOf(Last(Init(s)))
    ensures Last(s) in delivered && Judge(rules, Init(s), Last(s), now) == Accept
    ensures HashOf(Last(s)) != GENESIS_HASH
  {
    LastLink(rules, s);
    ValidTail(rules, s);
    AcceptedFits(rules, Init(s), Last(s), now);
  }

  lemma {:induction false} SafeInit(rules: Rules, now: int, delivered: set<Block>, s: seq<Block>)
    requires Safe(rules, now, delivered, s) && |s| > 1
    ensures Safe(rules, now, delivered, Init(s))
  {
    forall i: nat | 2 <= i < |Init(s)| ensures SafeAt(rules, now, delivered, Init(s), i) {
      assert SafeAt(rules, now, delivered, s, i);
      assert Init(s)[..i] == s[..i];
    }
  }

  /** Every safe branch of delivered blocks is stored, under that very path. */
  lemma {:induction false} ReachedIsStored(rules: Rules, now: int, t: BlockTree, p: Pool, delivered: set<Block>,
                                           s: seq<Block>)
    requires Settled(rules, now, t, p, delivered)
    requires Reaches(rules, now, delivered, s) && Safe(rules, now, delivered, s)
    ensures HashOf(Last(s)) in t.blocks && t.branches[HashOf(Last(s))] == s
    decreases |s|
  {
    if |s| == 1 {
      assert s == [GENESIS];
    } else {
      ReachedTail(rules, now, delivered, s);
      SafeInit(rules, now, delivered, s);
      ReachedIsStored(rules, now, t, p, delivered, Init(s));
      ReachedStep(rules, now, t, p, delivered, s);
    }
  }

  lemma {:induction false} ReachedStep(rules: Rules, now: int, t: BlockTree, p: Pool, delivered: set<Block>,
                                       s: seq<Block>)
    requires Settled(rules, now, t, p, delivered) && |s| > 1
    requires Reaches(rules, now, delivered, s) && Safe(rules, now, delivered, s)
    requires HashOf(Last(Init(s))) in t.blocks && t.branches[HashOf(Last(Init(s)))] == Init(s)
    ensures HashOf(Last(s)) in t.blocks && t.branches[HashOf(Last(s))] == s
  {
    ReachedTail(rules, now, delivered, s);
    var b, parent := Last(s), HashOf(Last(Init(s)));
    assert Placed(rules, now, t, p, delivered, b);
    if HashOf(b) in t.blocks {
      StoredPathIs(rules, t, s);
    } else {
      assert Refused(rules, now, t, delivered, b);
      var c :| && c in delivered && c.header == b.header && (b.header.prevHash == GENESIS_HASH ==> c == b)
               && VerdictOn(rules, t, c, now) == Reject;
      RefusedBodyIsNoTwin(rules, now, delivered, s, c);
    }
  }

  lemma {:induction false} StoredPathIs(rules: Rules, t: BlockTree, s: seq<Block>)
    requires Sound(rules, t) && ValidBranch(rules, s) && HashOf(Last(s)) in t.blocks
    ensures t.branches[HashOf(Last(s))] == s
  {
    StoredBlock(rules, t, HashOf(Last(s)));
    BranchIsUnique(rules, t.branches[HashOf(Last(s))], s);
  }

  lemma {:induction false} RefusedBodyIsNoTwin(rules: Rules, now: int, delivered: set<Block>, s: seq<Block>, c: Block)
    requires Reaches(rules, now, delivered, s) && Safe(rules, now, delivered, s) && |s| > 1
    requires c in delivered && c.header == Last(s).header && (Last(s).header.prevHash == GENESIS_HASH ==> c == Last(s))
    ensures ValidBranch(rules, Init(s)) && Judge(rules, Init(s), c, now) != Reject
  {
    ReachedTail(rules, now, delivered, s);
    Linked(rules, s, 0);
    if |s| > 2 {
      assert SafeAt(rules, now, delivered, s, |s| - 1);
    }
  }

  /** A delivered block has another delivered body under its header. */
  ghost predicate HasTwin(delivered: set<Block>, b: Block) {
    exists c :: c in delivered && c != b && c.header == b.header
  }

  /** No acceptable block that may have to wait for its parent has a twin. */
  ghost predicate Clear(rules: Rules, now: int, delivered: set<Block>) {
    forall s {:trigger Reaches(rules, now, delivered, s)} ::
      Reaches(rules, now, delivered, s) && |s| > 2 ==> !HasTwin(delivered, Last(s))
  }

  lemma {:induction false} ReachedPrefix(rules: Rules, now: int, delivered: set<Block>, s: seq<Block>, n: nat)
    requires Reaches(rules, now, delivered, s) && 0 < n <= |s|
    ensures Reaches(rules, now, delivered, s[..n])
  {
    ValidPrefix(rules, s, n);
  }

  lemma {:induction false} ClearIsSafe(rules: Rules, now: int, delivered: set<Block>, s: seq<Block>)
    requires Clear(rules, now, delivered) && Reaches(rules, now, delivered, s)
    ensures Safe(rules, now, delivered, s)
  {
    forall i: nat | 2 <= i < |s| ensures SafeAt(rules, now, delivered, s, i) {
      NotTwinned(rules, now, delivered, s, i);
      NoTwinIsSafe(rules, now, delivered, s, i);
    }
  }

  lemma {:induction false} NotTwinned(rules: Rules, now: int, delivered: set<Block>, s: seq<Block>, i: nat)
    requires Clear(rules, now, delivered) && Reaches(rules, now, delivered, s) && 2 <= i < |s|
    ensures !HasTwin(delivered, s[i])
  {
    var reached := (u: seq<Block>) => Reaches(rules, now, delivered, u);
    var alone := (b: Block) => !HasTwin(delivered, b);
    forall u, n: nat | reached(u) && 0 < n <= |u| ensures reached(u[..n]) {
      ReachedPrefix(rules, now, delivered, u, n);
    }
    forall u | reached(u) && |u| > 2 ensures alone(u[|u| - 1]) {
      LastIsClear(rules, now, delivered, u);
    }
    EndOfPrefix(reached, alone, s, i);
    assert alone(s[i]);
  }

  /** What holds for the last of every such list holds for all, if the prefixes are such lists. */
  lemma EndOfPrefix<T>(such: seq<T> -> bool, good: T -> bool, s: seq<T>, i: nat)
    requires such(s) && 2 <= i < |s|
    requires forall u, n :: such(u) && 0 < n <= |u| ==> such(u[..n])
    requires forall u :: such(u) && |u| > 2 ==> good(u[|u| - 1])
    ensures good(s[i])
  {
    assert such(s[..i + 1]);
    assert s[..i + 1][i] == s[i];
  }

  lemma {:induction false} LastIsClear(rules: Rules, now: int, delivered: set<Block>, s: seq<Block>)
    requires Clear(rules, now, delivered) && Reaches(rules, now, delivered, s) && |s| > 2
    ensures !HasTwin(delivered, s[|s| - 1])
  {
  }

  lemma {:induction false} NoTwinIsSafe(rules: Rules, now: int, delivered: set<Block>, s: seq<Block>, i: nat)
    requires 2 <= i < |s| && !HasTwin(delivered, s[i])
    ensures SafeAt(rules, now, delivered, s, i)
  {
  }

  /** What a settled node stores: exactly the blocks whose whole ancestry was delivered and is valid. */
  lemma {:induction false} StoredExactly(rules: Rules, now: int, t: BlockTree, p: Pool, delivered: set<Block>,
                                         h: Digest)
    requires Settled(rules, now, t, p, delivered) && Clear(rules, now, delivered)
    ensures h in t.blocks <==> exists s :: Reaches(rules, now, delivered, s) && HashOf(Last(s)) == h
  {
    if h in t.blocks {
      StoredIsReached(rules, now, t, p, delivered, h);
      StoredBlock(rules, t, h);
    }
    forall s | Reaches(rules, now, delivered, s) && HashOf(Last(s)) == h ensures h in t.blocks {
      ClearIsSafe(rules, now, delivered, s);
      ReachedIsStored(rules, now, t, p, delivered, s);
    }
  }

  /**
   * Delivery order does not matter: two nodes that digested the same blocks hold the same tree, wait for the same
   * hashes, and have tips of the same work.
   */
  lemma {:induction false} OrderDoesNotMatter(rules: Rules, now: int, t1: BlockTree, p1: Pool, tip1: Digest,
                                              t2: BlockTree, p2: Pool, tip2: Digest, delivered: set<Block>)
    requires Settled(rules, now, t1, p1, delivered) && Heaviest(t1, tip1)
    requires Settled(rules, now, t2, p2, delivered) && Heaviest(t2, tip2)
    requires Clear(rules, now, delivered)
    ensures t1 == t2 && p1.Keys == p2.Keys
    ensures t1.chainwork[tip1] == t2.chainwork[tip2]
  {
    SameStored(rules, now, t1, p1, t2, p2, delivered);
    SameStored(rules, now, t2, p2, t1, p1, delivered);
    SameTree(t1, t2);
    SameOrphans(rules, now, t1, p1, p2, delivered);
    SameOrphans(rules, now, t1, p2, p1, delivered);
  }

  lemma {:induction false} SameStored(rules: Rules, now: int, t1: BlockTree, p1: Pool, t2: BlockTree, p2: Pool,
                                      delivered: set<Block>)
    requires Settled(rules, now, t1, p1, delivered) && Settled(rules, now, t2, p2, delivered)
             && Clear(rules, now, delivered)
    ensures forall h :: h in t1.blocks ==>
              && h in t2.blocks && t1.blocks[h] == t2.blocks[h] && t1.branches[h] == t2.branches[h]
              && t1.heights[h] == t2.heights[h] && t1.chainwork[h] == t2.chainwork[h]
  {
    forall h | h in t1.blocks
      ensures h in t2.blocks && t1.blocks[h] == t2.blocks[h] && t1.branches[h] == t2.branches[h]
      ensures t1.heights[h] == t2.heights[h] && t1.chainwork[h] == t2.chainwork[h]
    {
      StoredBlock(rules, t1, h);
      StoredIsReached(rules, now, t1, p1, delivered, h);
      ClearIsSafe(rules, now, delivered, t1.branches[h]);
      ReachedIsStored(rules, now, t2, p2, delivered, t1.branches[h]);
      StoredBlock(rules, t2, h);
    }
  }

  lemma SameTree(t1: BlockTree, t2: BlockTree)
    requires Shaped(t1) && Shaped(t2) && t1.blocks.Keys == t2.blocks.Keys
    requires forall h :: h in t1.blocks ==>
               && t1.blocks[h] == t2.blocks[h] && t1.branches[h] == t2.branches[h]
               && t1.heights[h] == t2.heights[h] && t1.chainwork[h] == t2.chainwork[h]
    ensures t1 == t2
  {
    assert t1.blocks == t2.blocks && t1.branches == t2.branches;
    assert t1.heights == t2.heights && t1.chainwork == t2.chainwork;
  }

  lemma SameOrphans(rules: Rules, now: int, t: BlockTree, p1: Pool, p2: Pool, delivered: set<Block>)
    requires Settled(rules, now, t, p1, delivered) && Settled(rules, now, t, p2, delivered)
    ensures p1.Keys <= p2.Keys
  {
    forall k | k in p1 ensures k in p2 {
      assert Placed(rules, now, t, p2, delivered, p1[k]);
    }
  }

  // ----- exceptions ------------------------------------------------------------------ //

  /** A delivered block makes validation raise on a branch of delivered blocks. */
  ghost predicate RaisesOn(rules: Rules, now: int, delivered: set<Block>, b: Block, s: seq<Block>) {
    && b in delivered && Reaches(rules, now, delivered, s) && HashOf(Last(s)) == b.header.prevHash
    && Judge(rules, s, b, now) == Raise
  }

  ghost predicate RaisesWithin(rules: Rules, now: int, delivered: set<Block>) {
    exists b, s :: RaisesOn(rules, now, delivered, b, s)
  }

  lemma {:induction false} ReachesMore(rules: Rules, now: int, some: set<Block>, more: set<Block>, s: seq<Block>)
    requires Reaches(rules, now, some, s) && some <= more
    ensures Reaches(rules, now, more, s)
  {
  }

  lemma {:induction false} RaisesWithinMore(rules: Rules, now: int, some: set<Block>, more: set<Block>)
    requires RaisesWithin(rules, now, some) && some <= more
    ensures RaisesWithin(rules, now, more)
  {
    var b, s :| RaisesOn(rules, now, some, b, s);
    ReachesMore(rules, now, some, more, s);
    assert RaisesOn(rules, now, more, b, s);
  }

  /** The block behind an exception: the one added, or an orphan that was being retried. */
  lemma Culprit(rules: Rules, now: int, t0: BlockTree, t1: BlockTree, p0: Pool, p1: Pool, b: Block) returns (c: Block)
    requires Sound(rules, t0) && Sound(rules, t1) && AddOutcome(rules, now, t0, t1, p0, p1, b, Raised)
    ensures Strikes(rules, now, t1, c)
    ensures (c == b && FateOf(rules, t0, b, now) == IsRaise) || exists k :: k in p0 && p0[k] == c
  {
    if FateOf(rules, t0, b, now) == IsStored {
      var k :| k in p0 && k !in p1 && Strikes(rules, now, t1, p0[k]);
      c := p0[k];
    } else {
      c := b;
    }
  }

  /** An exception always has such a block behind it. */
  lemma {:induction false} ExceptionHasCause(rules: Rules, now: int, t0: BlockTree, t1: BlockTree, p0: Pool, p1: Pool,
                                             delivered: set<Block>, b: Block)
    requires Sound(rules, t0) && Sound(rules, t1) && OnlyDelivered(now, t0, p0, delivered)
    requires AddOutcome(rules, now, t0, t1, p0, p1, b, Raised)
    ensures RaisesWithin(rules, now, delivered + {b})
  {
    StillOnlyDelivered(rules, now, t0, t1, p0, p1, delivered, b, Raised);
    var c := Culprit(rules, now, t0, t1, p0, p1, b);
    StruckOnPath(rules, now, t1, p1, delivered + {b}, c);
  }

  lemma {:induction false} StruckOnPath(rules: Rules, now: int, t: BlockTree, p: Pool, delivered: set<Block>, c: Block)
    requires Sound(rules, t) && OnlyDelivered(now, t, p, delivered) && c in delivered && Strikes(rules, now, t, c)
    ensures RaisesOn(rules, now, delivered, c, t.branches[c.header.prevHash])
  {
    StoredIsReached(rules, now, t, p, delivered, c.header.prevHash);
    StoredBlock(rules, t, c.header.prevHash);
  }

  /**
   * Some delivered block raises on a safe branch, and no other body under its header can save the day: on genesis
   * by being accepted first, elsewhere by taking its place among the orphans and being accepted or refused.
   */
  ghost predicate Trap(rules: Rules, now: int, delivered: set<Block>, b: Block, s: seq<Block>) {
    && RaisesOn(rules, now, delivered, b, s) && Safe(rules, now, delivered, s)
    && forall c :: c in delivered && c.header == b.header ==>
         if |s| == 1 then Judge(rules, s, c, now) != Accept else Judge(rules, s, c, now) == Raise
  }

  ghost predicate Unavoidable(rules: Rules, now: int, delivered: set<Block>) {
    exists b, s :: Trap(rules, now, delivered, b, s)
  }

  /** Where an exception is unavoidable, no node can have digested all blocks. */
  lemma {:induction false} SettledMeansAvoided(rules: Rules, now: int, t: BlockTree, p: Pool, delivered: set<Block>)
    requires Settled(rules, now, t, p, delivered)
    ensures !Unavoidable(rules, now, delivered)
  {
    forall b, s | Trap(rules, now, delivered, b, s) ensures false {
      ReachedIsStored(rules, now, t, p, delivered, s);
      assert Placed(rules, now, t, p, delivered, b);
      if HashOf(b) in t.blocks {
        StoredIsAccepted(rules, now, t, p, delivered, b, s);
      }
    }
  }

  /** The body stored under the header of `b` was accepted on the branch its parent ends. */
  lemma {:induction false} StoredIsAccepted(rules: Rules, now: int, t: BlockTree, p: Pool, delivered: set<Block>,
                                            b: Block, s: seq<Block>)
    requires Sound(rules, t) && OnlyDelivered(now, t, p, delivered) && HashOf(b) in t.blocks
    requires ValidBranch(rules, s) && HashOf(Last(s)) == b.header.prevHash
    ensures var c := t.blocks[HashOf(b)];
            c in delivered && c.header == b.header && Judge(rules, s, c, now) == Accept
  {
    var h := HashOf(b);
    NoGenesisChild(rules, s, b);
    StoredBlock(rules, t, h);
    StoredPathIs(rules, t, s);
    ValidTail(rules, t.branches[h]);
    assert Init(t.branches[h]) == s;
    AcceptedFits(rules, s, t.blocks[h], now);
  }

  lemma {:induction false} NoGenesisChild(rules: Rules, s: seq<Block>, b: Block)
    requires ValidBranch(rules, s) && HashOf(Last(s)) == b.header.prevHash
    ensures HashOf(b) != GENESIS_HASH
  {
  }

  // ----- runs ------------------------------------------------------------------------- //

  /** Where a node is: its tree, its orphans, and whether an exception has ended the delivery. */
  datatype State = State(t: BlockTree, p: Pool, raised: bool)

  ghost predicate Step(rules: Rules, now: int, a: State, b: Block, z: State, r: AddResult)
    requires Sound(rules, a.t)
  {
    Sound(rules, z.t) && AddOutcome(rules, now, a.t, z.t, a.p, z.p, b, r) && (z.raised <==> r == Raised)
  }

  /** One more block, for a caller that lets an exception through. */
  ghost predicate Next(rules: Rules, now: int, a: State, b: Block, z: State)
    requires Sound(rules, a.t)
  {
    if a.raised then z == a else exists r :: Step(rules, now, a, b, z, r)
  }

  /** Delivering `bs` one after the other can lead from `a` to `z`. */
  ghost predicate Leads(rules: Rules, now: int, a: State, bs: seq<Block>, z: State)
    requires Sound(rules, a.t)
    decreases |bs|
  {
    if |bs| == 0 then z == a
    else exists m :: && Leads(rules, now, a, bs[..|bs| - 1], m) && Sound(rules, m.t)
                     && Next(rules, now, m, bs[|bs| - 1], z)
  }

  lemma {:induction false} LeadsOn(rules: Rules, now: int, a: State, bs: seq<Block>, m: State, b: Block, z: State)
    requires Sound(rules, a.t) && Leads(rules, now, a, bs, m) && Sound(rules, m.t) && Next(rules, now, m, b, z)
    ensures Leads(rules, now, a, bs + [b], z)
  {
    assert (bs + [b])[..|bs|] == bs;
  }

  lemma {:induction false} LeadsFurther(rules: Rules, now: int, a: State, bs: seq<Block>, i: nat, m: State, z: State)
    requires Sound(rules, a.t) && i < |bs| && Leads(rules, now, a, bs[..i], m) && Sound(rules, m.t)
             && Next(rules, now, m, bs[i], z)
    ensures Leads(rules, now, a, bs[..i + 1], z)
  {
    LeadsOn(rules, now, a, bs[..i], m, bs[i], z);
    OneLonger(bs, i);
  }

  lemma OneLonger(bs: seq<Block>, i: nat)
    requires i < |bs|
    ensures bs[..i + 1] == bs[..i] + [bs[i]] && bs[..i + 1][i] == bs[i]
    ensures i + 1 == |bs| ==> bs[..i + 1] == bs
  {
  }

  lemma BlockSetStep(before: set<Block>, bs: seq<Block>, i: nat)
    requires i < |bs|
    ensures before + BlockSet(bs[..i]) + {bs[i]} == before + BlockSet(bs[..i + 1])
    ensures before + BlockSet(bs[..i + 1]) <= before + BlockSet(bs)
  {
    assert bs[..i + 1] == bs[..i] + [bs[i]];
  }

  /** One more delivery from a settled node: it settles, or it raises for a reason. */
  lemma {:induction false} SettledNext(rules: Rules, now: int, a: State, delivered: set<Block>, b: Block, z: State)
    requires Settled(rules, now, a.t, a.p, delivered) && !a.raised && Next(rules, now, a, b, z)
    ensures z.raised ==> Sound(rules, z.t) && RaisesWithin(rules, now, delivered + {b})
    ensures !z.raised ==> Settled(rules, now, z.t, z.p, delivered + {b})
  {
    var r :| Step(rules, now, a, b, z, r);
    if r == Raised {
      ExceptionHasCause(rules, now, a.t, z.t, a.p, z.p, delivered, b);
    } else {
      DeliverOne(rules, now, a.t, z.t, a.p, z.p, delivered, b, r);
    }
  }

  /** From a settled node any delivery settles, or raises for a reason; and where it must raise, it does. */
  lemma {:induction false} SettledLeads(rules: Rules, now: int, a: State, before: set<Block>, bs: seq<Block>, z: State)
    requires Settled(rules, now, a.t, a.p, before) && !a.raised && Leads(rules, now, a, bs, z)
    ensures Sound(rules, z.t)
    ensures z.raised ==> RaisesWithin(rules, now, before + BlockSet(bs))
    ensures !z.raised ==> Settled(rules, now, z.t, z.p, before + BlockSet(bs))
    ensures Unavoidable(rules, now, before + BlockSet(bs)) ==> z.raised
    decreases |bs|
  {
    var all := before + BlockSet(bs);
    if |bs| == 0 {
      assert all == before;
    } else {
      var i, b := |bs| - 1, bs[|bs| - 1];
      var m :| Leads(rules, now, a, bs[..i], m) && Sound(rules, m.t) && Next(rules, now, m, b, z);
      var sofar := before + BlockSet(bs[..i]);
      SettledLeads(rules, now, a, before, bs[..i], m);
      BlockSetStep(before, bs, i);
      OneLonger(bs, i);
      if m.raised {
        RaisesWithinMore(rules, now, sofar, all);
      } else {
        SettledNext(rules, now, m, sofar, b, z);
      }
    }
    if !z.raised { SettledMeansAvoided(rules, now, z.t, z.p, all); }
  }

  lemma FreshIsSettled(rules: Rules, now: int, t: BlockTree)
    requires Sound(rules, t) && t.blocks == map[GENESIS_HASH := GENESIS]
    ensures Settled(rules, now, t, map[], {})
  {
  }

  /** One delivery, unless an exception has come before. */
  method DeliverNext(chain: Blockchain, b: Block, now: int, before: bool) returns (raised: bool)
    requires chain.Valid()
    modifies chain, chain.utxo
    ensures chain.Valid() && (chain.utxo == old(chain.utxo) || fresh(chain.utxo))
    ensures Next(chain.rules, now, old(State(chain.View(), chain.orphans, before)), b,
                 State(chain.View(), chain.orphans, raised))
  {
    if before { return true; }
    ghost var m := State(chain.View(), chain.orphans, before);
    var r := chain.AddBlock(b, now);
    raised := r == Raised;
    assert Step(chain.rules, now, m, b, State(chain.View(), chain.orphans, raised), r);
  }

  /**
   * Deliver blocks one after the other, as a caller does that lets the exception through. Delivery raises only when
   * some delivered block raises on a branch of delivered blocks, and always when that is unavoidable; otherwise the
   * node ends settled, so `OrderDoesNotMatter` applies.
   */
  method DeliverAll(chain: Blockchain, deliveries: seq<Block>, now: int, ghost before: set<Block>)
    returns (raised: bool)
    requires chain.Valid() && Settled(chain.rules, now, chain.View(), chain.orphans, before)
    modifies chain, chain.utxo
    ensures chain.Valid() && (chain.utxo == old(chain.utxo) || fresh(chain.utxo))
    ensures Leads(chain.rules, now, old(State(chain.View(), chain.orphans, false)), deliveries,
                  State(chain.View(), chain.orphans, raised))
    ensures raised ==> RaisesWithin(chain.rules, now, before + BlockSet(deliveries))
    ensures Unavoidable(chain.rules, now, before + BlockSet(deliveries)) ==> raised
    ensures !raised ==> Settled(chain.rules, now, chain.View(), chain.orphans, before + BlockSet(deliveries))
  {
    ghost var a := State(chain.View(), chain.orphans, false);
    raised := false;
    for i := 0 to |deliveries|
      invariant chain.Valid() && (chain.utxo == old(chain.utxo) || fresh(chain.utxo))
      invariant Leads(chain.rules, now, a, deliveries[..i], State(chain.View(), chain.orphans, raised))
    {
      ghost var m := State(chain.View(), chain.orphans, raised);
      raised := DeliverNext(chain, deliveries[i], now, raised);
      LeadsFurther(chain.rules, now, a, deliveries, i, m, State(chain.View(), chain.orphans, raised));
    }
    assert deliveries[..|deliveries|] == deliveries;
    SettledLeads(chain.rules, now, a, before, deliveries, State(chain.View(), chain.orphans, raised));
  }

  /** The same for a new node. */
  method DeliverToNew(rules: Rules, bs: seq<Block>, now: int) returns (chain: Blockchain, raised: bool)
    ensures fresh(chain) && fresh(chain.utxo) && chain.Valid() && chain.rules == rules
    ensures raised ==> RaisesWithin(rules, now, BlockSet(bs))
    ensures Unavoidable(rules, now, BlockSet(bs)) ==> raised
    ensures !raised ==>
              Settled(rules, now, chain.View(), chain.orphans, BlockSet(bs)) && Heaviest(chain.View(), chain.tip)
  {
    chain := new Blockchain(rules);
    FreshIsSettled(rules, now, chain.View());
    assert {} + BlockSet(bs) == BlockSet(bs);
    raised := DeliverAll(chain, bs, now, {});
  }

  /** When every order of the same blocks comes to the same: all raise, or none does and all give the same tree. */
  ghost predicate Exact(rules: Rules, now: int, delivered: set<Block>) {
    if RaisesWithin(rules, now, delivered) then Unavoidable(rules, now, delivered) else Clear(rules, now, delivered)
  }

  lemma {:induction false} BothAgree(rules: Rules, now: int, t1: BlockTree, p1: Pool, tip1: Digest, raised1: bool,
                                     t2: BlockTree, p2: Pool, tip2: Digest, raised2: bool, delivered: set<Block>)
    requires Exact(rules, now, delivered)
    requires (raised1 || raised2 ==> RaisesWithin(rules, now, delivered))
             && (Unavoidable(rules, now, delivered) ==> raised1 && raised2)
    requires !raised1 ==> Settled(rules, now, t1, p1, delivered) && Heaviest(t1, tip1)
    requires !raised2 ==> Settled(rules, now, t2, p2, delivered) && Heaviest(t2, tip2)
    ensures raised1 == raised2
    ensures !raised1 ==> t1 == t2 && p1.Keys == p2.Keys && t1.chainwork[tip1] == t2.chainwork[tip2]
  {
    if !raised1 && !raised2 {
      OrderDoesNotMatter(rules, now, t1, p1, tip1, t2, p2, tip2, delivered);
    }
  }

  /**
   * Two new nodes, the same blocks, any two orders, any repetitions: either both raise, or both end with the
   * same tree, orphans of the same hashes and tips of the same work.
   */
  method DeliverToBoth(rules: Rules, xs: seq<Block>, ys: seq<Block>, now: int)
    returns (one: Blockchain, raisedOne: bool, two: Blockchain, raisedTwo: bool)
    requires BlockSet(xs) == BlockSet(ys) && Exact(rules, now, BlockSet(xs))
    ensures one.Valid() && two.Valid() && one.rules == two.rules == rules
    ensures raisedOne == raisedTwo
    ensures !raisedOne ==>
              && one.View() == two.View() && one.orphans.Keys == two.orphans.Keys
              && one.chainwork[one.tip] == two.chainwork[two.tip]
  {
    one, raisedOne := DeliverToNew(rules, xs, now);
    two, raisedTwo := DeliverToNew(rules, ys, now);
    BothAgree(rules, now, one.View(), one.orphans, one.tip, raisedOne, two.View(), two.orphans, two.tip, raisedTwo,
        BlockSet(xs));
  }
}
