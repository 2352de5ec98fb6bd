/** What a caller ends with that catches exceptions and goes on delivering (full_node.py, web_app.py). */
module Catching {
  import opened Ledger
  import opened Chain
  import opened Tree
  import opened NodeChain
  import opened Delivery
  import opened Orders
  import opened Stranding

  // ----- runs that go on after an exception ------------------------------------------------ //

  /** One more block, the exception, if there is one, being caught. */
  ghost predicate Onward(rules: Rules, now: int, a: State, b: Block, z: State)
    requires Sound(rules, a.t)
  {
    !z.raised && exists y, r :: Step(rules, now, a, b, y, r) && z == y.(raised := false)
  }

  /** Delivering `bs` one after the other, whatever happens, can lead from `a` to `z`. */
  ghost predicate Goes(rules: Rules, now: int, a: State, bs: seq<Block>, z: State)
    requires Sound(rules, a.t)
    decreases |bs|
  {
    if |bs| == 0 then z == a
    else exists m :: && Goes(rules, now, a, bs[..|bs| - 1], m) && Sound(rules, m.t)
                     && Onward(rules, now, m, bs[|bs| - 1], z)
  }

  lemma {:induction false} GoesOn(rules: Rules, now: int, a: State, bs: seq<Block>, m: State, b: Block, z: State)
    requires Sound(rules, a.t) && Goes(rules, now, a, bs, m) && Sound(rules, m.t) && Onward(rules, now, m, b, z)
    ensures Goes(rules, now, a, bs + [b], z)
  {
    assert (bs + [b])[..|bs|] == bs;
  }

  lemma {:induction false} GoesLast(rules: Rules, now: int, a: State, bs: seq<Block>, b: Block, z: State)
    returns (m: State)
    requires Sound(rules, a.t) && Goes(rules, now, a, bs + [b], z)
    ensures Goes(rules, now, a, bs, m) && Sound(rules, m.t) && Onward(rules, now, m, b, z)
  {
    var all := bs + [b];
    m :| Goes(rules, now, a, all[..|all| - 1], m) && Sound(rules, m.t) && Onward(rules, now, m, all[|all| - 1], z);
    assert all[..|all| - 1] == bs;
  }

  lemma {:induction false} GoesSound(rules: Rules, now: int, a: State, xs: seq<Block>, z: State)
    requires Sound(rules, a.t) && Goes(rules, now, a, xs, z)
    ensures Sound(rules, z.t) && Extends(a.t, z.t)
    decreases |xs|
  {
    if |xs| > 0 {
      var m :| Goes(rules, now, a, xs[..|xs| - 1], m) && Sound(rules, m.t) && Onward(rules, now, m, xs[|xs| - 1], z);
      GoesSound(rules, now, a, xs[..|xs| - 1], m);
      var y, r :| Step(rules, now, m, xs[|xs| - 1], y, r) && z == y.(raised := false);
      OutcomeExtends(rules, now, m.t, z.t, m.p, z.p, xs[|xs| - 1], r);
      ExtendsThrough(rules, a.t, m.t, z.t);
    }
  }

  /** Delivery in two parts. */
  lemma {:induction false} GoesSplit(rules: Rules, now: int, a: State, xs: seq<Block>, ys: seq<Block>, z: State)
    returns (m: State)
    requires Sound(rules, a.t) && Goes(rules, now, a, xs + ys, z)
    ensures Goes(rules, now, a, xs, m) && Sound(rules, m.t) && Goes(rules, now, m, ys, z)
    decreases |ys|
  {
    LastApart(xs, ys);
    if |ys| == 0 {
      GoesSound(rules, now, a, xs, z);
      m := z;
    } else {
      var init, last := ys[..|ys| - 1], ys[|ys| - 1];
      var l := GoesLast(rules, now, a, xs + init, last, z);
      m := GoesSplit(rules, now, a, xs, init, l);
      GoesOn(rules, now, m, init, l, last, z);
    }
  }

  lemma {:induction false} GoesJoin(rules: Rules, now: int, a: State, xs: seq<Block>, m: State, ys: seq<Block>,
                                    z: State)
    requires Sound(rules, a.t) && Goes(rules, now, a, xs, m) && Sound(rules, m.t) && Goes(rules, now, m, ys, z)
    ensures Goes(rules, now, a, xs + ys, z)
    decreases |ys|
  {
    LastApart(xs, ys);
    if |ys| > 0 {
      var init, last := ys[..|ys| - 1], ys[|ys| - 1];
      var l :| Goes(rules, now, m, init, l) && Sound(rules, l.t) && Onward(rules, now, l, last, z);
      GoesJoin(rules, now, a, xs, m, init, l);
      GoesOn(rules, now, a, xs + init, l, last, z);
    }
  }

  /** Every delivery goes somewhere. */
  lemma {:induction false} GoesSomewhere(rules: Rules, now: int, a: State, bs: seq<Block>) returns (z: State)
    requires Sound(rules, a.t) && Keyed(a.p) && !a.raised
    ensures Sound(rules, z.t) && Keyed(z.p) && !z.raised && Goes(rules, now, a, bs, z)
    decreases |bs|
  {
    if |bs| == 0 {
      z := a;
    } else {
      var m := GoesSomewhere(rules, now, a, bs[..|bs| - 1]);
      var t, p, r := OutcomeExists(rules, now, m.t, m.p, bs[|bs| - 1]);
      z := State(t, p, false);
      assert Step(rules, now, m, bs[|bs| - 1], State(t, p, r == Raised), r);
    }
  }

  /** Without an exception the two kinds of runs are the same. */
  lemma {:induction false} CalmGoes(rules: Rules, now: int, a: State, bs: seq<Block>, z: State)
    requires Sound(rules, a.t) && Leads(rules, now, a, bs, z) && !z.raised
    ensures Goes(rules, now, a, bs, z) && !a.raised
    decreases |bs|
  {
    if |bs| > 0 {
      var m :| Leads(rules, now, a, bs[..|bs| - 1], m) && Sound(rules, m.t) && Next(rules, now, m, bs[|bs| - 1], z);
      CalmGoes(rules, now, a, bs[..|bs| - 1], m);
    }
  }

  // ----- what such a caller keeps ------------------------------------------------------------- //

  /** A delivered body under the header of `b` made validation raise on its parent's branch. */
  ghost predicate RaisedThere(rules: Rules, now: int, t: BlockTree, delivered: set<Block>, b: Block)
    requires Sound(rules, t)
  {
    && b.header.prevHash in t.blocks
    && exists c :: c in delivered && c.header == b.header && (b.header.prevHash == GENESIS_HASH ==> c == b)
                   && VerdictOn(rules, t, c, now) == Raise
  }

  ghost predicate Handled(rules: Rules, now: int, t: BlockTree, p: Pool, delivered: set<Block>, b: Block)
    requires Sound(rules, t)
  {
    Placed(rules, now, t, p, delivered, b) || RaisedThere(rules, now, t, delivered, b)
  }

  /** The state of a node whose caller has caught every exception. */
  ghost predicate Kept(rules: Rules, now: int, t: BlockTree, p: Pool, delivered: set<Block>) {
    && Sound(rules, t) && OnlyDelivered(now, t, p, delivered) && Keyed(p)
    && (forall k :: k in p ==> p[k].header.prevHash != GENESIS_HASH)
    && (forall b {:trigger Handled(rules, now, t, p, delivered, b)} ::
          b in delivered ==> Handled(rules, now, t, p, delivered, b))
  }

  lemma {:induction false} RaisedKept(rules: Rules, now: int, t0: BlockTree, t1: BlockTree, some: set<Block>,
                                      more: set<Block>, a: Block)
    requires Sound(rules, t0) && Sound(rules, t1) && Extends(t0, t1) && some <= more
    requires RaisedThere(rules, now, t0, some, a)
    ensures RaisedThere(rules, now, t1, more, a)
  {
    var c :| && c in some && c.header == a.header && (a.header.prevHash == GENESIS_HASH ==> c == a)
             && VerdictOn(rules, t0, c, now) == Raise;
    VerdictKept(rules, t0, t1, c, now);
  }

  lemma {:induction false} StillHandled(rules: Rules, now: int, t0: BlockTree, t1: BlockTree, p0: Pool, p1: Pool,
                                        delivered: set<Block>, b: Block, r: AddResult, a: Block)
    requires Kept(rules, now, t0, p0, delivered) && Sound(rules, t1)
    requires AddOutcome(rules, now, t0, t1, p0, p1, b, r) && a in delivered
    ensures Handled(rules, now, t1, p1, delivered + {b}, a)
  {
    OutcomeExtends(rules, now, t0, t1, p0, p1, b, r);
    assert Handled(rules, now, t0, p0, delivered, a);
    if HashOf(a) in t0.blocks {
      ExtendsKeeps(t0, t1, HashOf(a));
    } else if HashOf(a) in p0 {
      OrphanHandled(rules, now, t0, t1, p0, p1, delivered, b, r, HashOf(a), a);
    } else if RaisedThere(rules, now, t0, delivered, a) {
      RaisedKept(rules, now, t0, t1, delivered, delivered + {b}, a);
    } else {
      RefusalKept(rules, now, t0, t1, delivered, delivered + {b}, a);
    }
  }

  lemma {:induction false} OrphanHandled(rules: Rules, now: int, t0: BlockTree, t1: BlockTree, p0: Pool, p1: Pool,
                                         delivered: set<Block>, b: Block, r: AddResult, k: Digest, a: Block)
    requires Kept(rules, now, t0, p0, delivered) && Sound(rules, t1)
    requires AddOutcome(rules, now, t0, t1, p0, p1, b, r) && k in p0 && HashOf(a) == k
    ensures Handled(rules, now, t1, p1, delivered + {b}, a)
  {
    if k !in p1 && k !in t1.blocks {
      assert p0[k].header == a.header && p0[k] in delivered;
      assert Resolved(rules, now, t1, p0[k]);
      if VerdictOn(rules, t1, p0[k], now) == Raise {
        assert RaisedThere(rules, now, t1, delivered + {b}, a);
      } else {
        assert Refused(rules, now, t1, delivered + {b}, a);
      }
    }
  }

  lemma {:induction false} NewlyHandled(rules: Rules, now: int, t0: BlockTree, t1: BlockTree, p0: Pool, p1: Pool,
                                        delivered: set<Block>, b: Block, r: AddResult)
    requires Sound(rules, t0) && Sound(rules, t1) && AddOutcome(rules, now, t0, t1, p0, p1, b, r)
    ensures Handled(rules, now, t1, p1, delivered + {b}, b)
  {
  }

  lemma {:induction false} KeptOnward(rules: Rules, now: int, a: State, delivered: set<Block>, b: Block, z: State)
    requires Kept(rules, now, a.t, a.p, delivered) && Onward(rules, now, a, b, z)
    ensures Kept(rules, now, z.t, z.p, delivered + {b})
  {
    var y, r :| Step(rules, now, a, b, y, r) && z == y.(raised := false);
    StillOnlyDelivered(rules, now, a.t, z.t, a.p, z.p, delivered, b, r);
    PoolStays(rules, now, a.t, z.t, a.p, z.p, b, r);
    NewlyHandled(rules, now, a.t, z.t, a.p, z.p, delivered, b, r);
    forall x | x in delivered + {b} ensures Handled(rules, now, z.t, z.p, delivered + {b}, x) {
      if x in delivered { StillHandled(rules, now, a.t, z.t, a.p, z.p, delivered, b, r, x); }
    }
  }

  lemma {:induction false} PoolStays(rules: Rules, now: int, t0: BlockTree, t1: BlockTree, p0: Pool, p1: Pool,
                                     b: Block, r: AddResult)
    requires Sound(rules, t0) && Sound(rules, t1) && AddOutcome(rules, now, t0, t1, p0, p1, b, r)
    requires Keyed(p0) && forall k :: k in p0 ==> p0[k].header.prevHash != GENESIS_HASH
    ensures Keyed(p1) && forall k :: k in p1 ==> p1[k].header.prevHash != GENESIS_HASH
  {
  }

  /** Every orphan that waits for a stored parent was left behind by an exception. */
  ghost predicate Explained(rules: Rules, now: int, t: BlockTree, p: Pool, delivered: set<Block>) {
    forall k :: k in p && p[k].header.prevHash in t.blocks ==> StrandableAs(rules, now, delivered, p[k])
  }

  lemma {:induction false} StrandableAsMore(rules: Rules, now: int, some: set<Block>, more: set<Block>, c: Block)
    requires StrandableAs(rules, now, some, c) && some <= more
    ensures StrandableAs(rules, now, more, c)
  {
    var b, s, j :| LeftBehind(rules, now, some, b, s, c, j);
    ReachesMore(rules, now, some, more, s);
    assert LeftBehind(rules, now, more, b, s, c, j);
  }

  lemma {:induction false} StillExplained(rules: Rules, now: int, t0: BlockTree, t1: BlockTree, p0: Pool, p1: Pool,
                                          delivered: set<Block>, b: Block, r: AddResult, k: Digest)
    requires Kept(rules, now, t0, p0, delivered) && Explained(rules, now, t0, p0, delivered) && Sound(rules, t1)
    requires AddOutcome(rules, now, t0, t1, p0, p1, b, r) && k in p1 && p1[k].header.prevHash in t1.blocks
    ensures StrandableAs(rules, now, delivered + {b}, p1[k])
  {
    if p1[k].header.prevHash in t0.blocks {
      assert k in p0 && p1[k] == p0[k];
      StrandableAsMore(rules, now, delivered, delivered + {b}, p1[k]);
    } else {
      NoNewWithoutException(rules, now, t0, t1, p0, p1, b, r, k);
      NewlyStranded(rules, now, t0, t1, p0, p1, delivered, b, k);
    }
  }

  /** Without an exception no orphan is left whose parent just arrived. */
  lemma {:induction false} NoNewWithoutException(rules: Rules, now: int, t0: BlockTree, t1: BlockTree, p0: Pool,
                                                 p1: Pool,
                                                 b: Block, r: AddResult, k: Digest)
    requires Sound(rules, t0) && Sound(rules, t1) && AddOutcome(rules, now, t0, t1, p0, p1, b, r)
    requires k in p1 && p1[k].header.prevHash in t1.blocks && p1[k].header.prevHash !in t0.blocks
    ensures r == Raised
  {
  }

  lemma {:induction false} ExplainedOnward(rules: Rules, now: int, a: State, delivered: set<Block>, b: Block, z: State)
    requires Kept(rules, now, a.t, a.p, delivered) && Explained(rules, now, a.t, a.p, delivered)
             && Onward(rules, now, a, b, z)
    ensures Explained(rules, now, z.t, z.p, delivered + {b})
  {
    var y, r :| Step(rules, now, a, b, y, r) && z == y.(raised := false);
    forall k | k in z.p && z.p[k].header.prevHash in z.t.blocks
      ensures StrandableAs(rules, now, delivered + {b}, z.p[k])
    {
      StillExplained(rules, now, a.t, z.t, a.p, z.p, delivered, b, r, k);
    }
  }

  lemma {:induction false} GoesKept(rules: Rules, now: int, a: State, before: set<Block>, bs: seq<Block>, z: State)
    requires Kept(rules, now, a.t, a.p, before) && Explained(rules, now, a.t, a.p, before) && Goes(rules, now, a, bs, z)
    ensures Kept(rules, now, z.t, z.p, before + BlockSet(bs)) && Explained(rules, now, z.t, z.p, before + BlockSet(bs))
    decreases |bs|
  {
    if |bs| == 0 {
      assert before + BlockSet(bs) == before;
    } else {
      var i := |bs| - 1;
      var m :| Goes(rules, now, a, bs[..i], m) && Sound(rules, m.t) && Onward(rules, now, m, bs[i], z);
      GoesKept(rules, now, a, before, bs[..i], m);
      KeptOnward(rules, now, m, before + BlockSet(bs[..i]), bs[i], z);
      ExplainedOnward(rules, now, m, before + BlockSet(bs[..i]), bs[i], z);
      BlockSetStep(before, bs, i);
      OneLonger(bs, i);
    }
  }

  /** A run of a new node over all the blocks, in some order, every exception caught. */
  ghost predicate CaughtOver(rules: Rules, now: int, delivered: set<Block>, xs: seq<Block>, z: State) {
    Sound(rules, FreshTree()) && BlockSet(xs) == delivered && Goes(rules, now, Fresh(), xs, z)
  }

  lemma {:induction false} CaughtRun(rules: Rules, now: int, delivered: set<Block>, xs: seq<Block>, z: State)
    requires CaughtOver(rules, now, delivered, xs, z)
    ensures Kept(rules, now, z.t, z.p, delivered) && Explained(rules, now, z.t, z.p, delivered)
  {
    GoesKept(rules, now, Fresh(), {}, xs, z);
    assert {} + BlockSet(xs) == delivered;
  }

  // ----- what it stores ------------------------------------------------------------------------ //

  /** Block `i` of the branch waits although its parent is stored. */
  ghost predicate StuckAt(t: BlockTree, p: Pool, s: seq<Block>, i: nat)
    requires 2 <= i < |s|
  {
    HashOf(s[i - 1]) in t.blocks && HashOf(s[i]) in p && p[HashOf(s[i])] == s[i]
  }

  ghost predicate Stuck(t: BlockTree, p: Pool, s: seq<Block>) {
    exists i {:trigger StuckAt(t, p, s, i)} :: 2 <= i < |s| && StuckAt(t, p, s, i)
  }

  /** A reachable branch is stored, or one of its blocks is stuck. */
  lemma {:induction false} StoredOrStuck(rules: Rules, now: int, t: BlockTree, p: Pool, delivered: set<Block>,
                                         s: seq<Block>)
    requires Kept(rules, now, t, p, delivered) && Clear(rules, now, delivered) && Reaches(rules, now, delivered, s)
    ensures Stuck(t, p, s) || (HashOf(Last(s)) in t.blocks && t.branches[HashOf(Last(s))] == s)
    decreases |s|
  {
    if |s| == 1 {
      BranchOfGenesis(rules, s);
    } else {
      ReachedTail(rules, now, delivered, s);
      StoredOrStuck(rules, now, t, p, delivered, Init(s));
      if Stuck(t, p, Init(s)) {
        StuckBelow(t, p, s);
      } else {
        LastStoredOrStuck(rules, now, t, p, delivered, s);
      }
    }
  }

  lemma StuckBelow(t: BlockTree, p: Pool, s: seq<Block>)
    requires |s| > 1 && Stuck(t, p, Init(s))
    ensures Stuck(t, p, s)
  {
    var i :| 2 <= i < |Init(s)| && StuckAt(t, p, Init(s), i);
    assert StuckAt(t, p, s, i);
  }

  lemma {:induction false} LastStoredOrStuck(rules: Rules, now: int, t: BlockTree, p: Pool, delivered: set<Block>,
                                             s: seq<Block>)
    requires Kept(rules, now, t, p, delivered) && Clear(rules, now, delivered) && Reaches(rules, now, delivered, s)
             && |s| > 1
    requires HashOf(Last(Init(s))) in t.blocks && t.branches[HashOf(Last(Init(s)))] == Init(s)
    ensures Stuck(t, p, s) || (HashOf(Last(s)) in t.blocks && t.branches[HashOf(Last(s))] == s)
  {
    ReachedTail(rules, now, delivered, s);
    var b := Last(s);
    assert Handled(rules, now, t, p, delivered, b);
    if HashOf(b) in t.blocks {
      StoredPathIs(rules, t, s);
    } else if HashOf(b) in p {
      WaitingIsStuck(rules, now, t, p, delivered, s);
    } else {
      NeverSpoiled(rules, now, t, delivered, s);
    }
  }

  lemma {:induction false} WaitingIsStuck(rules: Rules, now: int, t: BlockTree, p: Pool, delivered: set<Block>,
                                          s: seq<Block>)
    requires Kept(rules, now, t, p, delivered) && Clear(rules, now, delivered) && Reaches(rules, now, delivered, s)
             && |s| > 1
    requires HashOf(Last(Init(s))) in t.blocks && HashOf(Last(s)) in p
    ensures Stuck(t, p, s)
  {
    ReachedTail(rules, now, delivered, s);
    var b := Last(s);
    var c := p[HashOf(b)];
    assert c.header == b.header && c in delivered;
    BranchOfGenesis(rules, Init(s));
    if |s| > 2 {
      LastIsClear(rules, now, delivered, s);
      assert c == b;
      assert StuckAt(t, p, s, |s| - 1);
    }
  }

  /** No body under the header of an acceptable block is refused or raises, but its own place is safe. */
  lemma {:induction false} NeverSpoiled(rules: Rules, now: int, t: BlockTree, delivered: set<Block>, s: seq<Block>)
    requires Sound(rules, t) && Clear(rules, now, delivered) && Reaches(rules, now, delivered, s) && |s| > 1
    requires HashOf(Last(Init(s))) in t.blocks && t.branches[HashOf(Last(Init(s)))] == Init(s)
    ensures !Refused(rules, now, t, delivered, Last(s)) && !RaisedThere(rules, now, t, delivered, Last(s))
  {
    ReachedTail(rules, now, delivered, s);
    var b := Last(s);
    forall c | c in delivered && c.header == b.header && (b.header.prevHash == GENESIS_HASH ==> c == b)
      ensures VerdictOn(rules, t, c, now) == Accept
    {
      if |s| == 2 {
        BranchOfGenesis(rules, Init(s));
      } else {
        LastIsClear(rules, now, delivered, s);
      }
      assert c == b;
    }
  }

  /** An acceptable block that an exception can leave behind. */
  ghost predicate LosableAs(rules: Rules, now: int, delivered: set<Block>, b: Block, s: seq<Block>, c: Block, j: nat) {
    LeftBehind(rules, now, delivered, b, s, c, j) && Reaches(rules, now, delivered, s[..j + 1] + [c])
  }

  ghost predicate Losable(rules: Rules, now: int, delivered: set<Block>) {
    exists b, s, c, j :: LosableAs(rules, now, delivered, b, s, c, j)
  }

  /** A block stuck on a reachable branch is such a block. */
  lemma {:induction false} StuckIsLosable(rules: Rules, now: int, t: BlockTree, p: Pool, delivered: set<Block>,
                                          s: seq<Block>)
    requires Kept(rules, now, t, p, delivered) && Explained(rules, now, t, p, delivered)
    requires Reaches(rules, now, delivered, s) && Stuck(t, p, s)
    ensures Losable(rules, now, delivered)
  {
    var i :| 2 <= i < |s| && StuckAt(t, p, s, i);
    AcceptedAt(rules, now, delivered, s, i);
    ReachedPrefix(rules, now, delivered, s, i + 1);
    var b, u, j := LeftAs(rules, now, t, p, delivered, s, i);
    LosableOnBranch(rules, now, delivered, s, i, b, u, j);
  }

  lemma {:induction false} LeftAs(rules: Rules, now: int, t: BlockTree, p: Pool, delivered: set<Block>, s: seq<Block>,
                                  i: nat)
    returns (b: Block, u: seq<Block>, j: nat)
    requires Explained(rules, now, t, p, delivered) && 2 <= i < |s| && StuckAt(t, p, s, i)
    requires s[i].header.prevHash == HashOf(s[i - 1])
    ensures LeftBehind(rules, now, delivered, b, u, s[i], j)
  {
    var c := p[HashOf(s[i])];
    assert StrandableAs(rules, now, delivered, c);
    b, u, j :| LeftBehind(rules, now, delivered, b, u, c, j);
  }

  lemma {:induction false} LosableOnBranch(rules: Rules, now: int, delivered: set<Block>, s: seq<Block>, i: nat,
                                           b: Block, u: seq<Block>, j: nat)
    requires ValidBranch(rules, s) && 1 <= i < |s| && Reaches(rules, now, delivered, s[..i + 1])
    requires s[i].header.prevHash == HashOf(Last(s[..i])) && LeftBehind(rules, now, delivered, b, u, s[i], j)
    ensures Losable(rules, now, delivered)
  {
    var v := OnTopOf(rules, u, s, j, i);
    LosableHere(rules, now, delivered, b, u, s[i], j, v);
  }

  lemma {:induction false} OnTopOf(rules: Rules, u: seq<Block>, s: seq<Block>, j: nat, i: nat) returns (v: seq<Block>)
    requires ValidBranch(rules, u) && j < |u| && ValidBranch(rules, s) && 1 <= i < |s|
    requires HashOf(u[j]) == s[i].header.prevHash && s[i].header.prevHash == HashOf(Last(s[..i]))
    ensures v == s[..i + 1] && v == u[..j + 1] + [s[i]]
  {
    LastOfPrefix(s, i);
    SamePrefix(rules, u, s, j, i);
    SameOnTop(u[..j + 1], s, i);
    v := s[..i + 1];
  }

  lemma SameOnTop(u: seq<Block>, s: seq<Block>, i: nat)
    requires i < |s| && u == s[..i]
    ensures u + [s[i]] == s[..i + 1]
  {
  }

  lemma {:induction false} LosableHere(rules: Rules, now: int, delivered: set<Block>, b: Block, u: seq<Block>,
                                       c: Block, j: nat, v: seq<Block>)
    requires LeftBehind(rules, now, delivered, b, u, c, j) && v == u[..j + 1] + [c] && Reaches(rules, now, delivered, v)
    ensures Losable(rules, now, delivered)
  {
    assert LosableAs(rules, now, delivered, b, u, c, j);
  }

  lemma LastOfPrefix(s: seq<Block>, i: nat)
    requires 1 <= i < |s|
    ensures Last(s[..i]) == s[i - 1] && s[..i + 1] == s[..i] + [s[i]]
  {
  }

  lemma {:induction false} SamePrefix(rules: Rules, u: seq<Block>, s: seq<Block>, j: nat, i: nat)
    requires ValidBranch(rules, u) && j < |u| && ValidBranch(rules, s) && 1 <= i < |s|
    requires HashOf(u[j]) == HashOf(s[i - 1])
    ensures u[..j + 1] == s[..i]
  {
    ValidPrefix(rules, u, j + 1);
    ValidPrefix(rules, s, i);
    assert Last(u[..j + 1]) == u[j] && Last(s[..i]) == s[i - 1];
    BranchIsUnique(rules, u[..j + 1], s[..i]);
  }

  // ----- the condition suffices ------------------------------------------------------------------- //

  /** Whatever the order, and whatever is caught on the way, the tree in the end is the same. */
  ghost predicate CaughtIrrelevant(rules: Rules, now: int, delivered: set<Block>) {
    forall xs, ys, x, y {:trigger CaughtOver(rules, now, delivered, xs, x), CaughtOver(rules, now, delivered, ys, y)} ::
      CaughtOver(rules, now, delivered, xs, x) && CaughtOver(rules, now, delivered, ys, y) ==> x.t == y.t
  }

  lemma {:induction false} CaughtSame(rules: Rules, now: int, t1: BlockTree, p1: Pool, t2: BlockTree, p2: Pool,
                                      delivered: set<Block>)
    requires Kept(rules, now, t1, p1, delivered) && Kept(rules, now, t2, p2, delivered)
             && Explained(rules, now, t2, p2, delivered)
    requires Clear(rules, now, delivered) && !Losable(rules, now, delivered)
    ensures forall h :: h in t1.blocks ==>
              && h in t2.blocks && t1.blocks[h] == t2.blocks[h] && t1.branches[h] == t2.branches[h]
              && t1.heights[h] == t2.heights[h] && t1.chainwork[h] == t2.chainwork[h]
  {
    forall h | h in t1.blocks
      ensures h in t2.blocks && t1.blocks[h] == t2.blocks[h] && t1.branches[h] == t2.branches[h]
      ensures t1.heights[h] == t2.heights[h] && t1.chainwork[h] == t2.chainwork[h]
    {
      StoredBlock(rules, t1, h);
      StoredIsReached(rules, now, t1, p1, delivered, h);
      if Stuck(t2, p2, t1.branches[h]) { StuckIsLosable(rules, now, t2, p2, delivered, t1.branches[h]); }
      StoredOrStuck(rules, now, t2, p2, delivered, t1.branches[h]);
      StoredBlock(rules, t2, h);
    }
  }

  lemma {:induction false} CaughtSuffices(rules: Rules, now: int, delivered: set<Block>)
    requires Clear(rules, now, delivered) && !Losable(rules, now, delivered)
    ensures CaughtIrrelevant(rules, now, delivered)
  {
    forall xs, ys, x, y | CaughtOver(rules, now, delivered, xs, x) && CaughtOver(rules, now, delivered, ys, y)
      ensures x.t == y.t
    {
      CaughtPair(rules, now, delivered, xs, x, ys, y);
    }
  }

  lemma {:induction false} CaughtPair(rules: Rules, now: int, delivered: set<Block>, xs: seq<Block>, x: State,
                                      ys: seq<Block>, y: State)
    requires Clear(rules, now, delivered) && !Losable(rules, now, delivered)
    requires CaughtOver(rules, now, delivered, xs, x) && CaughtOver(rules, now, delivered, ys, y)
    ensures x.t == y.t
  {
    CaughtRun(rules, now, delivered, xs, x);
    CaughtRun(rules, now, delivered, ys, y);
    CaughtSame(rules, now, x.t, x.p, y.t, y.p, delivered);
    CaughtSame(rules, now, y.t, y.p, x.t, x.p, delivered);
    SameTree(x.t, y.t);
  }

  // ----- and it is necessary ----------------------------------------------------------------------- //

  /** The blocks of one branch raise nowhere, and have no twins among them. */
  lemma {:induction false} BranchIsCalm(rules: Rules, now: int, delivered: set<Block>, s: seq<Block>)
    requires Reaches(rules, now, delivered, s)
    ensures Reaches(rules, now, BlockSet(s[1..]), s) && BlockSet(s[1..]) <= delivered
    ensures Clear(rules, now, BlockSet(s[1..])) && !Losable(rules, now, BlockSet(s[1..]))
  {
    var own := BlockSet(s[1..]);
    BranchAlone(rules, now, delivered, s);
    HashesDistinct(rules, s);
    forall b, c | b in own && c in own && b.header == c.header ensures b == c {
      InTail(s, b);
      InTail(s, c);
    }
    assert forall u {:trigger Reaches(rules, now, own, u)} :: Reaches(rules, now, own, u) && |u| > 2 ==> Last(u) in own;
    forall b, u, c, j | LosableAs(rules, now, own, b, u, c, j) ensures false {
      OwnNeverRaises(rules, now, own, s, b, u);
    }
  }

  lemma InTail(s: seq<Block>, b: Block)
    requires |s| > 0 && b in s[1..]
    ensures exists i :: 1 <= i < |s| && s[i] == b
  {
    var i :| 0 <= i < |s[1..]| && s[1..][i] == b;
    assert s[i + 1] == b;
  }

  lemma {:induction false} OwnNeverRaises(rules: Rules, now: int, own: set<Block>, s: seq<Block>, b: Block,
                                          u: seq<Block>)
    requires Reaches(rules, now, own, s) && b in s[1..] && ValidBranch(rules, u) && HashOf(Last(u)) == b.header.prevHash
    ensures Judge(rules, u, b, now) == Accept
  {
    InTail(s, b);
    var i :| 1 <= i < |s| && s[i] == b;
    AcceptedAt(rules, now, own, s, i);
    BranchIsUnique(rules, u, s[..i]);
  }

  /** Delivered first, in order, every branch is stored. */
  lemma {:induction false} CaughtBranchFirst(rules: Rules, now: int, delivered: set<Block>, s: seq<Block>,
                                             rest: seq<Block>, z: State)
    requires Reaches(rules, now, delivered, s) && Sound(rules, FreshTree())
             && Goes(rules, now, Fresh(), s[1..] + rest, z)
    ensures HashOf(Last(s)) in z.t.blocks && z.t.blocks[HashOf(Last(s))] == Last(s)
  {
    var own := BlockSet(s[1..]);
    var m := GoesSplit(rules, now, Fresh(), s[1..], rest, z);
    GoesSound(rules, now, m, rest, z);
    BranchIsCalm(rules, now, delivered, s);
    CaughtRun(rules, now, own, s[1..], m);
    if Stuck(m.t, m.p, s) { StuckIsLosable(rules, now, m.t, m.p, own, s); }
    StoredOrStuck(rules, now, m.t, m.p, own, s);
    StoredBlock(rules, m.t, HashOf(Last(s)));
  }

  lemma {:induction false} GoesOrphans(rules: Rules, now: int, a: State, xs: seq<Block>, z: State)
    requires Sound(rules, a.t) && Goes(rules, now, a, xs, z)
    requires a.t == FreshTree() && !a.raised && forall b :: b in xs ==> Waits(b)
    ensures z.t == FreshTree() && !z.raised && z.p == PoolAfter(a.p, xs)
    decreases |xs|
  {
    if |xs| > 0 {
      var i := |xs| - 1;
      var m :| Goes(rules, now, a, xs[..i], m) && Sound(rules, m.t) && Onward(rules, now, m, xs[i], z);
      GoesOrphans(rules, now, a, xs[..i], m);
      var y, r :| Step(rules, now, m, xs[i], y, r) && z == y.(raised := false);
      OneMoreWaits(rules, now, m, xs[i], y);
    }
  }

  lemma {:induction false} GoesOnlyDelivered(rules: Rules, now: int, a: State, before: set<Block>, xs: seq<Block>,
                                             z: State)
    requires Sound(rules, a.t) && Goes(rules, now, a, xs, z) && OnlyDelivered(now, a.t, a.p, before)
    ensures Sound(rules, z.t) && OnlyDelivered(now, z.t, z.p, before + BlockSet(xs))
    decreases |xs|
  {
    if |xs| == 0 {
      assert before + BlockSet(xs) == before;
    } else {
      var i := |xs| - 1;
      var m :| Goes(rules, now, a, xs[..i], m) && Sound(rules, m.t) && Onward(rules, now, m, xs[i], z);
      GoesOnlyDelivered(rules, now, a, before, xs[..i], m);
      BlockSetStep(before, xs, i);
      OneLonger(xs, i);
      var y, r :| Step(rules, now, m, xs[i], y, r) && z == y.(raised := false);
      StillOnlyDelivered(rules, now, m.t, z.t, m.p, z.p, before + BlockSet(xs[..i]), xs[i], r);
    }
  }

  /** A block deep enough to wait, then its twin: the block is lost. */
  lemma {:induction false} CaughtTwinLoses(rules: Rules, now: int, b: Block, c: Block, pair: seq<Block>,
                                           rest: seq<Block>, z: State)
    requires Sound(rules, FreshTree()) && Goes(rules, now, Fresh(), pair + rest, z) && pair == [b, c]
    requires Waits(b) && c != b && c.header == b.header && b !in rest
    ensures HashOf(b) in z.t.blocks ==> z.t.blocks[HashOf(b)] != b
  {
    var m := GoesSplit(rules, now, Fresh(), pair, rest, z);
    BothAreOrphans(b, c, pair);
    GoesOrphans(rules, now, Fresh(), pair, m);
    PairPool(b, c);
    CaughtNeverBack(rules, now, m, b, c, rest, z);
  }

  lemma BothAreOrphans(b: Block, c: Block, pair: seq<Block>)
    requires pair == [b, c] && Waits(b) && c.header == b.header
    ensures forall x :: x in pair ==> Waits(x)
  {
  }

  lemma {:induction false} CaughtNeverBack(rules: Rules, now: int, m: State, b: Block, c: Block, rest: seq<Block>,
                                           z: State)
    requires Sound(rules, m.t) && Goes(rules, now, m, rest, z)
    requires m.t == FreshTree() && m.p == map[HashOf(b) := c]
    requires HashOf(b) != GENESIS_HASH && c != b && b !in rest
    ensures HashOf(b) in z.t.blocks ==> z.t.blocks[HashOf(b)] != b
  {
    assert OnlyDelivered(now, m.t, m.p, {c});
    GoesOnlyDelivered(rules, now, m, {c}, rest, z);
    assert b !in {c} + BlockSet(rest);
  }

  lemma {:induction false} SomeCaughtRun(rules: Rules, now: int, delivered: set<Block>, xs: seq<Block>)
    returns (z: State)
    requires BlockSet(xs) == delivered
    ensures CaughtOver(rules, now, delivered, xs, z)
  {
    FreshIsSound(rules);
    z := GoesSomewhere(rules, now, Fresh(), xs);
  }

  lemma {:induction false} CaughtTwinMatters(rules: Rules, now: int, delivered: set<Block>)
    requires !Clear(rules, now, delivered)
    ensures !CaughtIrrelevant(rules, now, delivered)
  {
    var s :| Reaches(rules, now, delivered, s) && |s| > 2 && HasTwin(delivered, Last(s));
    var c :| c in delivered && c != Last(s) && c.header == Last(s).header;
    var b := Last(s);
    ReachedTail(rules, now, delivered, s);
    BranchAlone(rules, now, delivered, s);
    DeepWaits(rules, s);
    var xs, later := BranchFirst(delivered, s[1..]);
    var ys, rest := BranchFirst(delivered, [b, c]);
    var x := SomeCaughtRun(rules, now, delivered, xs);
    var y := SomeCaughtRun(rules, now, delivered, ys);
    CaughtBranchFirst(rules, now, delivered, s, later, x);
    assert b !in BlockSet(rest);
    CaughtTwinLoses(rules, now, b, c, [b, c], rest, y);
  }

  /** A block that was left behind is never stored unless it is delivered again. */
  lemma {:induction false} StaysLost(rules: Rules, now: int, a: State, c: Block, rest: seq<Block>, z: State)
    requires Sound(rules, a.t) && Keyed(a.p) && Goes(rules, now, a, rest, z)
    requires HashOf(c) !in a.t.blocks && c.header.prevHash in a.t.blocks
    requires forall x :: x in rest ==> HashOf(x) != HashOf(c)
    ensures Keyed(z.p) && HashOf(c) !in z.t.blocks && c.header.prevHash in z.t.blocks
    decreases |rest|
  {
    if |rest| > 0 {
      var i := |rest| - 1;
      var m :| Goes(rules, now, a, rest[..i], m) && Sound(rules, m.t) && Onward(rules, now, m, rest[i], z);
      GoesSound(rules, now, a, rest[..i], m);
      StaysLost(rules, now, a, c, rest[..i], m);
      var y, r :| Step(rules, now, m, rest[i], y, r) && z == y.(raised := false);
      StillLost(rules, now, m.t, z.t, m.p, z.p, rest[i], r, c);
    }
  }

  lemma {:induction false} StillLost(rules: Rules, now: int, t0: BlockTree, t1: BlockTree, p0: Pool, p1: Pool,
                                     b: Block, r: AddResult, c: Block)
    requires Sound(rules, t0) && Sound(rules, t1) && Keyed(p0) && AddOutcome(rules, now, t0, t1, p0, p1, b, r)
    requires HashOf(c) !in t0.blocks && c.header.prevHash in t0.blocks && HashOf(b) != HashOf(c)
    ensures Keyed(p1) && HashOf(c) !in t1.blocks && c.header.prevHash in t1.blocks
  {
    OutcomeExtends(rules, now, t0, t1, p0, p1, b, r);
    ExtendsKeeps(t0, t1, c.header.prevHash);
    if FateOf(rules, t0, b, now) == IsStored { StoredWasWaiting(rules, now, t0, t1, p0, p1, b, r, HashOf(c)); }
  }

  /** What else is stored with a block had waited for a block that was not stored. */
  lemma {:induction false} StoredWasWaiting(rules: Rules, now: int, t0: BlockTree, t1: BlockTree, p0: Pool, p1: Pool,
                                            b: Block, r: AddResult, h: Digest)
    requires Sound(rules, t0) && Sound(rules, t1) && AddOutcome(rules, now, t0, t1, p0, p1, b, r)
    requires FateOf(rules, t0, b, now) == IsStored && h !in t0.blocks && h != HashOf(b)
    ensures h in t1.blocks ==> h in p0 && p0[h].header.prevHash !in t0.blocks
  {
    StoredSays(rules, now, t0, t1, p0, p1, b, r);
    AddedFrom(now, t0, t1, p0, b);
  }

  lemma {:induction false} CaughtLossMatters(rules: Rules, now: int, delivered: set<Block>)
    requires Clear(rules, now, delivered) && Losable(rules, now, delivered)
    ensures !CaughtIrrelevant(rules, now, delivered)
  {
    var b, s, c, j :| LosableAs(rules, now, delivered, b, s, c, j);
    var v := s[..j + 1] + [c];
    var xs, x := StoringRun(rules, now, delivered, v);
    var ys, y := LosingRun(rules, now, delivered, b, s, c, j);
    assert Last(v) == c;
  }

  lemma {:induction false} StoringRun(rules: Rules, now: int, delivered: set<Block>, v: seq<Block>)
    returns (xs: seq<Block>, x: State)
    requires Reaches(rules, now, delivered, v)
    ensures CaughtOver(rules, now, delivered, xs, x) && HashOf(Last(v)) in x.t.blocks
  {
    BranchAlone(rules, now, delivered, v);
    var later;
    xs, later := BranchFirst(delivered, v[1..]);
    x := SomeCaughtRun(rules, now, delivered, xs);
    CaughtBranchFirst(rules, now, delivered, v, later, x);
  }

  lemma {:induction false} LosingRun(rules: Rules, now: int, delivered: set<Block>, b: Block, s: seq<Block>, c: Block,
                                     j: nat)
    returns (ys: seq<Block>, y: State)
    requires Clear(rules, now, delivered) && LosableAs(rules, now, delivered, b, s, c, j)
    ensures CaughtOver(rules, now, delivered, ys, y) && HashOf(c) !in y.t.blocks
  {
    var start, a := LostStart(rules, now, delivered, b, s, c, j);
    var rest;
    ys, rest := BranchFirst(delivered, start);
    y := GoesSomewhere(rules, now, a, rest);
    GoesJoin(rules, now, Fresh(), start, a, rest, y);
    RestHasOtherHashes(rules, now, delivered, b, s, c, j, start, rest);
    StaysLost(rules, now, a, c, rest, y);
  }

  lemma {:induction false} LostStart(rules: Rules, now: int, delivered: set<Block>, b: Block, s: seq<Block>, c: Block,
                                     j: nat)
    returns (start: seq<Block>, a: State)
    requires LeftBehind(rules, now, delivered, b, s, c, j)
    ensures Sound(rules, FreshTree()) && Goes(rules, now, Fresh(), start, a) && Sound(rules, a.t) && Keyed(a.p)
            && !a.raised
    ensures BlockSet(start) <= delivered && c in start
    ensures HashOf(c) !in a.t.blocks && c.header.prevHash in a.t.blocks
  {
    var first, m, z := StrandingStart(rules, now, delivered, b, s, c, j);
    CalmGoes(rules, now, Fresh(), first, m);
    a := z.(raised := false);
    start := first + [s[1]];
    GoesOn(rules, now, Fresh(), first, m, s[1], a);
    CaughtRun(rules, now, BlockSet(start), start, a);
  }

  lemma {:induction false} RestHasOtherHashes(rules: Rules, now: int, delivered: set<Block>, b: Block, s: seq<Block>,
                                              c: Block, j: nat,
                                              start: seq<Block>, rest: seq<Block>)
    requires Clear(rules, now, delivered) && LosableAs(rules, now, delivered, b, s, c, j)
    requires BlockSet(rest) == delivered - BlockSet(start) && c in start
    ensures forall x :: x in rest ==> HashOf(x) != HashOf(c)
  {
    var v := s[..j + 1] + [c];
    assert Last(v) == c && |v| > 2;
    assert !HasTwin(delivered, Last(v));
    forall x | x in rest ensures HashOf(x) != HashOf(c) {
      assert x in BlockSet(rest);
    }
  }

  /**
   * For a caller that catches exceptions the order of delivery is irrelevant exactly when no acceptable block with a
   * parent other than genesis has a twin, and none can be left behind by an exception.
   */
  lemma {:induction false} CaughtIrrelevantExactly(rules: Rules, now: int, delivered: set<Block>)
    ensures CaughtIrrelevant(rules, now, delivered) <==> Clear(rules, now, delivered) && !Losable(rules, now, delivered)
  {
    if !Clear(rules, now, delivered) {
      CaughtTwinMatters(rules, now, delivered);
    } else if Losable(rules, now, delivered) {
      CaughtLossMatters(rules, now, delivered);
    } else {
      CaughtSuffices(rules, now, delivered);
    }
  }

  // ----- the caller --------------------------------------------------------------------------------- //

  /**
   * Deliver blocks one after the other and log exceptions, as a full node does with the blocks of its peers. Every
   * delivered block is stored, waits, or was refused or raised on its parent's branch, be it under another body; and
   * what waits for a stored parent was left behind by an exception.
   */
  method DeliverAnyway(chain: Blockchain, deliveries: seq<Block>, now: int, ghost before: set<Block>)
    returns (caught: nat)
    requires chain.Valid()
    requires Kept(chain.rules, now, chain.View(), chain.orphans, before)
             && Explained(chain.rules, now, chain.View(), chain.orphans, before)
    modifies chain, chain.utxo
    ensures chain.Valid() && (chain.utxo == old(chain.utxo) || fresh(chain.utxo))
    ensures Goes(chain.rules, now, old(State(chain.View(), chain.orphans, false)), deliveries,
            State(chain.View(), chain.orphans, false))
    ensures Kept(chain.rules, now, chain.View(), chain.orphans, before + BlockSet(deliveries))
    ensures Explained(chain.rules, now, chain.View(), chain.orphans, before + BlockSet(deliveries))
  {
    ghost var a := State(chain.View(), chain.orphans, false);
    caught := 0;
    for i := 0 to |deliveries|
      invariant chain.Valid() && (chain.utxo == old(chain.utxo) || fresh(chain.utxo))
      invariant Goes(chain.rules, now, a, deliveries[..i], State(chain.View(), chain.orphans, false))
    {
      ghost var m := State(chain.View(), chain.orphans, false);
      var r := chain.AddBlock(deliveries[i], now);
      if r == Raised { caught := caught + 1; }
      OnwardStep(chain.rules, now, a, m, deliveries, i, State(chain.View(), chain.orphans, r == Raised), r);
    }
    assert deliveries[..|deliveries|] == deliveries;
    GoesKept(chain.rules, now, a, before, deliveries, State(chain.View(), chain.orphans, false));
  }

  lemma {:induction false} OnwardStep(rules: Rules, now: int, a: State, m: State, bs: seq<Block>, i: nat, y: State,
                                      r: AddResult)
    requires Sound(rules, a.t) && i < |bs| && Goes(rules, now, a, bs[..i], m) && Sound(rules, m.t)
             && Step(rules, now, m, bs[i], y, r)
    ensures Goes(rules, now, a, bs[..i + 1], y.(raised := false))
  {
    assert Onward(rules, now, m, bs[i], y.(raised := false));
    GoesOn(rules, now, a, bs[..i], m, bs[i], y.(raised := false));
    OneLonger(bs, i);
  }
}
