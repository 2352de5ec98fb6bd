/** The block tree a node keeps, as a value: what it is, how it grows, and what orphans wait for. */
module Tree {
  import opened Ledger
  import opened Chain

  /** The dictionaries of the block store. `branches` remembers the path from genesis to every block. */
  datatype BlockTree = BlockTree(
    blocks: map<Digest, Block>,
    heights: map<Digest, nat>,
    chainwork: map<Digest, nat>,
    branches: map<Digest, seq<Block>>)

  ghost predicate NodeOk(rules: Rules, t: BlockTree, h: Digest)
    requires h in t.blocks && h in t.heights && h in t.chainwork && h in t.branches
  {
    && HashOf(t.blocks[h]) == h
    && ValidBranch(rules, t.branches[h])
    && Last(t.branches[h]) == t.blocks[h]
    && t.heights[h] == |t.branches[h]| - 1
    && t.chainwork[h] == Work(t.branches[h])
  }

  /** The path of a block other than genesis is its parent's path plus the block. */
  ghost predicate LinkOk(t: BlockTree, h: Digest)
    requires h in t.blocks && h in t.branches
  {
    var p := t.blocks[h].header.prevHash;
    p in t.blocks && p in t.branches && t.branches[h] == t.branches[p] + [t.blocks[h]]
  }

  /** The four dictionaries have the same keys, and genesis is one of them. */
  ghost predicate Shaped(t: BlockTree) {
    && t.heights.Keys == t.blocks.Keys
    && t.chainwork.Keys == t.blocks.Keys
    && t.branches.Keys == t.blocks.Keys
    && GENESIS_HASH in t.blocks
    && t.branches[GENESIS_HASH] == [GENESIS]
  }

  ghost predicate AllNodes(rules: Rules, t: BlockTree)
    requires Shaped(t)
  {
    forall h {:trigger NodeOk(rules, t, h)} :: h in t.blocks ==> NodeOk(rules, t, h)
  }

  ghost predicate AllLinks(t: BlockTree)
    requires Shaped(t)
  {
    forall h {:trigger LinkOk(t, h)} :: h in t.blocks && h != GENESIS_HASH ==> LinkOk(t, h)
  }

  ghost predicate Sound(rules: Rules, t: BlockTree) {
    Shaped(t) && AllNodes(rules, t) && AllLinks(t)
  }

  /** The tree with `b` added on top of its parent. */
  ghost function Graft(t: BlockTree, b: Block): BlockTree
    requires Shaped(t) && b.header.prevHash in t.blocks
  {
    var h, p := HashOf(b), b.header.prevHash;
    BlockTree(t.blocks[h := b],
              t.heights[h := t.heights[p] + 1],
              t.chainwork[h := t.chainwork[p] + BlockWork(b)],
              t.branches[h := t.branches[p] + [b]])
  }

  /** The verdict on `b` given the branch its parent ends. */
  ghost function VerdictOn(rules: Rules, t: BlockTree, b: Block, now: int): Verdict
    requires Sound(rules, t) && b.header.prevHash in t.blocks
  {
    assert NodeOk(rules, t, b.header.prevHash);
    Judge(rules, t.branches[b.header.prevHash], b, now)
  }

  /** An accepted block ends a valid branch of its own. */
  lemma {:induction false} GraftNode(rules: Rules, t: BlockTree, b: Block, now: int)
    requires Sound(rules, t) && b.header.prevHash in t.blocks
    requires VerdictOn(rules, t, b, now) == Accept
    ensures ValidBranch(rules, t.branches[b.header.prevHash] + [b])
    ensures NodeOk(rules, Graft(t, b), HashOf(b))
  {
    var p := b.header.prevHash;
    assert NodeOk(rules, t, p);
    AcceptedFits(rules, t.branches[p], b, now);
    ExtendBranch(rules, t.branches[p], b);
  }

  lemma GraftShaped(t: BlockTree, b: Block)
    requires Shaped(t) && b.header.prevHash in t.blocks && HashOf(b) !in t.blocks
    ensures Shaped(Graft(t, b))
  {
  }

  lemma GraftLinks(t: BlockTree, b: Block)
    requires Shaped(t) && b.header.prevHash in t.blocks && HashOf(b) !in t.blocks
    requires Shaped(Graft(t, b)) && AllLinks(t)
    ensures AllLinks(Graft(t, b))
  {
    forall k | k in Graft(t, b).blocks && k != GENESIS_HASH ensures LinkOk(Graft(t, b), k) {
      if k != HashOf(b) { assert LinkOk(t, k); }
    }
  }

  lemma GraftNodes(rules: Rules, t: BlockTree, b: Block)
    requires Shaped(t) && b.header.prevHash in t.blocks && HashOf(b) !in t.blocks
    requires Shaped(Graft(t, b)) && AllNodes(rules, t)
    requires NodeOk(rules, Graft(t, b), HashOf(b))
    ensures AllNodes(rules, Graft(t, b))
  {
    forall k | k in Graft(t, b).blocks ensures NodeOk(rules, Graft(t, b), k) {
      if k != HashOf(b) { assert NodeOk(rules, t, k); }
    }
  }

  lemma GraftIsSound(rules: Rules, t: BlockTree, b: Block, now: int)
    requires Sound(rules, t) && b.header.prevHash in t.blocks && HashOf(b) !in t.blocks
    requires VerdictOn(rules, t, b, now) == Accept
    ensures Sound(rules, Graft(t, b))
  {
    GraftShaped(t, b);
    GraftLinks(t, b);
    GraftNode(rules, t, b, now);
    GraftNodes(rules, t, b);
  }

  /** A block that is not stored has no stored children. */
  lemma NoChildYet(rules: Rules, t: BlockTree, h: Digest)
    requires Sound(rules, t) && h !in t.blocks && h.HeaderHash?
    ensures forall k :: k in t.blocks ==> t.blocks[k].header.prevHash != h
  {
    forall k | k in t.blocks ensures t.blocks[k].header.prevHash != h {
      assert NodeOk(rules, t, k);
      if k != GENESIS_HASH { assert LinkOk(t, k); }
    }
  }

  /** What the tree says about one stored block. */
  lemma {:induction false} StoredBlock(rules: Rules, t: BlockTree, h: Digest)
    requires Sound(rules, t) && h in t.blocks
    ensures HashOf(t.blocks[h]) == h && |t.branches[h]| > 0 && Last(t.branches[h]) == t.blocks[h]
    ensures ValidBranch(rules, t.branches[h])
    ensures |t.branches[h]| == t.heights[h] + 1 && t.chainwork[h] == Work(t.branches[h])
    ensures h == GENESIS_HASH ==> t.branches[h] == [GENESIS]
    ensures h != GENESIS_HASH ==>
              var p := t.blocks[h].header.prevHash;
              p in t.blocks && t.branches[h] == t.branches[p] + [t.blocks[h]] && |t.branches[p]| > 0
  {
    assert NodeOk(rules, t, h);
    if h != GENESIS_HASH {
      assert LinkOk(t, h);
      assert NodeOk(rules, t, t.blocks[h].header.prevHash);
    }
  }

  /** Every block on a path is stored, under the path that leads to it. */
  ghost predicate OnPath(t: BlockTree, s: seq<Block>, i: nat)
    requires i < |s|
  {
    var k := HashOf(s[i]);
    && k in t.blocks && t.blocks[k] == s[i]
    && k in t.branches && t.branches[k] == s[..i + 1]
  }

  lemma {:induction false} PathStored(rules: Rules, t: BlockTree, h: Digest, i: nat)
    requires Sound(rules, t) && h in t.blocks && i < |t.branches[h]|
    ensures OnPath(t, t.branches[h], i)
    decreases |t.branches[h]|
  {
    StoredBlock(rules, t, h);
    var s := t.branches[h];
    if i == |s| - 1 {
      assert s[..i + 1] == s;
    } else {
      var p := t.blocks[h].header.prevHash;
      PathStored(rules, t, p, i);
      PrefixOfPrefix(t.branches[p], t.blocks[h], i + 1);
    }
  }

  lemma PrefixOfPrefix(s: seq<Block>, b: Block, n: nat)
    requires n <= |s|
    ensures (s + [b])[..n] == s[..n]
  {
  }

  /** The path to `h`, block by block: stored, linked to its predecessor, and genesis exactly at its start. */
  ghost predicate PathOk(t: BlockTree, h: Digest) {
    && h in t.branches
    && var s := t.branches[h];
       && |s| > 0 && HashOf(Last(s)) == h
       && forall i {:trigger StepOk(t, s, i)} :: 0 <= i < |s| ==> StepOk(t, s, i)
  }

  ghost predicate StepOk(t: BlockTree, s: seq<Block>, i: int)
    requires 0 <= i < |s|
  {
    && HashOf(s[i]) in t.blocks && t.blocks[HashOf(s[i])] == s[i]
    && (i > 0 ==> s[i].header.prevHash == HashOf(s[i - 1]))
    && (HashOf(s[i]) == GENESIS_HASH <==> i == 0)
  }

  lemma {:induction false} PathsOk(rules: Rules, t: BlockTree, h: Digest)
    requires Sound(rules, t) && h in t.blocks
    ensures PathOk(t, h) && ValidBranch(rules, t.branches[h])
  {
    StoredBlock(rules, t, h);
    var s := t.branches[h];
    forall i | 0 <= i < |s| ensures StepOk(t, s, i) {
      PathStored(rules, t, h, i);
      Linked(rules, s, i);
      assert OnPath(t, s, i);
      if HashOf(s[i]) == GENESIS_HASH { GenesisIsFirst(rules, t, s, i); }
    }
  }

  lemma GenesisIsFirst(rules: Rules, t: BlockTree, s: seq<Block>, i: nat)
    requires Sound(rules, t) && i < |s| && OnPath(t, s, i) && HashOf(s[i]) == GENESIS_HASH
    ensures i == 0
  {
  }

  lemma GenesisAlone(rules: Rules)
    ensures Sound(rules, BlockTree(map[GENESIS_HASH := GENESIS], map[GENESIS_HASH := 0],
                                   map[GENESIS_HASH := BlockWork(GENESIS)], map[GENESIS_HASH := [GENESIS]]))
  {
    assert Init([GENESIS]) == [];
    assert Work([GENESIS]) == Work([]) + BlockWork(GENESIS);
  }

  lemma GraftHasNoChild(rules: Rules, t: BlockTree, b: Block)
    requires Sound(rules, t) && b.header.prevHash in t.blocks && HashOf(b) !in t.blocks
    requires Sound(rules, Graft(t, b))
    ensures forall k :: k in Graft(t, b).blocks ==> Graft(t, b).blocks[k].header.prevHash != HashOf(b)
  {
    NoChildYet(rules, t, HashOf(b));
  }

  // ----- growth ----------------------------------------------------------------- //

  /** Nothing stored is lost or moved. */
  ghost predicate Extends(pre: BlockTree, post: BlockTree) {
    forall h :: h in pre.blocks && h in pre.branches ==>
      && h in post.blocks && post.blocks[h] == pre.blocks[h]
      && h in post.branches && post.branches[h] == pre.branches[h]
  }

  lemma ExtendsKeeps(pre: BlockTree, post: BlockTree, h: Digest)
    requires Extends(pre, post) && h in pre.blocks && h in pre.branches
    ensures h in post.blocks && h in post.branches && post.branches[h] == pre.branches[h]
  {
  }

  ghost function Added(pre: BlockTree, post: BlockTree): set<Digest> {
    post.blocks.Keys - pre.blocks.Keys
  }

  type Pool = map<Digest, Block>

  /** An orphan that was taken out was stored or was judged, against its parent's branch, not acceptable. */
  ghost predicate Resolved(rules: Rules, now: int, t: BlockTree, b: Block)
    requires Sound(rules, t)
  {
    && b.header.prevHash in t.blocks
    && (HashOf(b) in t.blocks || VerdictOn(rules, t, b, now) != Accept)
  }

  /** `q` is what is left of the pool `p`. */
  ghost predicate SubPool(q: Pool, p: Pool) {
    forall k :: k in q ==> k in p && q[k] == p[k]
  }

  lemma SubPoolKeys(q: Pool, p: Pool)
    requires SubPool(q, p)
    ensures q.Keys <= p.Keys
  {
  }

  /** What was added came from the pool `p`, and descends from the blocks in `roots`. */
  ghost predicate Grown(now: int, roots: set<Digest>, pre: BlockTree, post: BlockTree, p: Pool) {
    forall h :: h in Added(pre, post) ==>
      && h in p && post.blocks[h] == p[h]
      && NotTooEarly(p[h], now) && p[h].header.prevHash in roots + Added(pre, post)
  }

  /** What left the pool was waiting for a block that arrived, and has been dealt with. */
  ghost predicate Cleared(rules: Rules, now: int, roots: set<Digest>, pre: BlockTree, post: BlockTree, p: Pool, q: Pool)
    requires Sound(rules, post)
  {
    forall k :: k in p && k !in q ==>
      p[k].header.prevHash in roots + Added(pre, post) && Resolved(rules, now, post, p[k])
  }

  /** The tree grew from `pre` to `post` by connecting orphans, starting from children of `roots`. */
  ghost predicate Connected(rules: Rules, now: int, roots: set<Digest>, pre: BlockTree, post: BlockTree, p: Pool,
                            q: Pool)
    requires Sound(rules, post)
  {
    && Extends(pre, post)
    && SubPool(q, p)
    && Grown(now, roots, pre, post, p)
    && Cleared(rules, now, roots, pre, post, p, q)
    && Popped(pre, post, q)
  }

  /** An orphan is taken out of the pool before it is stored. */
  ghost predicate Popped(pre: BlockTree, post: BlockTree, q: Pool) {
    forall k :: k in q ==> k !in Added(pre, post)
  }

  /** The block `x` is on the branch that `y` ends. */
  ghost predicate OnWay(t: BlockTree, x: Digest, y: Digest) {
    y in t.branches && exists i :: 0 <= i < |t.branches[y]| && HashOf(t.branches[y][i]) == x
  }

  /** No orphan in `q` waits for a block that has just arrived. */
  ghost predicate Drained(roots: set<Digest>, pre: BlockTree, post: BlockTree, q: Pool) {
    forall k :: k in q ==> q[k].header.prevHash !in roots + Added(pre, post)
  }

  /** Validation of `b` on its parent's branch raises. */
  ghost predicate Strikes(rules: Rules, now: int, t: BlockTree, b: Block)
    requires Sound(rules, t)
  {
    b.header.prevHash in t.blocks && VerdictOn(rules, t, b, now) == Raise
  }

  /** Validation of some orphan that was taken out raised. */
  ghost predicate Struck(rules: Rules, now: int, t: BlockTree, p: Pool, q: Pool)
    requires Sound(rules, t)
  {
    exists k {:trigger Strikes(rules, now, t, p[k])} :: k in p && k !in q && Strikes(rules, now, t, p[k])
  }

  /** At most one did: the exception ends the retries. */
  ghost predicate StruckOnce(rules: Rules, now: int, t: BlockTree, p: Pool, q: Pool)
    requires Sound(rules, t)
  {
    forall j, k {:trigger Strikes(rules, now, t, p[j]), Strikes(rules, now, t, p[k])} ::
      j in p && j !in q && k in p && k !in q && Strikes(rules, now, t, p[j]) && Strikes(rules, now, t, p[k]) ==> j == k
  }

  /** After an exception: every orphan left whose parent arrived waits for a block on the way to the one that raised. */
  ghost predicate Behind(rules: Rules, now: int, roots: set<Digest>, pre: BlockTree, post: BlockTree, p: Pool, q: Pool)
    requires Sound(rules, post)
  {
    forall c, k {:trigger Strikes(rules, now, post, p[c]), q[k]} ::
      c in p && c !in q && Strikes(rules, now, post, p[c]) && k in q && q[k].header.prevHash in roots + Added(pre, post)
      ==> OnWay(post, q[k].header.prevHash, p[c].header.prevHash)
  }

  lemma ConnectedToItself(rules: Rules, now: int, roots: set<Digest>, t: BlockTree, p: Pool)
    requires Sound(rules, t)
    ensures Connected(rules, now, roots, t, t, p, p)
  {
  }

  lemma VerdictKept(rules: Rules, pre: BlockTree, post: BlockTree, b: Block, now: int)
    requires Sound(rules, pre) && Sound(rules, post) && Extends(pre, post) && b.header.prevHash in pre.blocks
    ensures b.header.prevHash in post.blocks && VerdictOn(rules, post, b, now) == VerdictOn(rules, pre, b, now)
  {
  }

  lemma ResolvedKept(rules: Rules, pre: BlockTree, post: BlockTree, b: Block, now: int)
    requires Sound(rules, pre) && Sound(rules, post) && Extends(pre, post) && Resolved(rules, now, pre, b)
    ensures Resolved(rules, now, post, b)
  {
    VerdictKept(rules, pre, post, b, now);
  }

  lemma GraftExtends(t: BlockTree, b: Block)
    requires Shaped(t) && b.header.prevHash in t.blocks && HashOf(b) !in t.blocks
    ensures Extends(t, Graft(t, b)) && Added(t, Graft(t, b)) == {HashOf(b)}
  {
  }

  lemma AddedInSteps(t0: BlockTree, t1: BlockTree, b: Block, t2: BlockTree)
    requires Shaped(t1) && b.header.prevHash in t1.blocks
    requires t0.blocks.Keys <= t1.blocks.Keys && HashOf(b) !in t1.blocks && HashOf(b) in t2.blocks
    requires Graft(t1, b).blocks.Keys <= t2.blocks.Keys
    ensures Added(t0, t2) == Added(t0, t1) + {HashOf(b)} + Added(Graft(t1, b), t2)
  {
  }

  lemma ExtendsThrough(rules: Rules, t0: BlockTree, t1: BlockTree, t2: BlockTree)
    requires Sound(rules, t0) && Sound(rules, t1) && Extends(t0, t1) && Extends(t1, t2)
    ensures Extends(t0, t2) && t0.blocks.Keys <= t1.blocks.Keys <= t2.blocks.Keys
  {
  }

  /** The state of the orphan loop: `p0`, `t0` at its start, `p1`, `t1` now, and `k` the orphan just taken out. */
  ghost predicate Round(rules: Rules, now: int, roots: set<Digest>, t0: BlockTree, t1: BlockTree, p0: Pool, p1: Pool,
                        k: Digest) {
    && Sound(rules, t0) && Sound(rules, t1)
    && Connected(rules, now, roots, t0, t1, p0, p1)
    && k in p1 && HashOf(p1[k]) == k
    && p1[k].header.prevHash in roots && roots <= t0.blocks.Keys
  }

  /** What follows when that orphan is stored and its own children are connected. */
  ghost predicate Follows(rules: Rules, now: int, t1: BlockTree, t2: BlockTree, p1: Pool, p2: Pool, k: Digest)
    requires k in p1
  {
    && Sound(rules, t1) && Sound(rules, t2)
    && p1[k].header.prevHash in t1.blocks
    && k !in t1.blocks && NotTooEarly(p1[k], now)
    && k in t2.blocks
    && Connected(rules, now, {k}, Graft(t1, p1[k]), t2, p1 - {k}, p2)
  }

  lemma OneMoreGrown(rules: Rules, now: int, roots: set<Digest>,
                     t0: BlockTree, t1: BlockTree, t2: BlockTree, p0: Pool, p1: Pool, p2: Pool, k: Digest)
    requires Round(rules, now, roots, t0, t1, p0, p1, k)
    requires Follows(rules, now, t1, t2, p1, p2, k)
    ensures Extends(t0, t2) && SubPool(p2, p0)
    ensures Added(t0, t1) + {k} <= Added(t0, t2) && Added(Graft(t1, p1[k]), t2) <= Added(t0, t2)
    ensures Grown(now, roots, t0, t2, p0)
  {
    var mid := Graft(t1, p1[k]);
    GraftExtends(t1, p1[k]);
    assert Extends(t1, t2);
    ExtendsThrough(rules, t0, t1, t2);
    AddedInSteps(t0, t1, p1[k], t2);
    forall h | h in Added(t0, t2)
      ensures h in p0 && t2.blocks[h] == p0[h] && NotTooEarly(p0[h], now)
              && p0[h].header.prevHash in roots + Added(t0, t2)
    {
      if h in Added(mid, t2) {
        assert h in p1 - {k};
      } else if h == k {
        assert mid.blocks[k] == t2.blocks[k];
      } else {
        assert h in Added(t0, t1);
      }
    }
  }

  lemma StillPopped(rules: Rules, now: int, roots: set<Digest>,
                    t0: BlockTree, t1: BlockTree, t2: BlockTree, p0: Pool, p1: Pool, p2: Pool, k: Digest)
    requires Round(rules, now, roots, t0, t1, p0, p1, k)
    requires Follows(rules, now, t1, t2, p1, p2, k)
    ensures Popped(t0, t2, p2)
  {
    GraftExtends(t1, p1[k]);
    ExtendsThrough(rules, t0, t1, t1);
    AddedInSteps(t0, t1, p1[k], t2);
    TakenOut(p1, k);
    forall j | j in p2 ensures j !in Added(t0, t2) {
      assert j in p1 - {k};
    }
  }

  /** A round in which the orphan `k` was stored. */
  lemma OneMoreOrphan(rules: Rules, now: int, roots: set<Digest>,
                      t0: BlockTree, t1: BlockTree, t2: BlockTree, p0: Pool, p1: Pool, p2: Pool, k: Digest)
    requires Round(rules, now, roots, t0, t1, p0, p1, k)
    requires Follows(rules, now, t1, t2, p1, p2, k)
    ensures Connected(rules, now, roots, t0, t2, p0, p2)
  {
    OneMoreGrown(rules, now, roots, t0, t1, t2, p0, p1, p2, k);
    GraftExtends(t1, p1[k]);
    assert Extends(t1, t2);
    assert Popped(t0, t2, p2) by { StillPopped(rules, now, roots, t0, t1, t2, p0, p1, p2, k); }
    forall j | j in p0 && j !in p2
      ensures p0[j].header.prevHash in roots + Added(t0, t2) && Resolved(rules, now, t2, p0[j])
    {
      if j !in p1 {
        ResolvedKept(rules, t1, t2, p0[j], now);
      } else if j != k {
        assert j in p1 - {k};
      }
    }
  }

  /** A round in which the orphan `k` was refused, or was stored already. */
  lemma OneLessOrphan(rules: Rules, now: int, roots: set<Digest>, t0: BlockTree, t1: BlockTree, p0: Pool, p1: Pool,
                      k: Digest)
    requires Round(rules, now, roots, t0, t1, p0, p1, k)
    requires Resolved(rules, now, t1, p1[k])
    ensures Connected(rules, now, roots, t0, t1, p0, p1 - {k})
  {
    assert p0[k] == p1[k];
    TakenOut(p1, k);
  }

  lemma TakenOut(p: Pool, k: Digest)
    ensures forall j :: j in p - {k} <==> j in p && j != k
    ensures SubPool(p - {k}, p)
  {
  }

  /** The orphans `todo` wait for `parent`; no orphan waits for a block added since. */
  ghost predicate Waiting(parent: Digest, todo: set<Digest>, t0: BlockTree, t: BlockTree, q: Pool) {
    && (forall k :: k in todo ==> k in q && q[k].header.prevHash == parent && k !in t.blocks)
    && (forall k :: k in q ==>
          q[k].header.prevHash !in Added(t0, t) && (q[k].header.prevHash == parent ==> k in todo))
  }

  lemma WaitingAfterStore(rules: Rules, now: int, parent: Digest, todo: set<Digest>,
                          t0: BlockTree, t1: BlockTree, t2: BlockTree, p1: Pool, p2: Pool, k: Digest)
    requires Sound(rules, t0) && Extends(t0, t1) && parent in t0.blocks && k in todo
    requires Waiting(parent, todo, t0, t1, p1) && HashOf(p1[k]) == k
    requires Follows(rules, now, t1, t2, p1, p2, k)
    requires Drained({k}, Graft(t1, p1[k]), t2, p2)
    ensures Waiting(parent, todo - {k}, t0, t2, p2)
  {
    var mid := Graft(t1, p1[k]);
    GraftExtends(t1, p1[k]);
    ExtendsThrough(rules, t0, t1, t1);
    assert parent in t1.blocks && parent in mid.blocks && parent != k;
    AddedInSteps(t0, t1, p1[k], t2);
    forall j | j in todo - {k} ensures j in p2 && p2[j].header.prevHash == parent && j !in t2.blocks {
      assert j in p1 - {k};
      assert (p1 - {k})[j] == p1[j];
      assert j !in Added(mid, t2);
    }
    forall j | j in p2
      ensures p2[j].header.prevHash !in Added(t0, t2) && (p2[j].header.prevHash == parent ==> j in todo - {k})
    {
      assert j in p1 - {k} && p2[j] == p1[j];
    }
  }

  lemma NothingLeft(parent: Digest, t0: BlockTree, t: BlockTree, q: Pool)
    requires Waiting(parent, {}, t0, t, q)
    ensures Drained({parent}, t0, t, q)
  {
  }

  lemma WaitingAfterRefusal(parent: Digest, todo: set<Digest>, t0: BlockTree, t: BlockTree, p: Pool, k: Digest)
    requires Waiting(parent, todo, t0, t, p) && k in todo
    ensures Waiting(parent, todo - {k}, t0, t, p - {k})
  {
  }

  /** Orphans taken out earlier do not strike later either: their parents were there already. */
  lemma StillNotStruck(rules: Rules, now: int, t1: BlockTree, t2: BlockTree, p0: Pool, p1: Pool)
    requires Sound(rules, t1) && Sound(rules, t2) && Extends(t1, t2) && !Struck(rules, now, t1, p0, p1)
    requires forall j :: j in p0 && j !in p1 ==> p0[j].header.prevHash in t1.blocks
    ensures !Struck(rules, now, t2, p0, p1)
  {
    forall j | j in p0 && j !in p1 ensures !Strikes(rules, now, t2, p0[j]) {
      VerdictKept(rules, t1, t2, p0[j], now);
      assert !Strikes(rules, now, t1, p0[j]);
    }
  }

  /** An orphan that did not make validation raise leaves the count of those that did unchanged. */
  lemma StruckInside(rules: Rules, now: int, t: BlockTree, p0: Pool, p1: Pool, p2: Pool, k: Digest)
    requires Sound(rules, t) && SubPool(p1, p0) && SubPool(p2, p1 - {k}) && !Struck(rules, now, t, p0, p1)
    requires k in p1 && !Strikes(rules, now, t, p1[k])
    ensures Struck(rules, now, t, p0, p2) <==> Struck(rules, now, t, p1 - {k}, p2)
    ensures StruckOnce(rules, now, t, p1 - {k}, p2) ==> StruckOnce(rules, now, t, p0, p2)
  {
    TakenOut(p1, k);
    forall j | j in p0 && j !in p2 && Strikes(rules, now, t, p0[j])
      ensures j in p1 - {k} && (p1 - {k})[j] == p0[j]
    {
      assert j in p1;
    }
    if Struck(rules, now, t, p1 - {k}, p2) {
      var j :| j in p1 - {k} && j !in p2 && Strikes(rules, now, t, (p1 - {k})[j]);
      assert Strikes(rules, now, t, p0[j]);
    }
  }

  lemma StruckHere(rules: Rules, now: int, t: BlockTree, p0: Pool, p1: Pool, k: Digest)
    requires Sound(rules, t) && SubPool(p1, p0) && !Struck(rules, now, t, p0, p1) && k in p1
    ensures Struck(rules, now, t, p0, p1 - {k}) <==> Strikes(rules, now, t, p1[k])
    ensures StruckOnce(rules, now, t, p0, p1 - {k})
  {
    TakenOut(p1, k);
    assert p0[k] == p1[k];
    assert Strikes(rules, now, t, p1[k]) ==> Strikes(rules, now, t, p0[k]);
  }

  // ----- on the way to an exception ------------------------------------------------- //

  lemma OnWayToItself(rules: Rules, t: BlockTree, x: Digest)
    requires Sound(rules, t) && x in t.blocks
    ensures OnWay(t, x, x)
  {
    StoredBlock(rules, t, x);
    assert HashOf(t.branches[x][|t.branches[x]| - 1]) == x;
  }

  lemma OnWayToChild(rules: Rules, t: BlockTree, x: Digest, h: Digest)
    requires Sound(rules, t) && h in t.blocks && h != GENESIS_HASH && OnWay(t, x, t.blocks[h].header.prevHash)
    ensures OnWay(t, x, h)
  {
    StoredBlock(rules, t, h);
    var s := t.branches[t.blocks[h].header.prevHash];
    var i :| 0 <= i < |s| && HashOf(s[i]) == x;
    assert HashOf(t.branches[h][i]) == x;
  }

  /** Whatever was connected to the children of `k` lies beyond the parent of `k`. */
  lemma {:induction false} BeyondRoot(rules: Rules, now: int, mid: BlockTree, t: BlockTree, p: Pool, k: Digest,
                                      x: Digest, h: Digest)
    requires Sound(rules, t) && k in t.blocks && k != GENESIS_HASH && GENESIS_HASH in mid.blocks
    requires OnWay(t, x, t.blocks[k].header.prevHash)
    requires Grown(now, {k}, mid, t, p) && h in {k} + Added(mid, t)
    ensures OnWay(t, x, h)
    decreases |t.branches[h]|
  {
    if h != k {
      StoredBlock(rules, t, h);
      BeyondRoot(rules, now, mid, t, p, k, x, t.blocks[h].header.prevHash);
    }
    OnWayToChild(rules, t, x, h);
  }

  /** The orphan `k` itself raised: what is left waits, if at all, for the same parent. */
  lemma {:induction false} BehindHere(rules: Rules, now: int, parent: Digest, todo: set<Digest>,
                                      t0: BlockTree, t: BlockTree, p0: Pool, p: Pool, k: Digest)
    requires Sound(rules, t) && parent in t.blocks && SubPool(p, p0) && Waiting(parent, todo, t0, t, p)
    requires k in p && p[k].header.prevHash == parent && !Struck(rules, now, t, p0, p)
    ensures Behind(rules, now, {parent}, t0, t, p0, p - {k})
  {
    TakenOut(p, k);
    OnWayToItself(rules, t, parent);
    forall c | c in p0 && c !in p - {k} && Strikes(rules, now, t, p0[c]) ensures c == k {
    }
  }

  /**
   * The exception came from among the orphans behind `k`: what is left waits for a block behind `k`, or for the parent.
   */
  lemma {:induction false} BehindThere(rules: Rules, now: int, parent: Digest, todo: set<Digest>,
                                       t0: BlockTree, t1: BlockTree, t2: BlockTree, p0: Pool, p1: Pool, p2: Pool,
                                       k: Digest)
    requires Round(rules, now, {parent}, t0, t1, p0, p1, k) && Follows(rules, now, t1, t2, p1, p2, k)
    requires Waiting(parent, todo, t0, t1, p1) && p1[k].header.prevHash == parent
    requires Behind(rules, now, {k}, Graft(t1, p1[k]), t2, p1 - {k}, p2)
    requires !Struck(rules, now, t2, p0, p1) && !Strikes(rules, now, t2, p1[k])
    ensures Behind(rules, now, {parent}, t0, t2, p0, p2)
  {
    var mid := Graft(t1, p1[k]);
    GraftExtends(t1, p1[k]);
    ExtendsThrough(rules, t0, t1, t1);
    AddedInSteps(t0, t1, p1[k], t2);
    TakenOut(p1, k);
    forall c, j | c in p0 && c !in p2 && Strikes(rules, now, t2, p0[c]) && j in p2
        && p2[j].header.prevHash in {parent} + Added(t0, t2)
      ensures OnWay(t2, p2[j].header.prevHash, p0[c].header.prevHash)
    {
      assert c in p1 - {k} && (p1 - {k})[c] == p0[c];
      assert j in p1 - {k} && p2[j] == p1[j];
      if p2[j].header.prevHash == parent {
        OnWayBehind(rules, now, parent, mid, t2, p1, p2, k, c);
      }
    }
  }

  lemma {:induction false} OnWayBehind(rules: Rules, now: int, parent: Digest, mid: BlockTree, t: BlockTree,
                                       p1: Pool, p2: Pool, k: Digest, c: Digest)
    requires Sound(rules, t) && k in t.blocks && k in p1 && t.blocks[k] == p1[k] && p1[k].header.prevHash == parent
    requires k != GENESIS_HASH && GENESIS_HASH in mid.blocks
    requires Connected(rules, now, {k}, mid, t, p1 - {k}, p2) && c in p1 - {k} && c !in p2
    ensures OnWay(t, parent, p1[c].header.prevHash)
  {
    StoredBlock(rules, t, k);
    OnWayToItself(rules, t, parent);
    BeyondRoot(rules, now, mid, t, p1 - {k}, k, parent, p1[c].header.prevHash);
  }

  // ----- the active tip ----------------------------------------------------------- //

  /** No stored block has more work than `tip`. */
  ghost predicate Heaviest(t: BlockTree, tip: Digest) {
    tip in t.chainwork && forall h :: h in t.chainwork ==> t.chainwork[h] <= t.chainwork[tip]
  }

  /** What the active chain needs to know once `b` is grafted on. */
  lemma GraftedPaths(rules: Rules, t: BlockTree, b: Block, tip: Digest)
    requires Sound(rules, t) && b.header.prevHash in t.blocks && HashOf(b) !in t.blocks && tip in t.blocks
    requires Sound(rules, Graft(t, b))
    ensures var t', h := Graft(t, b), HashOf(b);
            && PathOk(t', tip) && PathOk(t', h) && t'.heights[h] + 1 == |t'.branches[h]|
            && t'.branches[tip] == t.branches[tip] && t'.chainwork[tip] == t.chainwork[tip]
            && (b.header.prevHash == tip ==> t'.branches[h] == t'.branches[tip] + [b])
  {
    var t' := Graft(t, b);
    PathsOk(rules, t', tip);
    PathsOk(rules, t', HashOf(b));
    StoredBlock(rules, t', HashOf(b));
  }

  lemma HeaviestAfter(t: BlockTree, b: Block, tip: Digest, tip': Digest)
    requires Shaped(t) && b.header.prevHash in t.blocks && HashOf(b) !in t.blocks && Heaviest(t, tip)
    requires var t', h := Graft(t, b), HashOf(b);
             if b.header.prevHash == tip || t'.chainwork[h] > t.chainwork[tip] then tip' == h else tip' == tip
    ensures Heaviest(Graft(t, b), tip')
  {
  }

  /** The tip is where it was, or it is a block of more work. */
  ghost predicate TipMoved(t: BlockTree, tip: Digest, t': BlockTree, tip': Digest) {
    && tip in t.chainwork && tip' in t'.chainwork
    && ((tip' == tip && t'.chainwork[tip'] == t.chainwork[tip]) || t'.chainwork[tip'] > t.chainwork[tip])
  }

  lemma TipMovedOn(t: BlockTree, tip: Digest, t1: BlockTree, tip1: Digest, t2: BlockTree, tip2: Digest)
    requires TipMoved(t, tip, t1, tip1) && TipMoved(t1, tip1, t2, tip2)
    ensures TipMoved(t, tip, t2, tip2)
  {
  }

  /** Extending the tip makes it heavier: every stored block is worth some work. */
  lemma TipMovedByGraft(rules: Rules, t: BlockTree, b: Block, tip: Digest, tip': Digest)
    requires Sound(rules, t) && b.header.prevHash in t.blocks && HashOf(b) !in t.blocks && Heaviest(t, tip)
    requires Sound(rules, Graft(t, b))
    requires var t', h := Graft(t, b), HashOf(b);
             if b.header.prevHash == tip || t'.chainwork[h] > t.chainwork[tip] then tip' == h else tip' == tip
    ensures TipMoved(t, tip, Graft(t, b), tip')
  {
    var t', h := Graft(t, b), HashOf(b);
    StoredBlock(rules, t', h);
    WorkCounts(rules, t'.branches[h]);
    assert BlockWork(b) > 0 && t'.chainwork[h] == t.chainwork[b.header.prevHash] + BlockWork(b);
    assert tip != h && t'.chainwork[tip] == t.chainwork[tip];
  }

  /** An orphan of a parent without stored children is not stored itself. */
  lemma OrphansNotStored(rules: Rules, t: BlockTree, p: Pool, parent: Digest)
    requires Sound(rules, t) && forall k :: k in p ==> HashOf(p[k]) == k
    requires forall h :: h in t.blocks ==> t.blocks[h].header.prevHash != parent
    ensures forall k :: k in p && p[k].header.prevHash == parent ==> k !in t.blocks
  {
    forall k | k in p && p[k].header.prevHash == parent ensures k !in t.blocks {
      if k in t.blocks { StoredBlock(rules, t, k); }
    }
  }
}
