/** Persistence (store.py): a table of blocks, and a chain rebuilt by replaying it. */
module Store {
  import opened Ledger
  import opened CoinSet
  import opened Chain
  import opened Tree
  import opened NodeChain
  import opened Delivery
  import Pow

  datatype Row = Row(block: Block, height: nat)

  /** Every row stands under the hash of its block. */
  ghost predicate Keyed(rows: map<Digest, Row>) {
    forall h :: h in rows ==> HashOf(rows[h].block) == h
  }

  /** Row `g` comes no later than row `h`: by height, then by the number the hash spells. */
  predicate NoLater(rows: map<Digest, Row>, rank: Digest -> nat, g: Digest, h: Digest) {
    g in rows && h in rows
    && (rows[g].height < rows[h].height || (rows[g].height == rows[h].height && rank(g) <= rank(h)))
  }

  /** `bs` are the blocks of the rows under `keys`, each once, in the order of the query. */
  ghost predicate Lists(rows: map<Digest, Row>, rank: Digest -> nat, keys: set<Digest>, bs: seq<Block>) {
    && (forall b :: b in bs <==> HashOf(b) in rows && HashOf(b) in keys && rows[HashOf(b)].block == b)
    && (forall i, j :: 0 <= i < j < |bs| ==> bs[i] != bs[j])
    && (forall i, j :: 0 <= i < j < |bs| ==> NoLater(rows, rank, HashOf(bs[i]), HashOf(bs[j])))
  }

  lemma {:induction false} ListsOneMore(rows: map<Digest, Row>, rank: Digest -> nat, keys: set<Digest>, bs: seq<Block>,
                                        h: Digest)
    requires Keyed(rows) && Lists(rows, rank, keys, bs) && h in rows && h !in keys
    requires forall k :: k in keys && k in rows ==> NoLater(rows, rank, k, h)
    ensures Lists(rows, rank, keys + {h}, bs + [rows[h].block])
  {
    var more := bs + [rows[h].block];
    forall b ensures b in more <==> HashOf(b) in rows && HashOf(b) in keys + {h} && rows[HashOf(b)].block == b {
      if b in more { assert b in bs || b == rows[h].block; }
    }
    forall i, j | 0 <= i < j < |more|
      ensures more[i] != more[j]
      ensures NoLater(rows, rank, HashOf(more[i]), HashOf(more[j]))
    {
      assert more[i] in bs;
    }
  }

  /** The table as a map from the primary key. */
  class BlockStore {
    var rows: map<Digest, Row>

    constructor ()
      ensures rows == map[]
    {
      rows := map[];
    }

    /** INSERT OR REPLACE. */
    method SaveBlock(block: Block, height: nat)
      modifies this
      ensures rows == old(rows)[HashOf(block) := Row(block, height)]
    {
      rows := rows[HashOf(block) := Row(block, height)];
    }

    /** ORDER BY height, hash. `rank` gives the number a hash spells. */
    method LoadBlocksInHeightOrder(rank: Digest -> nat) returns (bs: seq<Block>)
      requires Keyed(rows)
      ensures forall b :: b in bs <==> HashOf(b) in rows && rows[HashOf(b)].block == b
      ensures forall i, j :: 0 <= i < j < |bs| ==> bs[i] != bs[j]
      ensures forall i, j :: 0 <= i < j < |bs| ==> NoLater(rows, rank, HashOf(bs[i]), HashOf(bs[j]))
    {
      bs := [];
      var rest := rows.Keys;
      while rest != {}
        invariant rest <= rows.Keys && Lists(rows, rank, rows.Keys - rest, bs)
        invariant forall h, k :: h in rows.Keys - rest && k in rest ==> NoLater(rows, rank, h, k)
        decreases rest
      {
        var h := Lowest(rank, rest);
        ListsOneMore(rows, rank, rows.Keys - rest, bs, h);
        assert rows.Keys - (rest - {h}) == rows.Keys - rest + {h};
        bs := bs + [rows[h].block];
        rest := rest - {h};
      }
    }

    /** The first row among `keys`. */
    method Lowest(rank: Digest -> nat, keys: set<Digest>) returns (low: Digest)
      requires keys != {} && keys <= rows.Keys
      ensures low in keys && forall h :: h in keys ==> NoLater(rows, rank, low, h)
    {
      low :| low in keys;
      var rest := keys - {low};
      while rest != {}
        invariant rest <= keys && low in keys
        invariant forall h :: h in keys && h !in rest ==> NoLater(rows, rank, low, h)
        decreases rest
      {
        var h :| h in rest;
        rest := rest - {h};
        if !NoLater(rows, rank, low, h) { low := h; }
      }
    }
  }

  /** The rows a chain is saved as. */
  ghost function RowsOf(t: BlockTree): map<Digest, Row>
    requires Shaped(t)
  {
    map h | h in t.blocks :: Row(t.blocks[h], t.heights[h])
  }

  method SaveChain(chain: Blockchain, store: BlockStore) returns (saved: nat)
    requires chain.Valid()
    modifies store
    ensures store.rows == old(store.rows) + RowsOf(chain.View())
    ensures saved == |chain.blocks|
  {
    saved := 0;
    var rest := chain.blocks.Keys;
    ghost var t, before := chain.View(), store.rows;
    NoRowYet(before, RowsOf(t));
    while rest != {}
      invariant chain.View() == t && rest <= t.blocks.Keys && saved + |rest| == |t.blocks.Keys|
      invariant store.rows == before + (RowsOf(t) - rest)
      decreases rest
    {
      var h :| h in rest;
      UnderItsHash(chain.rules, t, h);
      store.SaveBlock(chain.blocks[h], chain.heights[h]);
      OneMoreRow(before, RowsOf(t), rest, h);
      saved := saved + 1;
      rest := rest - {h};
    }
    AllRows(RowsOf(t), rest);
  }

  lemma UnderItsHash(rules: Rules, t: BlockTree, h: Digest)
    requires Sound(rules, t) && h in t.blocks
    ensures HashOf(t.blocks[h]) == h
  {
    StoredBlock(rules, t, h);
  }

  lemma NoRowYet(before: map<Digest, Row>, rows: map<Digest, Row>)
    ensures before + (rows - rows.Keys) == before
  {
  }

  lemma AllRows(rows: map<Digest, Row>, rest: set<Digest>)
    requires rest == {}
    ensures rows - rest == rows
  {
  }

  lemma OneMoreRow(before: map<Digest, Row>, rows: map<Digest, Row>, rest: set<Digest>, h: Digest)
    requires h in rest && h in rows
    ensures (before + (rows - rest))[h := rows[h]] == before + (rows - (rest - {h}))
  {
  }

  /** Saving a chain again after it has grown leaves the rows of the grown chain. */
  lemma {:induction false} SavedAgain(t0: BlockTree, t1: BlockTree)
    requires Shaped(t0) && Shaped(t1) && Extends(t0, t1)
    ensures RowsOf(t0) + RowsOf(t1) == RowsOf(t1)
  {
    assert t0.blocks.Keys <= t1.blocks.Keys;
  }

  // ----- loading -------------------------------------------------------------------- //

  /** The blocks of a table, the one under the genesis hash left out. */
  ghost function TableBlocks(rows: map<Digest, Row>): set<Block> {
    set h | h in rows && h != GENESIS_HASH :: rows[h].block
  }

  /** A table has one body for each header, so order cannot matter, and what can raise does. */
  lemma {:induction false} TableIsExact(rules: Rules, now: int, rows: map<Digest, Row>)
    requires Keyed(rows)
    ensures Clear(rules, now, TableBlocks(rows))
    ensures RaisesWithin(rules, now, TableBlocks(rows)) ==> Unavoidable(rules, now, TableBlocks(rows))
  {
    var delivered := TableBlocks(rows);
    forall b, c | b in delivered && c in delivered && b.header == c.header ensures b == c {
      assert HashOf(b) == HashOf(c);
    }
    assert forall s {:trigger Reaches(rules, now, delivered, s)} ::
        Reaches(rules, now, delivered, s) && |s| > 2 ==> Last(s) in delivered;
    if RaisesWithin(rules, now, delivered) {
      var b, s :| RaisesOn(rules, now, delivered, b, s);
      ClearIsSafe(rules, now, delivered, s);
      assert Trap(rules, now, delivered, b, s);
    }
  }

  /**
   * The table replayed into a fresh chain. It raises exactly when some stored block raises on a branch of stored
   * blocks; otherwise the chain has settled in the blocks of the table.
   */
  method LoadChain(store: BlockStore, rules: Rules, now: int) returns (chain: Blockchain, raised: bool)
    requires Keyed(store.rows)
    ensures fresh(chain) && fresh(chain.utxo) && chain.Valid() && chain.rules == rules
    ensures raised <==> RaisesWithin(rules, now, TableBlocks(store.rows))
    ensures !raised ==> Settled(rules, now, chain.View(), chain.orphans, TableBlocks(store.rows))
  {
    var bs := store.LoadBlocksInHeightOrder(rules.digestValue);
    var rest := SkipGenesis(bs);
    LoadedBlocks(store.rows, bs, rest);
    TableIsExact(rules, now, store.rows);
    chain, raised := DeliverToNew(rules, rest, now);
  }

  /** The loop skips genesis: a fresh chain has it already. */
  method SkipGenesis(bs: seq<Block>) returns (rest: seq<Block>)
    ensures forall b :: b in rest <==> b in bs && HashOf(b) != GENESIS_HASH
  {
    rest := [];
    for i := 0 to |bs|
      invariant forall b :: b in rest <==> b in bs[..i] && HashOf(b) != GENESIS_HASH
    {
      if HashOf(bs[i]) != GENESIS_HASH { rest := rest + [bs[i]]; }
    }
  }

  lemma LoadedBlocks(rows: map<Digest, Row>, bs: seq<Block>, rest: seq<Block>)
    requires Keyed(rows)
    requires forall b :: b in bs <==> HashOf(b) in rows && rows[HashOf(b)].block == b
    requires forall b :: b in rest <==> b in bs && HashOf(b) != GENESIS_HASH
    ensures BlockSet(rest) == TableBlocks(rows)
  {
    forall b ensures b in BlockSet(rest) <==> b in TableBlocks(rows) {
      if b in BlockSet(rest) {
        assert rows[HashOf(b)].block == b;
      }
    }
  }

  // ----- what is saved comes back ------------------------------------------------------- //

  /** The clock has not gone back behind a stored timestamp. */
  ghost predicate ClockKept(t: BlockTree, now: int) {
    forall h :: h in t.blocks && h != GENESIS_HASH ==> NotTooEarly(t.blocks[h], now)
  }

  lemma {:induction false} RowsAreKeyed(rules: Rules, t: BlockTree)
    requires Sound(rules, t)
    ensures Keyed(RowsOf(t))
  {
    forall h | h in t.blocks ensures HashOf(t.blocks[h]) == h {
      StoredBlock(rules, t, h);
    }
  }

  /** A sound tree is what a node settles in when it is given the tree's own blocks. */
  lemma {:induction false} SoundTreeIsSettled(rules: Rules, now: int, t: BlockTree)
    requires Sound(rules, t) && ClockKept(t, now)
    ensures Settled(rules, now, t, map[], TableBlocks(RowsOf(t)))
  {
    var delivered := TableBlocks(RowsOf(t));
    RowsAreKeyed(rules, t);
    forall h | h in t.blocks && h != GENESIS_HASH ensures t.blocks[h] in delivered {
      assert RowsOf(t)[h].block == t.blocks[h];
    }
    forall b | b in delivered ensures Placed(rules, now, t, map[], delivered, b) {
      assert HashOf(b) in t.blocks;
    }
  }

  /** What fits its branch never raises, whatever the clock. */
  lemma {:induction false} FitsNeverRaises(rules: Rules, branch: seq<Block>, b: Block, now: int)
    requires |branch| > 0 && Pow.BitsInRange(Last(branch).header.bits) && FitsBranch(rules, branch, b)
    ensures Judge(rules, branch, b, now) != Raise
  {
    PassedNeverRaises(rules, Replay(branch), b.transactions, |branch|);
  }

  /** Replaying a saved tree never raises, whatever the clock. */
  lemma {:induction false} SavedNeverRaises(rules: Rules, now: int, t: BlockTree)
    requires Sound(rules, t)
    ensures !RaisesWithin(rules, now, TableBlocks(RowsOf(t)))
  {
    RowsAreKeyed(rules, t);
    forall b, s | RaisesOn(rules, now, TableBlocks(RowsOf(t)), b, s) ensures false {
      SavedStaysCalm(rules, now, t, b, s);
    }
  }

  lemma {:induction false} SavedStaysCalm(rules: Rules, now: int, t: BlockTree, b: Block, s: seq<Block>)
    requires Sound(rules, t) && HashOf(b) in t.blocks && HashOf(b) != GENESIS_HASH && t.blocks[HashOf(b)] == b
    requires ValidBranch(rules, s) && HashOf(Last(s)) == b.header.prevHash
    ensures Judge(rules, s, b, now) != Raise
  {
    var h := HashOf(b);
    StoredBlock(rules, t, h);
    StoredPathIs(rules, t, s);
    ValidTail(rules, t.branches[h]);
    InitOfAppended(s, b, t.branches[h]);
    FitsNeverRaises(rules, s, b, now);
  }

  lemma InitOfAppended(s: seq<Block>, b: Block, more: seq<Block>)
    requires more == s + [b]
    ensures Init(more) == s && Last(more) == b
  {
  }

  // ----- what a reload brings back ------------------------------------------------------- //

  /** Every block of the branch passes the clock. */
  ghost predicate OnTime(s: seq<Block>, now: int) {
    forall i :: 1 <= i < |s| ==> NotTooEarly(s[i], now)
  }

  /** A reloaded tree holds exactly the blocks whose whole ancestry passes the clock, on the branches they had. */
  lemma {:induction false} ReloadedExactly(rules: Rules, now: int, t: BlockTree, t1: BlockTree, p1: Pool, h: Digest)
    requires Sound(rules, t) && Settled(rules, now, t1, p1, TableBlocks(RowsOf(t)))
    ensures h in t1.blocks <==> h in t.blocks && OnTime(t.branches[h], now)
    ensures h in t1.blocks ==> t1.blocks[h] == t.blocks[h] && t1.branches[h] == t.branches[h]
  {
    var delivered := TableBlocks(RowsOf(t));
    RowsAreKeyed(rules, t);
    TableIsExact(rules, now, RowsOf(t));
    if h in t1.blocks {
      StoredIsReached(rules, now, t1, p1, delivered, h);
      StoredBlock(rules, t1, h);
      ReachedIsSaved(rules, now, t, t1.branches[h]);
    }
    if h in t.blocks && OnTime(t.branches[h], now) {
      SavedIsReached(rules, now, t, h);
      StoredBlock(rules, t, h);
      ClearIsSafe(rules, now, delivered, t.branches[h]);
      ReachedIsStored(rules, now, t1, p1, delivered, t.branches[h]);
    }
  }

  lemma {:induction false} ReachedIsSaved(rules: Rules, now: int, t: BlockTree, s: seq<Block>)
    requires Sound(rules, t) && Keyed(RowsOf(t)) && Reaches(rules, now, TableBlocks(RowsOf(t)), s)
    ensures HashOf(Last(s)) in t.blocks && t.branches[HashOf(Last(s))] == s && t.blocks[HashOf(Last(s))] == Last(s)
    ensures OnTime(s, now)
  {
    if |s| == 1 { BranchOfGenesis(rules, s); }
    StoredPathIs(rules, t, s);
    StoredBlock(rules, t, HashOf(Last(s)));
  }

  lemma {:induction false} SavedIsReached(rules: Rules, now: int, t: BlockTree, h: Digest)
    requires Sound(rules, t) && Keyed(RowsOf(t)) && h in t.blocks && OnTime(t.branches[h], now)
    ensures Reaches(rules, now, TableBlocks(RowsOf(t)), t.branches[h])
  {
    PathsOk(rules, t, h);
    var s := t.branches[h];
    forall i | 1 <= i < |s| ensures s[i] in TableBlocks(RowsOf(t)) {
      assert StepOk(t, s, i);
      assert RowsOf(t)[HashOf(s[i])].block == s[i];
    }
  }

  lemma {:induction false} SavedComesBack(rules: Rules, now: int, t: BlockTree, tip: Digest, t1: BlockTree, p1: Pool,
                                          tip1: Digest)
    requires Sound(rules, t) && Heaviest(t, tip)
    requires Settled(rules, now, t1, p1, TableBlocks(RowsOf(t))) && Heaviest(t1, tip1)
    ensures t1 == t <==> ClockKept(t, now)
    ensures ClockKept(t, now) ==> p1 == map[] && t1.chainwork[tip1] == t.chainwork[tip]
  {
    if ClockKept(t, now) {
      SoundTreeIsSettled(rules, now, t);
      RowsAreKeyed(rules, t);
      TableIsExact(rules, now, RowsOf(t));
      OrderDoesNotMatter(rules, now, t1, p1, tip1, t, map[], tip, TableBlocks(RowsOf(t)));
    }
  }

  lemma {:induction false} SavedRows(rows: map<Digest, Row>, t0: BlockTree, t: BlockTree)
    requires Shaped(t)
    requires rows == map[] || (Shaped(t0) && Extends(t0, t) && rows == RowsOf(t0))
    ensures rows + RowsOf(t) == RowsOf(t)
  {
    if rows == map[] {
      assert map[] + RowsOf(t) == RowsOf(t);
    } else {
      SavedAgain(t0, t);
    }
  }

  /**
   * save_chain, then load_chain, also when an earlier state of the chain had been saved before. It never raises. The
   * rebuilt chain has the same tree exactly when the clock has not gone back behind a stored timestamp, and then no
   * orphans and a tip of the same work; in any case it has the blocks whose whole ancestry passes the clock.
   */
  method SaveAndLoad(chain: Blockchain, store: BlockStore, now: int, ghost t0: BlockTree)
    returns (again: Blockchain, raised: bool)
    requires chain.Valid()
    requires store.rows == map[] || (Shaped(t0) && Extends(t0, chain.View()) && store.rows == RowsOf(t0))
    modifies store
    ensures !raised && again.Valid() && again.rules == chain.rules
    ensures forall h :: h in again.blocks <==> h in chain.blocks && OnTime(chain.branches[h], now)
    ensures forall h :: h in again.blocks ==>
              again.blocks[h] == chain.blocks[h] && again.branches[h] == chain.branches[h]
    ensures again.View() == chain.View() <==> ClockKept(chain.View(), now)
    ensures ClockKept(chain.View(), now) ==>
              again.orphans == map[] && again.chainwork[again.tip] == chain.chainwork[chain.tip]
  {
    ghost var t, tip := chain.View(), chain.tip;
    SavedRows(store.rows, t0, t);
    var saved := SaveChain(chain, store);
    RowsAreKeyed(chain.rules, t);
    SavedNeverRaises(chain.rules, now, t);
    again, raised := LoadChain(store, chain.rules, now);
    ghost var t1, p1 := again.View(), again.orphans;
    SavedComesBack(chain.rules, now, t, tip, t1, p1, again.tip);
    forall h
      ensures h in t1.blocks <==> h in t.blocks && OnTime(t.branches[h], now)
      ensures h in t1.blocks ==> t1.blocks[h] == t.blocks[h] && t1.branches[h] == t.branches[h]
    {
      ReloadedExactly(chain.rules, now, t, t1, p1, h);
    }
  }
}
