/** The header-only client and the proofs a full node hands it (spv.py). */
module Spv {
  import opened Ledger
  import opened Results
  import opened Chain
  import opened Tree
  import opened NodeChain
  import Merkle
  import Membership

  datatype Bundle = Bundle(txid: Text, blockHash: Digest, proof: seq<Merkle.Step>)

  function HeadersOf(s: seq<Block>): seq<Header> {
    seq(|s|, i requires 0 <= i < |s| => s[i].header)
  }

  class SPVClient {
    var headers: seq<Header>
    var indexByHash: map<Digest, nat>

    /** Headers are chained, genesis first, and the index points at the last header of each hash. */
    ghost predicate Valid()
      reads this
    {
      && |headers| > 0
      && headers[0] == GENESIS.header
      && (forall i :: 0 < i < |headers| ==> headers[i].prevHash == HeaderHash(headers[i - 1]))
      && (forall h :: h in indexByHash <==> exists i :: 0 <= i < |headers| && HeaderHash(headers[i]) == h)
      && (forall h :: h in indexByHash ==> indexByHash[h] < |headers| && HeaderHash(headers[indexByHash[h]]) == h)
    }

    constructor ()
      ensures Valid() && headers == [GENESIS.header]
    {
      headers := [GENESIS.header];
      indexByHash := map[HeaderHash(GENESIS.header) := 0];
      new;
      assert HeaderHash(headers[0]) in indexByHash;
    }

    method AddHeader(header: Header) returns (ok: bool)
      requires Valid()
      modifies this
      ensures Valid()
      ensures ok <==> header.prevHash == HeaderHash(old(headers)[|old(headers)| - 1])
      ensures headers == if ok then old(headers) + [header] else old(headers)
    {
      if header.prevHash != HeaderHash(headers[|headers| - 1]) { return false; }
      ghost var before, index := headers, indexByHash;
      headers := headers + [header];
      indexByHash := indexByHash[HeaderHash(header) := |headers| - 1];
      forall h ensures h in indexByHash <==> exists i :: 0 <= i < |headers| && HeaderHash(headers[i]) == h {
        IndexGrows(before, index, header, h);
      }
      ok := true;
    }

    function HeaderByHash(h: Digest): Option<Header>
      requires Valid()
      reads this
    {
      if h in indexByHash then Some(headers[indexByHash[h]]) else None
    }

    /** Headers from the block to the tip inclusive, 0 for a block not on the chain. */
    function Confirmations(h: Digest): nat
      requires Valid()
      reads this
    {
      if h in indexByHash then |headers| - indexByHash[h] else 0
    }

    /** The block is known, and its header commits to the transaction. */
    predicate Proves(bundle: Bundle)
      requires Valid()
      reads this
    {
      var header := HeaderByHash(bundle.blockHash);
      header.Some? && Merkle.Accepts(bundle.txid, bundle.proof, header.value.merkleRoot)
    }

    /** The block is known, and the branch has an operand that is not hex. */
    predicate Unreadable(bundle: Bundle)
      requires Valid()
      reads this
    {
      HeaderByHash(bundle.blockHash).Some? && Merkle.Climb(bundle.txid, bundle.proof) == Merkle.NotHex
    }

    /** verify_payment; None is the ValueError for an operand that is not hex. */
    method VerifyPayment(bundle: Bundle) returns (ok: Option<bool>)
      requires Valid()
      ensures ok == if Unreadable(bundle) then None else Some(Proves(bundle))
    {
      var header := HeaderByHash(bundle.blockHash);
      if header.None? { return Some(false); }
      ok := Merkle.VerifyMerkleProof(bundle.txid, bundle.proof, Merkle.TextOf(header.value.merkleRoot));
    }

    method VerifyPaymentWithConfirmations(bundle: Bundle, minConfirmations: int) returns (ok: Option<bool>)
      requires Valid()
      ensures ok == if Unreadable(bundle) then None
                    else Some(Proves(bundle) && Confirmations(bundle.blockHash) >= minConfirmations)
    {
      ok := VerifyPayment(bundle);
      if ok == Some(true) { ok := Some(Confirmations(bundle.blockHash) >= minConfirmations); }
    }
  }

  lemma IndexGrows(headers: seq<Header>, index: map<Digest, nat>, header: Header, h: Digest)
    requires h in index <==> exists i :: 0 <= i < |headers| && HeaderHash(headers[i]) == h
    ensures h in index[HeaderHash(header) := |headers|] <==>
              exists i :: 0 <= i < |headers + [header]| && HeaderHash((headers + [header])[i]) == h
  {
    var more := headers + [header];
    if h == HeaderHash(header) {
      assert HeaderHash(more[|headers|]) == h;
    } else if h in index {
      var i :| 0 <= i < |headers| && HeaderHash(headers[i]) == h;
      assert HeaderHash(more[i]) == h;
    }
  }

  lemma {:induction false} BranchProves(txids: seq<Digest>, i: nat)
    requires i < |txids| && Merkle.Digests(txids)
    ensures var proof := Merkle.ProofOf(txids, i);
            && proof.Some? && Merkle.Accepts(Merkle.TextOf(txids[i]), proof.value, Merkle.Root(txids))
            && |proof.value| == Merkle.TreeHeight(|txids|)
  {
    Merkle.DigestsAreSimple(txids);
    Membership.DigestBranchAccepted(txids, i);
  }

  /** build_proof_bundle; None is the ValueError for a transaction that is not in the block. */
  method BuildProofBundle(block: Block, txid: Text) returns (bundle: Option<Bundle>)
    ensures bundle.None? <==> forall d :: d in TxIds(block.transactions) ==> Merkle.TextOf(d) != txid
    ensures bundle.Some? ==>
              && bundle.value.txid == txid && bundle.value.blockHash == HashOf(block)
              && |block.transactions| > 0
              && Merkle.Accepts(txid, bundle.value.proof, Merkle.Root(TxIds(block.transactions)))
              && |bundle.value.proof| == Merkle.TreeHeight(|block.transactions|)
  {
    var txids := TxIds(block.transactions);
    for i := 0 to |txids|
      invariant forall j :: 0 <= j < i ==> Merkle.TextOf(txids[j]) != txid
    {
      if Merkle.TextOf(txids[i]) == txid {
        var proof := Merkle.MerkleProof(txids, i);
        BranchProves(txids, i);
        return Some(Bundle(txid, HashOf(block), proof.value));
      }
    }
    bundle := None;
  }

  // ----- a client that follows a full node ---------------------------------------------- //

  /** Every header of a valid branch is accepted in order, and the client ends with exactly these headers. */
  method FollowBranch(client: SPVClient, rules: Rules, s: seq<Block>) returns (allAccepted: bool)
    requires client.Valid() && client.headers == [GENESIS.header] && ValidBranch(rules, s)
    modifies client
    ensures client.Valid() && allAccepted && client.headers == HeadersOf(s)
  {
    allAccepted := true;
    FirstHeader(rules, s);
    for i := 1 to |s|
      invariant client.Valid() && allAccepted && client.headers == HeadersOf(s)[..i]
    {
      NextHeader(rules, s, i);
      var ok := client.AddHeader(s[i].header);
      allAccepted := allAccepted && ok;
    }
    assert HeadersOf(s)[..|s|] == HeadersOf(s);
  }

  lemma {:induction false} FirstHeader(rules: Rules, s: seq<Block>)
    requires ValidBranch(rules, s)
    ensures HeadersOf(s)[..1] == [GENESIS.header]
  {
    Linked(rules, s, 0);
  }

  lemma {:induction false} NextHeader(rules: Rules, s: seq<Block>, i: nat)
    requires ValidBranch(rules, s) && 0 < i < |s|
    ensures HeadersOf(s)[..i + 1] == HeadersOf(s)[..i] + [s[i].header]
    ensures s[i].header.prevHash == HeaderHash(HeadersOf(s)[..i][i - 1])
  {
    Linked(rules, s, i);
    HeaderPrefix(s, i);
  }

  lemma {:induction false} HeaderPrefix(s: seq<Block>, i: nat)
    requires 0 < i < |s|
    ensures HeadersOf(s)[..i + 1] == HeadersOf(s)[..i] + [s[i].header] && HeadersOf(s)[..i][i - 1] == s[i - 1].header
  {
  }

  /** Such a client finds block `i` of the branch at index `i`, with |s| - i confirmations. */
  lemma {:induction false} IndexIsExact(client: SPVClient, rules: Rules, s: seq<Block>, i: nat)
    requires client.Valid() && ValidBranch(rules, s) && client.headers == HeadersOf(s) && i < |s|
    ensures HashOf(s[i]) in client.indexByHash && client.indexByHash[HashOf(s[i])] == i
    ensures client.HeaderByHash(HashOf(s[i])) == Some(s[i].header)
    ensures client.Confirmations(HashOf(s[i])) == |s| - i
    ensures forall h :: h in client.indexByHash <==> exists j :: 0 <= j < |s| && HashOf(s[j]) == h
  {
    HashesDistinct(rules, s);
    assert HeaderHash(client.headers[i]) == HashOf(s[i]);
    var j := client.indexByHash[HashOf(s[i])];
    assert HashOf(s[j]) == HashOf(s[i]);
    forall h ensures h in client.indexByHash <==> exists j :: 0 <= j < |s| && HashOf(s[j]) == h {
      SameHashes(client, s, h);
    }
  }

  lemma SameHashes(client: SPVClient, s: seq<Block>, h: Digest)
    requires client.Valid() && client.headers == HeadersOf(s)
    ensures h in client.indexByHash <==> exists j :: 0 <= j < |s| && HashOf(s[j]) == h
  {
    if h in client.indexByHash {
      assert HashOf(s[client.indexByHash[h]]) == h;
    } else {
      forall j | 0 <= j < |s| ensures HashOf(s[j]) != h {
        assert HeaderHash(client.headers[j]) == HashOf(s[j]);
      }
    }
  }

  /**
   * A client that followed a node's active chain accepts the node's proof for every transaction of every
   * block on it, with height - block height + 1 confirmations.
   */
  method ProvePayment(chain: Blockchain, client: SPVClient, i: nat, txid: Digest, minConfirmations: int)
    returns (bundle: Option<Bundle>, ok: Option<bool>)
    requires chain.Valid() && client.Valid()
    requires var s := chain.branches[chain.tip];
             client.headers == HeadersOf(s) && i < |s| && txid in TxIds(s[i].transactions)
    ensures bundle.Some? && bundle.value.txid == Merkle.TextOf(txid)
    ensures bundle.value.blockHash == HashOf(chain.branches[chain.tip][i])
    ensures ok == Some(chain.heights[chain.tip] - i + 1 >= minConfirmations)
  {
    ghost var s := chain.branches[chain.tip];
    StoredBlock(chain.rules, chain.View(), chain.tip);
    PathsOk(chain.rules, chain.View(), chain.tip);
    IndexIsExact(client, chain.rules, s, i);
    RootCommits(chain.rules, s, i);
    assert StepOk(chain.View(), s, i);
    var hashes := chain.ActiveChain();
    var block := chain.blocks[hashes[i]];
    bundle := BuildProofBundle(block, Merkle.TextOf(txid));
    ok := client.VerifyPaymentWithConfirmations(bundle.value, minConfirmations);
  }

  /** The header of every block on a valid branch commits to its transactions. */
  lemma {:induction false} RootCommits(rules: Rules, s: seq<Block>, i: nat)
    requires ValidBranch(rules, s) && i < |s|
    ensures |s[i].transactions| > 0 && s[i].header.merkleRoot == Merkle.Root(TxIds(s[i].transactions))
  {
    ValidPrefix(rules, s, i + 1);
    assert Last(s[..i + 1]) == s[i];
    if i == 0 {
      assert TxIds(GENESIS.transactions) == [TxId(GENESIS.transactions[0])];
    }
  }

  /**
   * The converse: a branch as long as the block's tree is high, accepted against its header for a text of 32 bytes,
   * proves that these bytes are the id of a transaction of the block.
   */
  lemma {:induction false} AcceptedPaymentIsInBlock(rules: Rules, s: seq<Block>, i: nat, txid: Text,
                                                    proof: seq<Merkle.Step>)
    requires ValidBranch(rules, s) && i < |s|
    requires |proof| == Merkle.TreeHeight(|s[i].transactions|) && Merkle.Accepts(txid, proof, s[i].header.merkleRoot)
    requires Merkle.FromHex(txid).Some? && |Merkle.FromHex(txid).value| == 64
    ensures Membership.Spells(txid, TxIds(s[i].transactions))
  {
    RootCommits(rules, s, i);
    Membership.AcceptedIsMember(txid, proof, TxIds(s[i].transactions));
  }

  /**
   * A text of `n` bytes that names no transaction of the block, and a branch of full length that the header accepts.
   */
  ghost predicate PassesAgainst(txid: Text, proof: seq<Merkle.Step>, b: Block, n: nat) {
    && |proof| == Merkle.TreeHeight(|b.transactions|) && Merkle.Accepts(txid, proof, b.header.merkleRoot)
    && Merkle.FromHex(txid).Some? && |Merkle.FromHex(txid).value| == 2 * n
    && !Membership.Spells(txid, TxIds(b.transactions))
  }

  /**
   * The length matters: in a block of two or more transactions, texts of 0 to 31 and 33 to 64 bytes pass too, and no
   * others.
   */
  lemma {:induction false} OtherLengthsPass(rules: Rules, s: seq<Block>, i: nat, n: nat)
    requires ValidBranch(rules, s) && i < |s| && |s[i].transactions| > 1
    ensures (exists txid, proof :: PassesAgainst(txid, proof, s[i], n)) <==> n <= 64 && n != 32
  {
    RootCommits(rules, s, i);
    var ids := TxIds(s[i].transactions);
    Membership.OtherLengthsPass(ids, n);
    if txid, proof :| PassesAgainst(txid, proof, s[i], n) {
      assert Membership.Passes(txid, proof, ids, n);
    }
    if txid, proof :| Membership.Passes(txid, proof, ids, n) {
      assert PassesAgainst(txid, proof, s[i], n);
    }
  }

  /**
   * For the id of a transaction the length of the branch need not be known: one is accepted exactly for the block's own
   * ids.
   */
  lemma {:induction false} IdProvableExactly(rules: Rules, s: seq<Block>, i: nat, txid: Digest)
    requires ValidBranch(rules, s) && i < |s| && txid.TxId?
    ensures (exists proof :: Merkle.Accepts(Merkle.TextOf(txid), proof, s[i].header.merkleRoot))
            <==> txid in TxIds(s[i].transactions)
  {
    RootCommits(rules, s, i);
    var ids := TxIds(s[i].transactions);
    forall proof | Merkle.Accepts(Merkle.TextOf(txid), proof, s[i].header.merkleRoot) ensures txid in ids {
      Membership.AcceptedIdIsMember(ids, txid, proof);
    }
    if txid in ids {
      var k :| 0 <= k < |ids| && ids[k] == txid;
      Membership.DigestBranchAccepted(ids, k);
    }
  }
}
