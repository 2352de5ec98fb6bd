/** What a Merkle branch proves (merkle.py): which texts and digests have an accepted branch. */
module Membership {
  import opened Ledger
  import opened Results
  import opened Merkle

  // ----- branches that are built ------------------------------------------------ //

  /** Node `index` and its sibling hash like pair `i`. */
  lemma {:induction false} SiblingHash(level: seq<Digest>, index: nat, i: nat)
    requires index < |level| && |level| > 1 && i == index / 2
    ensures i < |PairHashes(level)| && Sibling(level, index).side != Unknown
    ensures Combine(TextOf(level[index]), Sibling(level, index)) == PairHashes(level)[i]
  {
    if index % 2 == 0 {
      assert index == 2 * i && Sibling(level, index) == Step(TextOf(level[Clip(2 * i + 1, |level|)]), Right);
    } else {
      assert index == 2 * i + 1 && Sibling(level, index) == Step(TextOf(level[2 * i]), Left);
    }
  }

  /** One step of a branch, then the rest. */
  lemma {:induction false} StepThenClimb(txid: Text, step: Step, branch: seq<Step>, parent: Digest, root: Digest)
    requires step.side != Unknown && Combine(txid, step) == Some(parent) && Accepts(TextOf(parent), branch, root)
    ensures Accepts(txid, [step] + branch, root)
  {
    assert ([step] + branch)[1..] == branch;
  }

  lemma {:induction false} DigestBranchAccepted(level: seq<Digest>, index: nat)
    requires index < |level| && Digests(level)
    ensures Accepts(TextOf(level[index]), Branch(level, index), Root(level))
    ensures |Branch(level, index)| == TreeHeight(|level|)
    decreases |level|
  {
    if |level| > 1 {
      var i := index / 2;
      UpIsDigests(level);
      DigestBranchAccepted(Up(level), i);
      SiblingHash(level, index, i);
      DigestPairHash(level, i);
      StepThenClimb(TextOf(level[index]), Sibling(level, index), Branch(Up(level), i), Up(level)[i], Root(Up(level)));
    }
  }

  /** Every branch the full node builds is accepted, and is as long as the tree is high. */
  lemma {:induction false} BuiltBranchAccepted(txids: seq<Digest>, index: nat)
    requires ProofOf(txids, index).Some?
    ensures RootOf(txids).Some? && Accepts(TextOf(txids[index]), ProofOf(txids, index).value, RootOf(txids).value)
    ensures |ProofOf(txids, index).value| == TreeHeight(|txids|)
  {
    if |txids| > 1 {
      var level, i := Parents(txids).value, index / 2;
      var step := Sibling(txids, index);
      ParentsAreDigests(txids);
      DigestBranchAccepted(level, i);
      ParentAt(txids, index, i);
      StepThenClimb(TextOf(txids[index]), step, Branch(level, i), level[i], Root(level));
    }
  }

  lemma {:induction false} ParentAt(txids: seq<Digest>, index: nat, i: nat)
    requires Parents(txids).Some? && index < |txids| && |txids| > 1 && i == index / 2
    ensures Sibling(txids, index).side != Unknown
    ensures Combine(TextOf(txids[index]), Sibling(txids, index)) == Some(Parents(txids).value[i])
  {
    SiblingHash(txids, index, i);
    AllSomeAt(PairHashes(txids), i);
  }

  // ----- texts of any length, branches of full length --------------------------------- //

  /** The text spells 32 bytes, those of a digest in the list. */
  predicate Spells(txid: Text, level: seq<Digest>) {
    exists i :: 0 <= i < |level| && FromHex(txid) == Some(TextOf(level[i]))
  }

  /** A branch as long as the tree is high, accepted for 32 bytes against the root, proves membership. */
  lemma {:induction false} AcceptedIsMember(txid: Text, branch: seq<Step>, level: seq<Digest>)
    requires |level| > 0 && Digests(level) && |branch| == TreeHeight(|level|)
    requires FromHex(txid).Some? && |FromHex(txid).value| == 64
    requires Accepts(txid, branch, Root(level))
    ensures Spells(txid, level)
    decreases |level|
  {
    if |level| == 1 {
      DigestSpells(level[0]);
    } else {
      var left, right := FirstHash(txid, branch, level);
      CombinedLengths(txid, branch[0], left, right);
    }
  }

  /** The first hash of such a branch, for a text of any length, is that of a pair of neighbours. */
  lemma {:induction false} FirstHash(txid: Text, branch: seq<Step>, level: seq<Digest>)
    returns (left: Digest, right: Digest)
    requires |level| > 1 && Digests(level) && |branch| == TreeHeight(|level|)
    requires Accepts(txid, branch, Root(level))
    ensures branch[0].side != Unknown && left in level && right in level
    ensures Combine(txid, branch[0]) == Some(Node(left, right))
    decreases |level|, 0
  {
    var parent := Combine(txid, branch[0]).value;
    UpIsDigests(level);
    HashIsDigest(txid, branch[0].sibling);
    HashIsDigest(branch[0].sibling, txid);
    DigestSpells(parent);
    AcceptedIsMember(TextOf(parent), branch[1..], Up(level));
    var i :| 0 <= i < |Up(level)| && FromHex(TextOf(parent)) == Some(TextOf(Up(level)[i]));
    SameText(parent, Up(level)[i]);
    left, right := level[2 * i], level[Clip(2 * i + 1, |level|)];
  }

  lemma {:induction false} CombinedLengths(txid: Text, step: Step, left: Digest, right: Digest)
    requires step.side != Unknown && Combine(txid, step) == Some(Node(left, right))
    ensures FromHex(txid).Some? && |FromHex(txid).value| <= 128
    ensures |FromHex(txid).value| == 64 ==> FromHex(txid).value == TextOf(if step.side == Right then left else right)
  {
    var x, y := FromHex(txid).value, FromHex(step.sibling).value;
    NodeBytes(if step.side == Right then x + y else y + x, left, right);
    DigestSpells(left);
    DigestSpells(right);
    if step.side == Right {
      Halves(x, y, TextOf(left), TextOf(right));
    } else {
      Halves(y, x, TextOf(left), TextOf(right));
    }
  }

  lemma {:induction false} Halves(x: Text, y: Text, left: Text, right: Text)
    requires x + y == left + right && |left| == |right| == 64
    ensures |x| + |y| == 128
    ensures |x| == 64 ==> x == left && y == right
  {
    assert |x + y| == |left + right|;
    if |x| == 64 { SplitAt64(x, y, left, right); }
  }

  /** A text of `n` bytes that a branch of the right length proves into a list it is not in. */
  ghost predicate Passes(txid: Text, branch: seq<Step>, level: seq<Digest>, n: nat)
    requires |level| > 0
  {
    && |branch| == TreeHeight(|level|) && Accepts(txid, branch, Root(level))
    && FromHex(txid).Some? && |FromHex(txid).value| == 2 * n && !Spells(txid, level)
  }

  /**
   * Nothing checks that an operand has 32 bytes. Where a list has more than one id, the texts of other lengths
   * that pass for members are those of up to 64 bytes.
   */
  lemma {:induction false} OtherLengthsPass(level: seq<Digest>, n: nat)
    requires |level| > 1 && Digests(level)
    ensures (exists txid, branch :: Passes(txid, branch, level, n)) <==> n <= 64 && n != 32
  {
    forall txid, branch | Passes(txid, branch, level, n) ensures n <= 64 && n != 32 {
      var left, right := FirstHash(txid, branch, level);
      CombinedLengths(txid, branch[0], left, right);
      if n == 32 { AcceptedIsMember(txid, branch, level); }
    }
    if n <= 64 && n != 32 {
      CutPasses(level, n);
    }
  }

  /** The first two ids in one text, cut elsewhere than in the middle. */
  lemma {:induction false} CutPasses(level: seq<Digest>, n: nat)
    requires |level| > 1 && Digests(level) && n <= 64 && n != 32
    ensures exists txid, branch :: Passes(txid, branch, level, n)
  {
    CutSpells(level[0], level[1], 2 * n);
    var both := TextOf(level[0]) + TextOf(level[1]);
    var step := Step(both[2 * n..], Right);
    UpIsDigests(level);
    DigestBranchAccepted(Up(level), 0);
    StepThenClimb(both[..2 * n], step, Branch(Up(level), 0), Up(level)[0], Root(level));
    NotSpelled(both[..2 * n], level, n);
    assert Passes(both[..2 * n], [step] + Branch(Up(level), 0), level, n);
  }

  lemma {:induction false} CutSpells(left: Digest, right: Digest, n: nat)
    requires !left.Raw? && !right.Raw? && n <= 128 && n % 2 == 0
    ensures |TextOf(left) + TextOf(right)| == 128
    ensures var both := TextOf(left) + TextOf(right);
            && FromHex(both[..n]) == Some(both[..n]) && FromHex(both[n..]) == Some(both[n..])
            && HashPair(both[..n], both[n..]) == Some(Node(left, right))
  {
    var both := TextOf(left) + TextOf(right);
    assert AllDigits(both);
    DigitsSpell(both[..n]);
    DigitsSpell(both[n..]);
    assert both[..n] + both[n..] == both;
    DigestsHash(left, right);
  }

  lemma {:induction false} NotSpelled(txid: Text, level: seq<Digest>, n: nat)
    requires Digests(level) && n != 32 && FromHex(txid).Some? && |FromHex(txid).value| == 2 * n
    ensures !Spells(txid, level)
  {
    forall i | 0 <= i < |level| ensures FromHex(txid) != Some(TextOf(level[i])) {
      DigestSpells(level[i]);
    }
  }

  // ----- digests and branches of any length ----------------------------------- //

  /** The nodes `m` levels above a list. */
  function LevelOver(s: seq<Digest>, m: nat): (level: seq<Digest>)
    ensures |s| > 0 ==> |level| > 0
    decreases m
  {
    if m == 0 then s else LevelOver(Up(s), m - 1)
  }

  lemma {:induction false} NextLevelOver(s: seq<Digest>, m: nat)
    ensures LevelOver(s, m + 1) == Up(LevelOver(s, m))
    decreases m
  {
    if m > 0 { NextLevelOver(Up(s), m - 1); }
  }

  lemma {:induction false} LevelIsDigests(s: seq<Digest>, m: nat)
    requires Digests(s)
    ensures Digests(LevelOver(s, m))
  {
    if m > 0 {
      NextLevelOver(s, m - 1);
      UpIsDigests(LevelOver(s, m - 1));
    }
  }

  /** Above the ids there are only nodes. */
  lemma {:induction false} InnerIsNode(s: seq<Digest>, m: nat, d: Digest)
    requires m > 0 && d in LevelOver(s, m)
    ensures d.Node?
  {
    NextLevelOver(s, m - 1);
  }

  /** Every level has the root of the whole tree. */
  lemma {:induction false} LevelKeepsRoot(s: seq<Digest>, m: nat)
    requires |s| > 0 && m <= TreeHeight(|s|)
    ensures Root(LevelOver(s, m)) == Root(s)
    decreases m
  {
    if m > 0 {
      LevelKeepsRoot(Up(s), m - 1);
      assert Root(s) == Root(Up(s)) && LevelOver(s, m) == LevelOver(Up(s), m - 1);
    }
  }

  /** It has the rest of the height. */
  lemma {:induction false} LevelHeight(s: seq<Digest>, m: nat)
    requires |s| > 0 && m <= TreeHeight(|s|)
    ensures TreeHeight(|LevelOver(s, m)|) == TreeHeight(|s|) - m
    decreases m
  {
    if m > 0 { LevelHeight(Up(s), m - 1); }
  }

  lemma {:induction false} TopLevel(s: seq<Digest>)
    requires |s| > 0
    ensures Root(s) in LevelOver(s, TreeHeight(|s|))
  {
    var top := LevelOver(s, TreeHeight(|s|));
    LevelKeepsRoot(s, TreeHeight(|s|));
    LevelHeight(s, TreeHeight(|s|));
    assert |top| == 1 && top[0] == Root(s);
  }

  /** What hashes, with a sibling, to a node stands right below it. */
  lemma {:induction false} StandsBelow(level: seq<Digest>, d: Digest, step: Step, parent: Digest)
    requires !d.Raw? && step.side != Unknown
    requires Combine(TextOf(d), step) == Some(parent) && parent in Up(level)
    ensures d in level
  {
    var i :| 0 <= i < |Up(level)| && Up(level)[i] == parent;
    var left, right := level[2 * i], level[Clip(2 * i + 1, |level|)];
    DigestSpells(d);
    CombinedLengths(TextOf(d), step, left, right);
    HashedFrom(TextOf(d), step, left, right);
    SameText(d, if step.side == Right then left else right);
  }

  lemma {:induction false} HashedFrom(txid: Text, step: Step, left: Digest, right: Digest)
    requires Combine(txid, step) == Some(Node(left, right))
    ensures !left.Raw? && !right.Raw?
  {
    var x, y := FromHex(txid).value, FromHex(step.sibling).value;
    NodeBytes(if step.side == Right then x + y else y + x, left, right);
  }

  lemma {:induction false} FirstParent(d: Digest, branch: seq<Step>, e: Digest) returns (parent: Digest)
    requires |branch| > 0 && Climb(TextOf(d), branch) == Reached(TextOf(e))
    ensures branch[0].side != Unknown && Combine(TextOf(d), branch[0]) == Some(parent) && !parent.Raw? && !parent.TxId?
    ensures Climb(TextOf(parent), branch[1..]) == Reached(TextOf(e))
  {
    parent := Combine(TextOf(d), branch[0]).value;
    HashIsDigest(TextOf(d), branch[0].sibling);
    HashIsDigest(branch[0].sibling, TextOf(d));
  }

  lemma {:induction false} OneBelow(s: seq<Digest>, d: Digest, step: Step, parent: Digest, k: nat)
    requires Leaves(s) && !d.Raw? && step.side != Unknown && Combine(TextOf(d), step) == Some(parent)
    requires !parent.TxId? && parent in LevelOver(s, k)
    ensures k > 0 && d in LevelOver(s, k - 1)
  {
    if k > 0 {
      NextLevelOver(s, k - 1);
      StandsBelow(LevelOver(s, k - 1), d, step, parent);
    }
  }

  /** A branch goes up one level a step: what climbs to a node `m` levels up started that many steps below it. */
  lemma {:induction false} StartsBelow(s: seq<Digest>, d: Digest, branch: seq<Step>, e: Digest, m: nat)
    requires Leaves(s) && !d.Raw? && Climb(TextOf(d), branch) == Reached(TextOf(e)) && e in LevelOver(s, m)
    ensures |branch| <= m && d in LevelOver(s, m - |branch|)
    decreases |branch|
  {
    if |branch| == 0 {
      LevelIsDigests(s, m);
      SameText(d, e);
    } else {
      var parent := FirstParent(d, branch, e);
      StartsBelow(s, parent, branch[1..], e, m);
      OneBelow(s, d, branch[0], parent, m - (|branch| - 1));
    }
  }

  /** A digest has an accepted branch of length `n` exactly when it is a node of the tree `n` levels below the root. */
  lemma {:induction false} ProvableExactly(s: seq<Digest>, d: Digest, n: nat)
    requires |s| > 0 && Leaves(s) && !d.Raw?
    ensures (exists branch :: |branch| == n && Accepts(TextOf(d), branch, Root(s)))
            <==> n <= TreeHeight(|s|) && d in LevelOver(s, TreeHeight(|s|) - n)
  {
    forall branch | |branch| == n && Accepts(TextOf(d), branch, Root(s))
      ensures n <= TreeHeight(|s|) && d in LevelOver(s, TreeHeight(|s|) - n)
    {
      AcceptedStartsBelow(s, d, branch);
    }
    if n <= TreeHeight(|s|) && d in LevelOver(s, TreeHeight(|s|) - n) {
      var branch := BranchFrom(s, d, TreeHeight(|s|) - n);
    }
  }

  lemma {:induction false} AcceptedStartsBelow(s: seq<Digest>, d: Digest, branch: seq<Step>)
    requires |s| > 0 && Leaves(s) && !d.Raw? && Accepts(TextOf(d), branch, Root(s))
    ensures |branch| <= TreeHeight(|s|) && d in LevelOver(s, TreeHeight(|s|) - |branch|)
  {
    TopLevel(s);
    StartsBelow(s, d, branch, Root(s), TreeHeight(|s|));
  }

  lemma {:induction false} BranchFrom(s: seq<Digest>, d: Digest, m: nat) returns (branch: seq<Step>)
    requires |s| > 0 && Leaves(s) && m <= TreeHeight(|s|) && d in LevelOver(s, m)
    ensures |branch| == TreeHeight(|s|) - m && Accepts(TextOf(d), branch, Root(s))
  {
    var level := LevelOver(s, m);
    var i :| 0 <= i < |level| && level[i] == d;
    LevelIsDigests(s, m);
    LevelKeepsRoot(s, m);
    LevelHeight(s, m);
    DigestBranchAccepted(level, i);
    branch := Branch(level, i);
  }

  /**
   * For the id of a transaction, an accepted branch of any length proves membership, and has the height of the tree.
   */
  lemma {:induction false} AcceptedIdIsMember(s: seq<Digest>, txid: Digest, branch: seq<Step>)
    requires |s| > 0 && Leaves(s) && txid.TxId? && Accepts(TextOf(txid), branch, Root(s))
    ensures txid in s && |branch| == TreeHeight(|s|)
  {
    AcceptedStartsBelow(s, txid, branch);
    if |branch| < TreeHeight(|s|) { InnerIsNode(s, TreeHeight(|s|) - |branch|, txid); }
  }
}
