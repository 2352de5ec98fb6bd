/** The Merkle commitment of a block (merkle.py): root, branch, and branch check. */
module Merkle {
  import opened Ledger
  import opened Results

  datatype Side = Left | Right | Unknown

  /** One sibling of a branch, and where it stands. */
  datatype Step = Step(sibling: Text, side: Side)

  // ----- texts and the bytes they spell ------------------------------------ //

  function TextOf(d: Digest): Text {
    if d.Raw? then seq(|d.text|, i requires 0 <= i < |d.text| => Plain(d.text[i]))
    else seq(64, k requires 0 <= k < 64 => DigitOf(d, k))
  }

  predicate IsSpace(s: Symbol) {
    s.Plain? && (s.c == ' ' || 9 <= s.c as int <= 13)
  }

  /** A hex digit, in lower case. */
  function HexDigit(s: Symbol): Option<Symbol> {
    if s.DigitOf? || '0' <= s.c <= '9' || 'a' <= s.c <= 'f' then Some(s)
    else if 'A' <= s.c <= 'F' then Some(Plain((s.c as int + 32) as char))
    else None
  }

  /** The digits of the bytes spelled from `at` on. Blanks may stand between bytes. */
  function HexFrom(t: Text, at: nat): Option<Text>
    decreases |t| - at
  {
    if at >= |t| then Some([])
    else if IsSpace(t[at]) then HexFrom(t, at + 1)
    else if at + 1 == |t| || HexDigit(t[at]).None? || HexDigit(t[at + 1]).None? || HexFrom(t, at + 2).None? then None
    else Some([HexDigit(t[at]).value, HexDigit(t[at + 1]).value] + HexFrom(t, at + 2).value)
  }

  /** bytes.fromhex: the digits of the bytes in lower case, None for the ValueError. */
  function FromHex(t: Text): Option<Text> {
    HexFrom(t, 0)
  }

  /** The bytes are those of two digests, one after the other. */
  predicate IsPairText(t: Text) {
    && |t| == 128 && t[0].DigitOf? && t[64].DigitOf? && !t[0].digest.Raw? && !t[64].digest.Raw?
    && t == TextOf(t[0].digest) + TextOf(t[64].digest)
  }

  function HashBytes(t: Text): Digest {
    if IsPairText(t) then Node(t[0].digest, t[64].digest) else Mixed(t)
  }

  /** _hash_pair on operands of any length. */
  function HashPair(left: Text, right: Text): Option<Digest> {
    if FromHex(left).None? || FromHex(right).None? then None
    else Some(HashBytes(FromHex(left).value + FromHex(right).value))
  }

  /** All entries are digests, 32 bytes each. */
  predicate Digests(level: seq<Digest>) {
    forall i :: 0 <= i < |level| ==> !level[i].Raw?
  }

  /** All entries are ids of transactions: inner nodes are never mistaken for leaves. */
  predicate Leaves(s: seq<Digest>) {
    forall i :: 0 <= i < |s| ==> s[i].TxId?
  }

  predicate AllDigits(t: Text) {
    forall i :: 0 <= i < |t| ==> t[i].DigitOf?
  }

  /** Digits of digests, an even number of them, spell themselves. */
  lemma {:induction false} DigitsSpell(t: Text)
    requires AllDigits(t) && |t| % 2 == 0
    ensures FromHex(t) == Some(t)
  {
    DigitsSpellFrom(t, 0);
    assert t[0..] == t && HexFrom(t, 0) == Some(t);
  }

  lemma {:induction false} DigitsSpellFrom(t: Text, at: nat)
    requires AllDigits(t) && at <= |t| && (|t| - at) % 2 == 0
    ensures HexFrom(t, at) == Some(t[at..])
    decreases |t| - at
  {
    if at < |t| {
      DigitsSpellFrom(t, at + 2);
      assert at + 1 < |t| && HexDigit(t[at]) == Some(t[at]) && HexDigit(t[at + 1]) == Some(t[at + 1]);
      assert t[at..] == [t[at], t[at + 1]] + t[at + 2..];
    } else {
      assert t[at..] == [];
    }
  }

  lemma {:induction false} DigestSpells(d: Digest)
    requires !d.Raw?
    ensures |TextOf(d)| == 64 && FromHex(TextOf(d)) == Some(TextOf(d))
  {
    DigitsSpell(TextOf(d));
  }

  lemma {:induction false} SameText(d: Digest, e: Digest)
    requires TextOf(d) == TextOf(e) && !d.Raw? && !e.Raw?
    ensures d == e
  {
    assert TextOf(d)[0] == DigitOf(d, 0) && TextOf(e)[0] == DigitOf(e, 0);
  }

  lemma {:induction false} SplitAt64(a: Text, b: Text, c: Text, d: Text)
    requires a + b == c + d && |a| == |c|
    ensures a == c && b == d
  {
    assert a == (a + b)[..|a|] && c == (c + d)[..|c|];
    assert b == (a + b)[|a|..] && d == (c + d)[|c|..];
  }

  /** Two digests hash to their node. */
  lemma {:induction false} DigestsHash(left: Digest, right: Digest)
    requires !left.Raw? && !right.Raw?
    ensures HashBytes(TextOf(left) + TextOf(right)) == Node(left, right)
    ensures HashPair(TextOf(left), TextOf(right)) == Some(Node(left, right))
  {
    DigestSpells(left);
    DigestSpells(right);
    var t := TextOf(left) + TextOf(right);
    assert t[0] == DigitOf(left, 0) && t[64] == DigitOf(right, 0);
  }

  /** Only the bytes of two digests hash to their node. */
  lemma {:induction false} NodeBytes(t: Text, left: Digest, right: Digest)
    requires HashBytes(t) == Node(left, right)
    ensures !left.Raw? && !right.Raw? && t == TextOf(left) + TextOf(right)
  {
  }

  // ----- the tree and its branches ------------------------------------------ //

  /** The place of entry `i` in a level of `n`: an odd level is padded with its last entry. */
  function Clip(i: nat, n: nat): nat
    requires n > 0
  {
    if i < n then i else n - 1
  }

  /** The next level over digests. */
  function Up(level: seq<Digest>): (parents: seq<Digest>)
    ensures |parents| == (|level| + 1) / 2
  {
    var n := |level|;
    seq((n + 1) / 2, i requires 0 <= i < (n + 1) / 2 => Node(level[2 * i], level[Clip(2 * i + 1, n)]))
  }

  /** The root over digests. */
  function Root(level: seq<Digest>): Digest
    requires |level| > 0
    decreases |level|
  {
    if |level| == 1 then level[0] else Root(Up(level))
  }

  /** Number of levels above the leaves. */
  function TreeHeight(n: nat): nat {
    if n <= 1 then 0 else 1 + TreeHeight((n + 1) / 2)
  }

  /** The other child of the parent of node `index`. */
  function Sibling(level: seq<Digest>, index: nat): Step
    requires index < |level|
  {
    if index % 2 == 0 then Step(TextOf(level[Clip(index + 1, |level|)]), Right) else Step(TextOf(level[index - 1]),
        Left)
  }

  function Branch(level: seq<Digest>, index: nat): seq<Step>
    requires index < |level|
    decreases |level|
  {
    if |level| == 1 then []
    else [Sibling(level, index)] + Branch(Up(level), index / 2)
  }

  // ----- entries that are no digests ------------------------------------------ //

  /** All the values, None if one is missing. */
  function AllSome<T>(options: seq<Option<T>>): (values: Option<seq<T>>)
    ensures values.Some? ==> |values.value| == |options|
  {
    if |options| == 0 then Some([])
    else
      var n := |options| - 1;
      var before := AllSome(options[..n]);
      if before.None? || options[n].None? then None else Some(before.value + [options[n].value])
  }

  /** The hashes of the pairs of a level, None where an operand is not hex. */
  function PairHashes(level: seq<Digest>): (hashes: seq<Option<Digest>>)
    ensures |hashes| == (|level| + 1) / 2
  {
    var n := |level|;
    seq((n + 1) / 2,
        i requires 0 <= i < (n + 1) / 2 => HashPair(TextOf(level[2 * i]), TextOf(level[Clip(2 * i + 1, n)])))
  }

  /** The next level over any entries: the comprehension of merkle_root, None for the ValueError. */
  function Parents(level: seq<Digest>): (parents: Option<seq<Digest>>)
    ensures parents.Some? ==> |parents.value| == (|level| + 1) / 2
  {
    AllSome(PairHashes(level))
  }

  /** merkle_root; None is the ValueError for an empty list, or for an id that has to be hashed and is not hex. */
  function RootOf(txids: seq<Digest>): Option<Digest> {
    if |txids| == 0 then None
    else if |txids| == 1 then Some(txids[0])
    else
      var parents := Parents(txids);
      if parents.None? then None else Some(Root(parents.value))
  }

  /** merkle_proof; None is an IndexError, or the ValueError of `RootOf`. */
  function ProofOf(txids: seq<Digest>, index: int): Option<seq<Step>> {
    if !(0 <= index < |txids|) then None
    else if |txids| == 1 then Some([])
    else
      var parents := Parents(txids);
      if parents.None? then None
      else Some([Sibling(txids, index)] + Branch(parents.value, index / 2))
  }

  lemma {:induction false} AllSomeOf<T>(options: seq<Option<T>>, values: seq<T>)
    requires |options| == |values| && forall i :: 0 <= i < |values| ==> options[i] == Some(values[i])
    ensures AllSome(options) == Some(values)
  {
    var n := |options| - 1;
    if n >= 0 {
      AllSomeOf(options[..n], values[..n]);
      assert values == values[..n] + [values[n]];
    }
  }

  lemma {:induction false} AllSomeAt<T>(options: seq<Option<T>>, i: nat)
    requires i < |options| && AllSome(options).Some?
    ensures options[i] == Some(AllSome(options).value[i])
  {
    var n := |options| - 1;
    if i < n { AllSomeAt(options[..n], i); }
  }

  /** A missing value spoils all that follows. */
  lemma {:induction false} NoneStays<T>(options: seq<Option<T>>, k: nat)
    requires k <= |options| && AllSome(options[..k]).None?
    ensures AllSome(options).None?
  {
    if k < |options| {
      var n := |options| - 1;
      assert options[..n][..k] == options[..k];
      NoneStays(options[..n], k);
    } else {
      assert options[..k] == options;
    }
  }

  lemma HashIsDigest(left: Text, right: Text)
    ensures HashPair(left, right).Some? ==> !HashPair(left, right).value.Raw?
  {
  }

  lemma {:induction false} ParentsAreDigests(level: seq<Digest>)
    requires Parents(level).Some?
    ensures Digests(Parents(level).value)
  {
    forall i: nat | i < |PairHashes(level)| ensures !Parents(level).value[i].Raw? {
      AllSomeAt(PairHashes(level), i);
      HashIsDigest(TextOf(level[2 * i]), TextOf(level[Clip(2 * i + 1, |level|)]));
    }
  }

  lemma {:induction false} DigestPairHash(level: seq<Digest>, i: nat)
    requires Digests(level) && i < |Up(level)|
    ensures PairHashes(level)[i] == Some(Up(level)[i])
  {
    DigestsHash(level[2 * i], level[Clip(2 * i + 1, |level|)]);
  }

  /** On digests the general level is the simple one. */
  lemma {:induction false} ParentsOfDigests(level: seq<Digest>)
    requires Digests(level)
    ensures Parents(level) == Some(Up(level))
  {
    forall i: nat | i < |Up(level)| ensures PairHashes(level)[i] == Some(Up(level)[i]) {
      DigestPairHash(level, i);
    }
    AllSomeOf(PairHashes(level), Up(level));
  }

  /** A list of digests has the simple root and the simple branches. */
  lemma {:induction false} DigestsAreSimple(txids: seq<Digest>)
    requires Digests(txids)
    ensures |txids| > 0 ==> RootOf(txids) == Some(Root(txids))
    ensures forall i :: 0 <= i < |txids| ==> ProofOf(txids, i) == Some(Branch(txids, i))
  {
    ParentsOfDigests(txids);
  }

  lemma {:induction false} UpIsDigests(level: seq<Digest>)
    ensures Digests(Up(level))
  {
  }

  // ----- climbing a branch ------------------------------------------------------ //

  /** Where a branch leads: to a text, to a side that is neither left nor right, or to the ValueError. */
  datatype Climbed = Reached(text: Text) | BadSide | NotHex

  function Combine(acc: Text, step: Step): Option<Digest> {
    if step.side == Right then HashPair(acc, step.sibling) else HashPair(step.sibling, acc)
  }

  function Climb(acc: Text, branch: seq<Step>): Climbed
    decreases |branch|
  {
    if |branch| == 0 then Reached(acc)
    else if branch[0].side == Unknown then BadSide
    else if Combine(acc, branch[0]).None? then NotHex
    else Climb(TextOf(Combine(acc, branch[0]).value), branch[1..])
  }

  predicate Accepts(txid: Text, branch: seq<Step>, root: Digest) {
    Climb(txid, branch) == Reached(TextOf(root))
  }

  // ----- the loops -------------------------------------------------------- //

  /** The list comprehension that pairs a padded level. */
  method PairUp(level: seq<Digest>) returns (parents: Option<seq<Digest>>)
    ensures parents == Parents(level)
  {
    var p := if |level| % 2 == 1 then level + [level[|level| - 1]] else level;
    ghost var hashes := PairHashes(level);
    var done: seq<Digest> := [];
    for i := 0 to |p| / 2
      invariant AllSome(hashes[..i]) == Some(done)
    {
      PaddedPair(level, p, i);
      var parent := HashPair(TextOf(p[2 * i]), TextOf(p[2 * i + 1]));
      NextHash(hashes, done, i);
      if parent.None? { return None; }
      done := done + [parent.value];
    }
    assert hashes[..|p| / 2] == hashes;
    parents := Some(done);
  }

  lemma PaddedPair(level: seq<Digest>, p: seq<Digest>, i: nat)
    requires i < |p| / 2 && p == if |level| % 2 == 1 then level + [level[|level| - 1]] else level
    ensures i < |PairHashes(level)| && HashPair(TextOf(p[2 * i]), TextOf(p[2 * i + 1])) == PairHashes(level)[i]
  {
    assert p[2 * i] == level[2 * i] && p[2 * i + 1] == level[Clip(2 * i + 1, |level|)];
  }

  lemma {:induction false} NextHash<T>(options: seq<Option<T>>, done: seq<T>, i: nat)
    requires i < |options| && AllSome(options[..i]) == Some(done)
    ensures if options[i].None? then AllSome(options).None?
            else AllSome(options[..i + 1]) == Some(done + [options[i].value])
  {
    assert options[..i + 1][..i] == options[..i];
    if options[i].None? { NoneStays(options, i + 1); }
  }

  method MerkleRoot(txids: seq<Digest>) returns (root: Option<Digest>)
    ensures root == RootOf(txids)
  {
    if |txids| == 0 { return None; }
    if |txids| == 1 { return Some(txids[0]); }
    var parents := PairUp(txids);
    if parents.None? { return None; }
    var level := parents.value;
    ParentsAreDigests(txids);
    while |level| > 1
      invariant |level| > 0 && Digests(level) && Root(level) == Root(parents.value)
      decreases |level|
    {
      ParentsOfDigests(level);
      UpIsDigests(level);
      var above := PairUp(level);
      level := above.value;
    }
    root := Some(level[0]);
  }

  lemma {:induction false} BranchGrows(done: seq<Step>, level: seq<Digest>, index: nat)
    requires index < |level| && |level| > 1
    ensures done + Branch(level, index) == (done + [Sibling(level, index)]) + Branch(Up(level), index / 2)
  {
  }

  lemma {:induction false} BranchDone(done: seq<Step>, level: seq<Digest>, index: nat)
    requires index < |level| == 1
    ensures done + Branch(level, index) == done
  {
  }

  /** merkle_proof. */
  method MerkleProof(txids: seq<Digest>, index: int) returns (proof: Option<seq<Step>>)
    ensures proof == ProofOf(txids, index)
  {
    if !(0 <= index < |txids|) { return None; }
    if |txids| == 1 { return Some([]); }
    var parents := PairUp(txids);
    if parents.None? { return None; }
    ParentsAreDigests(txids);
    var branch: seq<Step> := [Sibling(txids, index)];
    var level, idx := parents.value, index / 2;
    ghost var whole := branch + Branch(level, idx);
    while |level| > 1
      invariant 0 <= idx < |level| && Digests(level)
      invariant branch + Branch(level, idx) == whole
      decreases |level|
    {
      BranchGrows(branch, level, idx);
      ParentsOfDigests(level);
      UpIsDigests(level);
      branch := branch + [Sibling(level, idx)];
      var above := PairUp(level);
      level := above.value;
      idx := idx / 2;
    }
    BranchDone(branch, level, idx);
    proof := Some(branch);
  }

  /** verify_merkle_proof; None is the ValueError for an operand that is not hex. */
  method VerifyMerkleProof(txid: Text, proof: seq<Step>, root: Text) returns (ok: Option<bool>)
    ensures ok == match Climb(txid, proof)
                  case Reached(text) => Some(text == root)
                  case BadSide => Some(false)
                  case NotHex => None
  {
    var acc := txid;
    for i := 0 to |proof|
      invariant Climb(txid, proof) == Climb(acc, proof[i..])
    {
      if proof[i].side == Unknown { return Some(false); }
      var parent := Combine(acc, proof[i]);
      if parent.None? { return None; }
      acc := TextOf(parent.value);
    }
    ok := Some(acc == root);
  }
}
