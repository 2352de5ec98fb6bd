/** What the Merkle root of a list of ids fixes (merkle.py): which lists have the same root. */
module Padding {
  import opened Params
  import opened Ledger
  import opened Results
  import opened Merkle

  /** Lists of the same length with the same root are the same list. */
  lemma {:induction false} RootBindsContents(a: seq<Digest>, b: seq<Digest>)
    requires |a| == |b| > 0 && Digests(a) && Digests(b) && Root(a) == Root(b)
    ensures a == b
    decreases |a|
  {
    if |a| > 1 {
      UpIsDigests(a);
      UpIsDigests(b);
      RootBindsContents(Up(a), Up(b));
      UpBinds(a, b);
    }
  }

  /** Equal parents have equal children. */
  lemma {:induction false} SameParents(a: seq<Digest>, b: seq<Digest>, i: nat, j: nat)
    requires i < |Up(a)| && j < |Up(b)| && Up(a)[i] == Up(b)[j]
    ensures a[2 * i] == b[2 * j] && a[Clip(2 * i + 1, |a|)] == b[Clip(2 * j + 1, |b|)]
  {
  }

  lemma {:induction false} UpBinds(a: seq<Digest>, b: seq<Digest>)
    requires |a| == |b| && Up(a) == Up(b)
    ensures a == b
  {
    forall k | 0 <= k < |a| ensures a[k] == b[k] {
      SameParents(a, b, k / 2, k / 2);
      assert k == 2 * (k / 2) || k == 2 * (k / 2) + 1;
    }
  }

  predicate NoRepeats<T(==)>(s: seq<T>) {
    forall i, j :: 0 <= i < j < |s| ==> s[i] != s[j]
  }

  function LeftDepth(d: Digest): nat {
    if d.Node? then 1 + LeftDepth(d.left) else 0
  }

  lemma {:induction false} RootDepth(level: seq<Digest>, depth: nat)
    requires |level| > 0 && forall i :: 0 <= i < |level| ==> LeftDepth(level[i]) == depth
    ensures LeftDepth(Root(level)) == depth + TreeHeight(|level|)
    decreases |level|
  {
    if |level| > 1 {
      forall i | 0 <= i < |Up(level)| ensures LeftDepth(Up(level)[i]) == depth + 1 {
        assert Up(level)[i].left == level[2 * i];
      }
      RootDepth(Up(level), depth + 1);
    }
  }

  lemma UpKeepsNoRepeats(level: seq<Digest>)
    requires NoRepeats(level)
    ensures NoRepeats(Up(level))
  {
    forall i, j | 0 <= i < j < |Up(level)| ensures Up(level)[i] != Up(level)[j] {
      assert Up(level)[i].left == level[2 * i];
      assert Up(level)[j].left == level[2 * j];
    }
  }

  /** The last parent has equal children exactly when the level was padded. */
  lemma {:induction false} SameUpSameLength(a: seq<Digest>, b: seq<Digest>)
    requires |a| > 0 && |b| > 0 && NoRepeats(a) && NoRepeats(b)
    requires Up(a) == Up(b)
    ensures |a| == |b|
  {
    var last := |Up(a)| - 1;
    SameParents(a, b, last, last);
  }

  lemma {:induction false} SameHeightBinds(a: seq<Digest>, b: seq<Digest>)
    requires |a| > 0 && |b| > 0 && NoRepeats(a) && NoRepeats(b)
    requires TreeHeight(|a|) == TreeHeight(|b|) && Root(a) == Root(b)
    ensures a == b
    decreases |a|
  {
    if |a| > 1 {
      UpKeepsNoRepeats(a);
      UpKeepsNoRepeats(b);
      SameHeightBinds(Up(a), Up(b));
      SameUpSameLength(a, b);
      UpBinds(a, b);
    }
  }

  /** Two lists of transaction ids without repetitions that have the same root are the same list. */
  lemma {:induction false} RootBindsDistinctLists(a: seq<Digest>, b: seq<Digest>)
    requires |a| > 0 && |b| > 0 && Leaves(a) && Leaves(b) && NoRepeats(a) && NoRepeats(b)
    requires Root(a) == Root(b)
    ensures a == b
  {
    RootDepth(a, 0);
    RootDepth(b, 0);
    SameHeightBinds(a, b);
  }

  /** The height is the rounded-up binary logarithm of the number of leaves. */
  lemma {:induction false} HeightIsCeilLog2(n: nat)
    requires n >= 1
    ensures n <= Pow2(TreeHeight(n))
    ensures n > 1 ==> Pow2(TreeHeight(n) - 1) < n
  {
    if n > 1 {
      HeightIsCeilLog2((n + 1) / 2);
    }
  }

  // ----- which lists have the same root --------------------------------------- //

  /** The entry of a list of `n` that stands at place `i` of the full tree of height `h` over it. */
  function LeafAt(n: nat, h: nat, i: nat): (k: nat)
    requires n > 0
    ensures k < n
  {
    if h == 0 then 0 else Clip(2 * LeafAt((n + 1) / 2, h - 1, i / 2) + i % 2, n)
  }

  /** The list with everything that padding repeats, level by level: one entry for every place of the full tree. */
  function Filled<T>(s: seq<T>): (full: seq<T>)
    requires |s| > 0
    ensures |full| == Pow2(TreeHeight(|s|))
  {
    var h := TreeHeight(|s|);
    seq(Pow2(h), i requires 0 <= i < Pow2(h) => s[LeafAt(|s|, h, i)])
  }

  /** The lists agree at place `i` of the full tree of height `h`. */
  predicate SameAt<T(==)>(a: seq<T>, b: seq<T>, h: nat, i: nat)
    requires |a| > 0 && |b| > 0
  {
    a[LeafAt(|a|, h, i)] == b[LeafAt(|b|, h, i)]
  }

  ghost predicate SameFill<T>(a: seq<T>, b: seq<T>, h: nat)
    requires |a| > 0 && |b| > 0
  {
    forall i: nat {:trigger SameAt(a, b, h, i)} :: i < Pow2(h) ==> SameAt(a, b, h, i)
  }

  lemma {:induction false} FilledAgree<T>(a: seq<T>, b: seq<T>, h: nat)
    requires |a| > 0 && |b| > 0 && TreeHeight(|a|) == TreeHeight(|b|) == h
    ensures Filled(a) == Filled(b) <==> SameFill(a, b, h)
  {
    forall i: nat | i < Pow2(h) ensures Filled(a)[i] == Filled(b)[i] <==> SameAt(a, b, h, i) {
    }
  }

  lemma {:induction false} HeightsAgree(h: nat, k: nat)
    requires Pow2(h) == Pow2(k)
    ensures h == k
  {
    if h > 0 && k > 0 { HeightsAgree(h - 1, k - 1); }
  }

  /** The children of the parent at place `p` stand at the places `2 * p` and `2 * p + 1`. */
  lemma {:induction false} LeafHalves(n: nat, h: nat, p: nat)
    requires n > 1 && h > 0
    ensures LeafAt(n, h, 2 * p) == Clip(2 * LeafAt((n + 1) / 2, h - 1, p), n)
    ensures LeafAt(n, h, 2 * p + 1) == Clip(2 * LeafAt((n + 1) / 2, h - 1, p) + 1, n)
  {
    var odd := 2 * p + 1;
    assert odd / 2 == p && odd % 2 == 1;
  }

  /** Two parents, the entries `i` and `j` of the next levels over `a` and `b`, have equal children. */
  predicate ChildrenEqual<T(==)>(a: seq<T>, b: seq<T>, i: nat, j: nat)
    requires |a| > 0 && |b| > 0
  {
    a[Clip(2 * i, |a|)] == b[Clip(2 * j, |b|)] && a[Clip(2 * i + 1, |a|)] == b[Clip(2 * j + 1, |b|)]
  }

  predicate HalfAsLong<T>(up: seq<T>, s: seq<T>) {
    |s| > 1 && |up| == (|s| + 1) / 2
  }

  /** Equal parents have equal children. */
  ghost predicate TellsBelow<T>(a: seq<T>, b: seq<T>, up: seq<T>, vp: seq<T>)
    requires |a| > 0 && |b| > 0
  {
    forall i: nat, j: nat {:trigger ChildrenEqual(a, b, i, j)} :: i < |up| && j < |vp| && up[i] == vp[j]
        ==> ChildrenEqual(a, b, i, j)
  }

  /** Equal children have equal parents. */
  ghost predicate TellsAbove<T>(a: seq<T>, b: seq<T>, up: seq<T>, vp: seq<T>)
    requires |a| > 0 && |b| > 0
  {
    forall i: nat, j: nat {:trigger ChildrenEqual(a, b, i, j)} :: i < |up| && j < |vp| && ChildrenEqual(a, b, i, j)
        ==> up[i] == vp[j]
  }

  lemma {:induction false} PlacesOfChildren<T>(a: seq<T>, b: seq<T>, h: nat, p: nat, i: nat, j: nat)
    requires h > 0 && |a| > 1 && |b| > 1
    requires i == LeafAt((|a| + 1) / 2, h - 1, p) && j == LeafAt((|b| + 1) / 2, h - 1, p)
    ensures ChildrenEqual(a, b, i, j) <==> SameAt(a, b, h, 2 * p) && SameAt(a, b, h, 2 * p + 1)
  {
    LeafHalves(|a|, h, p);
    LeafHalves(|b|, h, p);
  }

  lemma {:induction false} FillBelow<T>(a: seq<T>, b: seq<T>, up: seq<T>, vp: seq<T>, h: nat)
    requires h > 0 && HalfAsLong(up, a) && HalfAsLong(vp, b) && TellsBelow(a, b, up, vp) && SameFill(up, vp, h - 1)
    ensures SameFill(a, b, h)
  {
    forall i: nat | i < Pow2(h) ensures SameAt(a, b, h, i) {
      var p := i / 2;
      assert SameAt(up, vp, h - 1, p);
      PlacesOfChildren(a, b, h, p, LeafAt(|up|, h - 1, p), LeafAt(|vp|, h - 1, p));
      assert i == if i % 2 == 0 then 2 * p else 2 * p + 1;
    }
  }

  lemma {:induction false} FillAbove<T>(a: seq<T>, b: seq<T>, up: seq<T>, vp: seq<T>, h: nat)
    requires h > 0 && HalfAsLong(up, a) && HalfAsLong(vp, b) && TellsAbove(a, b, up, vp) && SameFill(a, b, h)
    ensures SameFill(up, vp, h - 1)
  {
    var g := h - 1;
    forall p: nat | p < Pow2(g) ensures SameAt(up, vp, g, p) {
      assert SameAt(a, b, h, 2 * p) && SameAt(a, b, h, 2 * p + 1);
      PlacesOfChildren(a, b, h, p, LeafAt(|up|, g, p), LeafAt(|vp|, g, p));
    }
  }

  lemma {:induction false} UpTellsBelow(a: seq<Digest>, b: seq<Digest>)
    requires |a| > 0 && |b| > 0
    ensures TellsBelow(a, b, Up(a), Up(b))
  {
    forall i: nat, j: nat | i < |Up(a)| && j < |Up(b)| && Up(a)[i] == Up(b)[j] ensures ChildrenEqual(a, b, i, j) {
      SameParents(a, b, i, j);
    }
  }

  lemma {:induction false} UpTellsAbove(a: seq<Digest>, b: seq<Digest>)
    requires |a| > 0 && |b| > 0
    ensures TellsAbove(a, b, Up(a), Up(b))
  {
    forall i: nat, j: nat | i < |Up(a)| && j < |Up(b)| && ChildrenEqual(a, b, i, j) ensures Up(a)[i] == Up(b)[j] {
      ParentsEqual(a, b, i, j);
    }
  }

  lemma {:induction false} ParentsEqual(a: seq<Digest>, b: seq<Digest>, i: nat, j: nat)
    requires i < |Up(a)| && j < |Up(b)| && ChildrenEqual(a, b, i, j)
    ensures Up(a)[i] == Up(b)[j]
  {
    assert Clip(2 * i, |a|) == 2 * i && Clip(2 * j, |b|) == 2 * j;
  }

  lemma {:induction false} SameRootSameFill(a: seq<Digest>, b: seq<Digest>, h: nat)
    requires |a| > 0 && |b| > 0 && TreeHeight(|a|) == TreeHeight(|b|) == h
    requires Root(a) == Root(b)
    ensures SameFill(a, b, h)
    decreases h
  {
    if h > 0 {
      SameRootSameFill(Up(a), Up(b), h - 1);
      UpTellsBelow(a, b);
      FillBelow(a, b, Up(a), Up(b), h);
    }
  }

  lemma {:induction false} SameFillSameRoot(a: seq<Digest>, b: seq<Digest>, h: nat)
    requires |a| > 0 && |b| > 0 && TreeHeight(|a|) == TreeHeight(|b|) == h
    requires SameFill(a, b, h)
    ensures Root(a) == Root(b)
    decreases h
  {
    if h == 0 {
      assert SameAt(a, b, 0, 0);
    } else {
      UpTellsAbove(a, b);
      FillAbove(a, b, Up(a), Up(b), h);
      SameFillSameRoot(Up(a), Up(b), h - 1);
    }
  }

  /** Down from `root` by the `h` binary digits of `i`, to the left for 0 and to the right for 1. */
  function Down(root: Digest, h: nat, i: nat): Option<Digest> {
    if h == 0 then Some(root)
    else
      var parent := Down(root, h - 1, i / 2);
      if parent.None? || !parent.value.Node? then None
      else Some(if i % 2 == 0 then parent.value.left else parent.value.right)
  }

  lemma ChildOf(s: seq<Digest>, k: nat, bit: nat)
    requires |s| > 1 && k < |Up(s)| && bit < 2
    ensures s[Clip(2 * k + bit, |s|)] == if bit == 0 then Up(s)[k].left else Up(s)[k].right
    ensures Up(s)[k].Node?
  {
  }

  lemma {:induction false} DownToLeaf(s: seq<Digest>, h: nat, i: nat)
    requires |s| > 0 && h == TreeHeight(|s|)
    ensures Down(Root(s), h, i) == Some(s[LeafAt(|s|, h, i)])
    decreases h
  {
    if |s| > 1 {
      DownToLeaf(Up(s), h - 1, i / 2);
      ChildOf(s, LeafAt(|Up(s)|, h - 1, i / 2), i % 2);
    }
  }

  /** The tree under a root holds the list that padding fills up, from left to right. */
  lemma {:induction false} RootHoldsFilled(s: seq<Digest>, i: nat)
    requires |s| > 0 && i < Pow2(TreeHeight(|s|))
    ensures Down(Root(s), TreeHeight(|s|), i) == Some(Filled(s)[i])
  {
    DownToLeaf(s, TreeHeight(|s|), i);
  }

  /** Lists of ids have the same root exactly when padding makes the same list of them. */
  lemma {:induction false} SameRootExactly(a: seq<Digest>, b: seq<Digest>)
    requires |a| > 0 && |b| > 0 && Leaves(a) && Leaves(b)
    ensures Root(a) == Root(b) <==> Filled(a) == Filled(b)
  {
    var h := TreeHeight(|a|);
    if Root(a) == Root(b) {
      RootDepth(a, 0);
      RootDepth(b, 0);
      SameRootSameFill(a, b, h);
      FilledAgree(a, b, h);
    }
    if Filled(a) == Filled(b) { SameFilledSameRoot(a, b); }
  }

  /** One direction holds for any entries. */
  lemma {:induction false} SameFilledSameRoot(a: seq<Digest>, b: seq<Digest>)
    requires |a| > 0 && |b| > 0 && Filled(a) == Filled(b)
    ensures Root(a) == Root(b)
  {
    var h := TreeHeight(|a|);
    HeightsAgree(h, TreeHeight(|b|));
    FilledAgree(a, b, h);
    SameFillSameRoot(a, b, h);
  }

  /** Every list starts the list padding makes of it, so of two lists with one root one starts the other. */
  lemma {:induction false} SameRootIsPrefix(a: seq<Digest>, b: seq<Digest>)
    requires 0 < |a| <= |b| && Leaves(a) && Leaves(b) && Root(a) == Root(b)
    ensures a == b[..|a|]
  {
    SameRootExactly(a, b);
    StartsFilled(a);
    StartsFilled(b);
    assert Filled(b)[..|b|][..|a|] == Filled(b)[..|a|];
  }

  /** They have the same entries. */
  lemma {:induction false} SameRootSameEntries(a: seq<Digest>, b: seq<Digest>, d: Digest)
    requires |a| > 0 && |b| > 0 && Leaves(a) && Leaves(b) && Root(a) == Root(b) && d in b
    ensures d in a
  {
    SameRootExactly(a, b);
    StartsFilled(b);
    var i :| 0 <= i < |b| && b[i] == d;
    assert Filled(b)[..|b|][i] == Filled(b)[i];
    assert Filled(a)[i] in a;
  }

  lemma {:induction false} StartsFilled(s: seq<Digest>)
    requires |s| > 0
    ensures |s| <= |Filled(s)| && Filled(s)[..|s|] == s
  {
    HeightIsCeilLog2(|s|);
    forall i: nat | i < |s| ensures LeafAt(|s|, TreeHeight(|s|), i) == i {
      OwnPlace(|s|, i);
    }
  }

  lemma {:induction false} OwnPlace(n: nat, i: nat)
    requires i < n
    ensures LeafAt(n, TreeHeight(n), i) == i
    decreases n
  {
    if n > 1 { OwnPlace((n + 1) / 2, i / 2); }
  }

  /** `q` times 2^k. */
  function Doubled(q: nat, k: nat): nat {
    if k == 0 then q else 2 * Doubled(q, k - 1)
  }

  /** Past the end of `n` places, count the last `w` again. */
  function Folded(i: nat, n: nat, w: nat): (j: nat)
    requires w <= n && i < n + w
    ensures j < n
  {
    if i < n then i else i - w
  }

  lemma {:induction false} RunLengths(q: nat, k: nat)
    requires q > 0
    ensures Pow2(k) < Doubled(2 * q + 1, k)
    ensures TreeHeight(Doubled(2 * q + 1, k) + Pow2(k)) == TreeHeight(Doubled(2 * q + 1, k))
  {
    if k > 0 { RunLengths(q, k - 1); }
  }

  lemma {:induction false} OddPlace(n: nat, h: nat, i: nat)
    requires n > 1 && n % 2 == 1 && h > 0
    ensures Folded(LeafAt(n + 1, h, i), n, 1) == LeafAt(n, h, i)
  {
    assert (n + 2) / 2 == (n + 1) / 2;
  }

  lemma {:induction false} EvenPlace(m: nat, h: nat, i: nat)
    requires m > 0 && h > 0
    ensures LeafAt(2 * m, h, i) == 2 * LeafAt(m, h - 1, i / 2) + i % 2
  {
    assert (2 * m + 1) / 2 == m;
  }

  lemma FoldedTwice(a: nat, m: nat, v: nat, bit: nat)
    requires v <= m && a < m + v && bit < 2
    ensures Folded(2 * a + bit, 2 * m, 2 * v) == 2 * Folded(a, m, v) + bit
  {
  }

  /** Padding counts the last 2^k of an odd number, above one, of runs of 2^k places twice. */
  lemma {:induction false} FoldedPlace(q: nat, k: nat, n: nat, w: nat, h: nat, i: nat)
    requires q > 0 && n == Doubled(2 * q + 1, k) && w == Pow2(k) && w < n && h == TreeHeight(n)
    ensures Folded(LeafAt(n + w, h, i), n, w) == LeafAt(n, h, i)
    decreases k
  {
    if k == 0 {
      OddPlace(n, h, i);
    } else {
      var m, v := Doubled(2 * q + 1, k - 1), Pow2(k - 1);
      assert n == 2 * m && w == 2 * v && n + w == 2 * (m + v);
      RunLengths(q, k - 1);
      FoldedPlace(q, k - 1, m, v, h - 1, i / 2);
      EvenPlace(m, h, i);
      EvenPlace(m + v, h, i);
      FoldedTwice(LeafAt(m + v, h - 1, i / 2), m, v, i % 2);
    }
  }

  lemma {:induction false} TailFill<T>(a: seq<T>, more: seq<T>, q: nat, k: nat, h: nat)
    requires q > 0 && |a| == Doubled(2 * q + 1, k) && h == TreeHeight(|a|)
    requires Pow2(k) < |a| && more == a + a[|a| - Pow2(k)..]
    ensures SameFill(more, a, h)
  {
    var n, w := |a|, Pow2(k);
    forall i: nat | i < Pow2(h) ensures SameAt(more, a, h, i) {
      FoldedPlace(q, k, n, w, h, i);
      TailAt(a, more, w, LeafAt(n + w, h, i));
    }
  }

  /** A collision that padding causes: repeating the last 2^k of an odd number, above one, of runs of 2^k entries. */
  lemma {:induction false} RepeatedTailKeepsRoot(a: seq<Digest>, q: nat, k: nat)
    requires q > 0 && |a| == Doubled(2 * q + 1, k)
    ensures Pow2(k) < |a| && Root(a + a[|a| - Pow2(k)..]) == Root(a)
  {
    RunLengths(q, k);
    var more := a + a[|a| - Pow2(k)..];
    TailFill(a, more, q, k, TreeHeight(|a|));
    SameFillSameRoot(more, a, TreeHeight(|a|));
  }

  lemma TailAt<T>(s: seq<T>, more: seq<T>, w: nat, i: nat)
    requires w <= |s| && more == s + s[|s| - w..] && i < |more|
    ensures more[i] == s[Folded(i, |s|, w)]
  {
  }
}
