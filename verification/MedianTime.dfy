/** Median time past (node.py): the median of the last eleven timestamps of a branch. */
module MedianTime {
  import opened Params
  import opened Ledger

  predicate Ordered(s: seq<int>) {
    forall i, j :: 0 <= i < j < |s| ==> s[i] <= s[j]
  }

  function Insert(x: int, s: seq<int>): (r: seq<int>)
    requires Ordered(s)
    ensures Ordered(r) && |r| == |s| + 1
    ensures r[0] == x || (|s| > 0 && r[0] == s[0])
    ensures multiset(r) == multiset(s) + multiset{x}
  {
    if |s| == 0 then [x]
    else if x <= s[0] then [x] + s
    else
      var tail := Insert(x, s[1..]);
      assert s == [s[0]] + s[1..];
      assert forall j :: 0 <= j < |tail| ==> tail[0] <= tail[j];
      [s[0]] + tail
  }

  /** `stamps.sort()`. */
  function Sorted(s: seq<int>): (r: seq<int>)
    ensures Ordered(r) && multiset(r) == multiset(s) && |r| == |s|
  {
    if |s| == 0 then []
    else
      assert s == [s[0]] + s[1..];
      Insert(s[0], Sorted(s[1..]))
  }

  /** The last `span` timestamps of a branch, newest first; fewer when genesis is reached. */
  function Window(branch: seq<Block>, span: nat): (w: seq<int>)
    ensures |w| == if |branch| < span then |branch| else span
  {
    if |branch| == 0 || span == 0 then []
    else [branch[|branch| - 1].header.timestamp] + Window(branch[..|branch| - 1], span - 1)
  }

  function Median(stamps: seq<int>): int
    requires |stamps| > 0
  {
    Sorted(stamps)[|stamps| / 2]
  }

  function MedianTimePast(branch: seq<Block>): int
    requires |branch| > 0
  {
    Median(Window(branch, MEDIAN_TIME_SPAN))
  }

  // ----- the median never goes back ----------------------------------------- //

  function Below(s: seq<int>, v: int): (n: nat)
    ensures n <= |s|
  {
    if |s| == 0 then 0 else Below(s[1..], v) + if s[0] < v then 1 else 0
  }

  lemma {:induction false} BelowInsert(x: int, s: seq<int>, v: int)
    requires Ordered(s)
    ensures Below(Insert(x, s), v) == Below(s, v) + if x < v then 1 else 0
  {
    if |s| > 0 && x > s[0] {
      BelowInsert(x, s[1..], v);
      assert Insert(x, s)[1..] == Insert(x, s[1..]);
    } else if |s| > 0 {
      assert Insert(x, s)[1..] == s;
    }
  }

  lemma {:induction false} BelowSorted(s: seq<int>, v: int)
    ensures Below(Sorted(s), v) == Below(s, v)
  {
    if |s| > 0 {
      BelowSorted(s[1..], v);
      BelowInsert(s[0], Sorted(s[1..]), v);
    }
  }

  lemma {:induction false} NoneBelow(s: seq<int>, v: int)
    requires forall i :: 0 <= i < |s| ==> s[i] >= v
    ensures Below(s, v) == 0
  {
    if |s| > 0 { NoneBelow(s[1..], v); }
  }

  lemma {:induction false} RankInOrder(s: seq<int>, i: nat, v: int)
    requires Ordered(s) && i < |s|
    ensures s[i] >= v <==> Below(s, v) <= i
  {
    if s[0] >= v {
      NoneBelow(s, v);
    } else if i > 0 {
      RankInOrder(s[1..], i - 1, v);
    }
  }

  /** The median is at least `v` exactly when no more than half of the stamps are below `v`. */
  lemma {:induction false} MedianAtLeast(stamps: seq<int>, v: int)
    requires |stamps| > 0
    ensures Median(stamps) >= v <==> Below(stamps, v) <= |stamps| / 2
  {
    BelowSorted(stamps, v);
    RankInOrder(Sorted(stamps), |stamps| / 2, v);
  }

  lemma {:induction false} WiderWindow(branch: seq<Block>, span: nat, v: int)
    ensures Below(Window(branch, span), v) <= Below(Window(branch, span + 1), v)
  {
    if |branch| > 0 && span > 0 {
      WiderWindow(branch[..|branch| - 1], span - 1, v);
      assert Window(branch, span)[1..] == Window(branch[..|branch| - 1], span - 1);
      assert Window(branch, span + 1)[1..] == Window(branch[..|branch| - 1], span);
    }
  }

  /** A block stamped after its parent's median has a median no earlier than its parent's. */
  lemma MedianNeverGoesBack(branch: seq<Block>, b: Block)
    requires |branch| > 0 && b.header.timestamp > MedianTimePast(branch)
    ensures MedianTimePast(branch + [b]) >= MedianTimePast(branch)
  {
    var v, k := MedianTimePast(branch), MEDIAN_TIME_SPAN;
    var old', new' := Window(branch, k), Window(branch + [b], k);
    assert (branch + [b])[..|branch|] == branch;
    assert new'[1..] == Window(branch, k - 1);
    WiderWindow(branch, k - 1, v);
    MedianAtLeast(old', v);
    MedianAtLeast(new', v);
  }
}
