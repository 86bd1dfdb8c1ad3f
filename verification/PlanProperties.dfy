/** What the closed form of the key plan promises: balanced groups, a reduction tree, a well-formed task list. */
module PlanProperties {
  import opened Arithmetic
  import opened Names
  import opened PlanShape
  import opened Sequences
  import opened Wrappers

  // ---- Grouping

  function Least(a: nat, b: nat): nat {
    if a < b then a else b
  }

  lemma GroupArithmetic(n: nat)
    requires 3 <= n && n != 5
    ensures var count := GroupCount(n);
      0 < count && ((n / count == 3 && n % count < count) || (n / count == 4 && n % count == 0))
  {
    var count := GroupCount(n);
    assert 4 * count - 3 <= n <= 4 * count;
    if n == 4 * count {
      QuotientUnique(count, 4, 0);
    } else {
      QuotientUnique(count, 3, n - 3 * count);
    }
  }

  lemma {:induction false} OffsetOfSizes(sizes: seq<nat>, n: nat, base: nat, remainder: nat)
    requires n <= |sizes|
    requires forall i | 0 <= i < |sizes| :: sizes[i] == base + if i < remainder then 1 else 0
    ensures Offset(sizes, n) == n * base + Least(n, remainder)
  {
    if n > 0 {
      OffsetOfSizes(sizes, n - 1, base, remainder);
    }
  }

  /** Three or more participants always split into groups of three and four, five of them into one group. */
  lemma GroupSizesBalanced(n: nat)
    requires 3 <= n
    ensures GroupSizes(n).Success?
    ensures var sizes := GroupSizes(n).value;
      && Offset(sizes, |sizes|) == n
      && (n == 5 ==> sizes == [5])
      && (n != 5 ==> |sizes| == GroupCount(n) && forall i | 0 <= i < |sizes| :: sizes[i] == 3 || sizes[i] == 4)
  {
    if n == 5 {
      var sizes := GroupSizes(5).value;
      assert Offset(sizes, 1) == Offset(sizes, 0) + sizes[0];
    } else {
      GroupArithmetic(n);
      var count := GroupCount(n);
      var sizes := seq(count, i => n / count + if i < n % count then 1 else 0);
      OffsetOfSizes(sizes, count, n / count, n % count);
      assert count * (n / count) + n % count == n;
    }
  }

  /** Slicing by the sizes partitions the members into consecutive groups of exactly those sizes. */
  lemma {:induction false} SplitGroupsPartition(members: seq<ClientId>, sizes: seq<nat>, n: nat)
    requires n <= |sizes| && Offset(sizes, |sizes|) == |members|
    ensures var groups := SplitTo(members, sizes, n);
      && (forall j | 0 <= j < n :: |groups[j]| == sizes[j])
      && Offset(sizes, n) <= |members| && Join(groups) == members[..Offset(sizes, n)]
  {
    OffsetMonotone(sizes, n, |sizes|);
    if n > 0 {
      SplitGroupsPartition(members, sizes, n - 1);
      var before, groups := SplitTo(members, sizes, n - 1), SplitTo(members, sizes, n);
      JoinPrefix(before, groups, n - 1);
    }
  }

  lemma {:induction false} JoinPrefix<T>(a: seq<seq<T>>, b: seq<seq<T>>, n: nat)
    requires n <= |a| <= |b| && forall j | 0 <= j < n :: a[j] == b[j]
    ensures JoinTo(a, n) == JoinTo(b, n)
  {
    if n > 0 {
      JoinPrefix(a, b, n - 1);
    }
  }

  // ---- The reduction tree

  /** Height h has as many nodes as there are blocks of 2^h groups, the last one possibly partial. */
  lemma {:induction false} WidthIsBlockCount(g: nat, h: nat)
    requires 0 < g
    ensures (Width(g, h) - 1) * Pow2(h) < g <= Width(g, h) * Pow2(h)
  {
    if h > 0 {
      WidthIsBlockCount(g, h - 1);
      HalveBlockCount(Width(g, h - 1), Pow2(h - 1), g);
    }
  }

  lemma {:induction false} WidthOfHalf(g: nat, h: nat)
    ensures Width(g, h + 1) == Width((g + 1) / 2, h)
  {
    if h > 0 {
      WidthOfHalf(g, h - 1);
    }
  }

  /** The halving loop stops after exactly the least number of rounds k with 2^k >= g. */
  lemma {:induction false} HeightIsLeastPower(g: nat)
    requires 0 < g
    ensures Width(g, Height(g)) == 1
    ensures forall h: nat | h < Height(g) :: 1 < Width(g, h)
    ensures g <= Pow2(Height(g))
    ensures g > 1 ==> Pow2(Height(g) - 1) < g
    decreases g
  {
    if g > 1 {
      var half := (g + 1) / 2;
      HeightIsLeastPower(half);
      WidthOfHalf(g, Height(half));
      forall h: nat | h < Height(g) ensures 1 < Width(g, h) {
        if h > 0 {
          WidthOfHalf(g, h - 1);
        }
      }
    }
  }

  /** Node (h, i) is run by the coordinator of the first group it covers, group i * 2^h. */
  lemma {:induction false} OperatorIsFirstCoordinator(groups: Groups, h: nat, i: nat)
    requires WellGrouped(groups) && i < Width(|groups|, h)
    ensures i * Pow2(h) < |groups| && Operator(groups, h, i) == groups[i * Pow2(h)][0]
  {
    if h > 0 {
      OperatorIsFirstCoordinator(groups, h - 1, 2 * i);
      MergeBlocks(i, Pow2(h - 1));
      assert Pow2(h) == 2 * Pow2(h - 1);
    }
  }

  /** The groups whose results reach node (h, i). */
  ghost function Covered(g: nat, h: nat, i: nat): seq<nat>
    requires i < Width(g, h)
  {
    if h == 0 then [i]
    else Covered(g, h - 1, 2 * i) + if 2 * i + 1 < Width(g, h - 1) then Covered(g, h - 1, 2 * i + 1) else []
  }

  function Range(from: nat, to: nat): seq<nat>
    requires from <= to
  {
    seq(to - from, k requires 0 <= k => from + k)
  }

  ghost predicate IsBlock(covered: seq<nat>, from: nat, to: nat) {
    from <= to && covered == Range(from, to)
  }

  lemma JoinBlocks(a: seq<nat>, b: seq<nat>, from: nat, mid: nat, to: nat)
    requires IsBlock(a, from, mid) && IsBlock(b, mid, to)
    ensures IsBlock(a + b, from, to)
  {
  }

  /** Where the middle and the end of node i's block lie, over w blocks of size p at the height below. */
  lemma BlockEnds(w: nat, i: nat, p: nat, g: nat) returns (from: nat, mid: nat, to: nat)
    requires 2 * i < w && (w - 1) * p < g <= w * p
    ensures from == i * (2 * p) == (2 * i) * p && to == (i + 1) * (2 * p) == (2 * i + 2) * p && mid == (2 * i + 1) * p
    ensures from <= mid <= to
    ensures if 2 * i + 1 < w then mid < g else g <= mid
  {
    MergeBlocks(i, p);
    from, mid, to := i * (2 * p), (2 * i + 1) * p, (i + 1) * (2 * p);
    if 2 * i + 1 < w {
      ProductMonotone(2 * i + 1, w - 1, p);
    } else {
      assert w == 2 * i + 1;
    }
  }

  /** The blocks of two neighbouring nodes make the block of the node above them. */
  lemma MergeCovered(w: nat, i: nat, p: nat, g: nat, left: seq<nat>, right: seq<nat>)
    requires 2 * i < w && (w - 1) * p < g <= w * p
    requires IsBlock(left, (2 * i) * p, Least((2 * i + 1) * p, g))
    requires if 2 * i + 1 < w then IsBlock(right, (2 * i + 1) * p, Least((2 * i + 2) * p, g)) else right == []
    ensures IsBlock(left + right, i * (2 * p), Least((i + 1) * (2 * p), g))
  {
    var from, mid, to := BlockEnds(w, i, p, g);
    hide IsBlock;
    if 2 * i + 1 < w {
      assert IsBlock(left, from, mid) && IsBlock(right, mid, Least(to, g));
      JoinBlocks(left, right, from, mid, Least(to, g));
    } else {
      assert left + right == left;
    }
  }

  /** Node (h, i) covers exactly the groups from i * 2^h up to, not including, (i + 1) * 2^h, cut off at g. */
  lemma {:induction false} CoveredIsBlock(g: nat, h: nat, i: nat)
    requires 0 < g && i < Width(g, h)
    ensures IsBlock(Covered(g, h, i), i * Pow2(h), Least((i + 1) * Pow2(h), g))
  {
    if h > 0 {
      var w, p := Width(g, h - 1), Pow2(h - 1);
      assert Pow2(h) == 2 * p;
      hide IsBlock, Least, Pow2;
      WidthIsBlockCount(g, h - 1);
      CoveredIsBlock(g, h - 1, 2 * i);
      var right := if 2 * i + 1 < w then Covered(g, h - 1, 2 * i + 1) else [];
      if 2 * i + 1 < w {
        CoveredIsBlock(g, h - 1, 2 * i + 1);
      }
      MergeCovered(w, i, p, g, Covered(g, h - 1, 2 * i), right);
    }
  }

  /** Every group reaches the root, in order and once. */
  lemma RootCoversEveryGroup(g: nat)
    requires 0 < g
    ensures Width(g, Height(g)) == 1
    ensures IsBlock(Covered(g, Height(g), 0), 0, g)
  {
    HeightIsLeastPower(g);
    CoveredIsBlock(g, Height(g), 0);
  }
}
