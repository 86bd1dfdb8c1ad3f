/** The seeded Fisher-Yates shuffle over rejection-sampled draws. */
module Shuffling {
  import opened Arithmetic
  import opened Names
  import opened Sequences

  /** A digest is read as a number below 2 to the 256. */
  const DRAW_LIMIT: nat := 0x1_0000_0000_0000_0000_0000_0000_0000_0000_0000_0000_0000_0000_0000_0000_0000_0000

  /** The draw at a counter: the digest of the seed followed by that counter, read as a number. */
  type Draws = nat -> nat

  function Cutoff(limit: nat, modulus: nat): (c: nat)
    requires 0 < modulus <= limit
    ensures 0 < c <= limit && c % modulus == 0
  {
    assert limit - limit % modulus == modulus * (limit / modulus) + 0;
    QuotientUnique(modulus, limit / modulus, 0);
    limit - limit % modulus
  }

  predicate Accepted(draw: Draws, counter: nat, modulus: nat)
    requires 0 < modulus <= DRAW_LIMIT
  {
    draw(counter) < Cutoff(DRAW_LIMIT, modulus)
  }

  ghost predicate AcceptedFrom(draw: Draws, counter: nat, modulus: nat)
    requires 0 < modulus <= DRAW_LIMIT
  {
    exists later: nat :: counter <= later && Accepted(draw, later, modulus)
  }

  /** The rejection loop ends: behind every counter lies an accepted draw. */
  ghost predicate Productive(draw: Draws) {
    forall counter: nat, modulus: nat | 0 < modulus <= DRAW_LIMIT :: AcceptedFrom(draw, counter, modulus)
  }

  ghost function FirstAccepted(draw: Draws, counter: nat, modulus: nat): (d: nat)
    requires 0 < modulus <= DRAW_LIMIT && Productive(draw)
    ensures counter <= d && Accepted(draw, d, modulus)
    ensures forall e: nat | counter <= e < d :: !Accepted(draw, e, modulus)
  {
    assert AcceptedFrom(draw, counter, modulus);
    var later: nat :| counter <= later && Accepted(draw, later, modulus);
    Search(draw, counter, modulus, later)
  }

  ghost function Search(draw: Draws, counter: nat, modulus: nat, later: nat): (d: nat)
    requires 0 < modulus <= DRAW_LIMIT && counter <= later && Accepted(draw, later, modulus)
    ensures counter <= d && Accepted(draw, d, modulus)
    ensures forall e: nat | counter <= e < d :: !Accepted(draw, e, modulus)
    decreases later - counter
  {
    if Accepted(draw, counter, modulus) then counter else Search(draw, counter + 1, modulus, later)
  }

  /** The slot chosen for the highest position, then the choices for the positions below. */
  datatype Choices = Done | Choose(slot: nat, lower: Choices)

  /** One choice for each of the positions k - 1 down to 1, position u choosing among u + 1 slots. */
  ghost predicate ValidChoices(c: Choices, k: nat) {
    if k <= 1 then c.Done? else c.Choose? && c.slot < k && ValidChoices(c.lower, k - 1)
  }

  ghost function ChoicesFrom(draw: Draws, k: nat, counter: nat): (c: Choices)
    requires k <= DRAW_LIMIT && Productive(draw)
    ensures ValidChoices(c, k)
  {
    if k <= 1 then Done
    else
      var d := FirstAccepted(draw, counter, k);
      Choose(Slot(draw(d), k), ChoicesFrom(draw, k - 1, d + 1))
  }

  function Slot(value: nat, modulus: nat): (j: nat)
    requires 0 < modulus
    ensures j < modulus
  {
    value % modulus
  }

  /** Swaps each position below k, from the highest down, with the slot chosen for it. */
  ghost function SwapDown<T>(s: seq<T>, c: Choices, k: nat): (r: seq<T>)
    requires k <= |s| && ValidChoices(c, k)
    ensures |r| == |s|
    ensures k <= 1 ==> r == s
    decreases k
  {
    if k <= 1 then s else SwapDown(Swap(s, k - 1, c.slot), c.lower, k - 1)
  }

  ghost function ShuffleOf(participants: seq<ClientId>, draw: Draws): seq<ClientId>
    requires |participants| <= DRAW_LIMIT && Productive(draw)
  {
    SwapDown(Sorted(participants), ChoicesFrom(draw, |participants|, 0), |participants|)
  }

  /** Draws at successive counters until one falls below the cutoff. */
  method AcceptedDraw(draw: Draws, start: nat, modulus: nat) returns (value: nat, counter: nat)
    requires 0 < modulus <= DRAW_LIMIT && Productive(draw)
    ensures start < counter && counter - 1 == FirstAccepted(draw, start, modulus)
    ensures value == draw(counter - 1)
  {
    var cutoff := DRAW_LIMIT - DRAW_LIMIT % modulus;
    ghost var goal := FirstAccepted(draw, start, modulus);
    value, counter := draw(start), start + 1;
    while value >= cutoff
      invariant start < counter <= goal + 1 && value == draw(counter - 1)
      invariant forall e: nat | start <= e < counter - 1 :: !Accepted(draw, e, modulus)
      decreases goal - counter
    {
      value, counter := draw(counter), counter + 1;
    }
    assert Accepted(draw, counter - 1, modulus);
  }

  method SwapSlots(slots: array<ClientId>, i: nat, j: nat)
    requires i < slots.Length && j < slots.Length
    modifies slots
    ensures slots[..] == Swap(old(slots[..]), i, j)
  {
    slots[i], slots[j] := slots[j], slots[i];
  }

  lemma SwapDownStep(s: seq<ClientId>, draw: Draws, k: nat, counter: nat)
    requires 2 <= k <= |s| && k <= DRAW_LIMIT && Productive(draw)
    ensures var d := FirstAccepted(draw, counter, k);
      SwapDown(s, ChoicesFrom(draw, k, counter), k)
      == SwapDown(Swap(s, k - 1, Slot(draw(d), k)), ChoicesFrom(draw, k - 1, d + 1), k - 1)
  {
  }

  method ShuffleInPlace(slots: array<ClientId>, draw: Draws)
    requires slots.Length <= DRAW_LIMIT && Productive(draw)
    modifies slots
    ensures slots[..] == SwapDown(old(slots[..]), ChoicesFrom(draw, slots.Length, 0), slots.Length)
  {
    hide SwapDown, ChoicesFrom, Swap;
    var counter, remaining := 0, slots.Length;
    ghost var goal := SwapDown(slots[..], ChoicesFrom(draw, remaining, counter), remaining);
    while remaining > 1
      invariant 0 <= remaining <= slots.Length
      invariant SwapDown(slots[..], ChoicesFrom(draw, remaining, counter), remaining) == goal
    {
      var value, next := AcceptedDraw(draw, counter, remaining);
      SwapDownStep(slots[..], draw, remaining, counter);
      SwapSlots(slots, remaining - 1, Slot(value, remaining));
      counter, remaining := next, remaining - 1;
    }
  }

  method Shuffle(participants: seq<ClientId>, draw: Draws) returns (shuffled: seq<ClientId>)
    requires |participants| <= DRAW_LIMIT && Productive(draw)
    ensures shuffled == ShuffleOf(participants, draw)
  {
    var sorted := Sorted(participants);
    var slots := new ClientId[|sorted|](i requires 0 <= i < |sorted| => sorted[i]);
    assert slots[..] == sorted;
    ShuffleInPlace(slots, draw);
    return slots[..];
  }

  /** The shuffle depends on the set of participants and the draws, not on how they were listed. */
  lemma ShuffleIgnoresInputOrder(a: seq<ClientId>, b: seq<ClientId>, draw: Draws)
    requires multiset(a) == multiset(b) && |a| <= DRAW_LIMIT && Productive(draw)
    ensures |a| == |b| && ShuffleOf(a, draw) == ShuffleOf(b, draw)
  {
    assert |multiset(a)| == |a| && |multiset(b)| == |b|;
    SortedIgnoresInputOrder(a, b);
  }

  lemma SwapMultiset<T>(s: seq<T>, i: nat, j: nat)
    requires i < |s| && j < |s|
    ensures multiset(Swap(s, i, j)) == multiset(s)
  {
    assert multiset(s[i := s[j]]) == multiset(s) - multiset{s[i]} + multiset{s[j]};
  }

  lemma {:induction false} SwapDownMultiset<T>(s: seq<T>, c: Choices, k: nat)
    requires k <= |s| && ValidChoices(c, k)
    ensures multiset(SwapDown(s, c, k)) == multiset(s)
    decreases k
  {
    if k >= 2 {
      SwapMultiset(s, k - 1, c.slot);
      SwapDownMultiset(Swap(s, k - 1, c.slot), c.lower, k - 1);
    }
  }

  /** Positions from k on stay as they are. */
  lemma {:induction false} SwapDownFixes<T>(s: seq<T>, c: Choices, k: nat, i: nat)
    requires k <= i < |s| && ValidChoices(c, k)
    ensures SwapDown(s, c, k)[i] == s[i]
    decreases k
  {
    if k >= 2 {
      SwapDownFixes(Swap(s, k - 1, c.slot), c.lower, k - 1, i);
    }
  }

  /** The shuffle is a rearrangement of the participants. */
  lemma ShufflePermutes(participants: seq<ClientId>, draw: Draws)
    requires |participants| <= DRAW_LIMIT && Productive(draw)
    ensures multiset(ShuffleOf(participants, draw)) == multiset(participants)
  {
    SwapDownMultiset(Sorted(participants), ChoicesFrom(draw, |participants|, 0), |participants|);
  }

  lemma SwapElements<T>(s: seq<T>, i: nat, j: nat)
    requires i < |s| && j < |s|
    ensures SetOf(Swap(s, i, j)) == SetOf(s)
  {
    var t := Swap(s, i, j);
    forall x | x in s ensures x in t {
      var n :| 0 <= n < |s| && s[n] == x;
      assert t[if n == i then j else if n == j then i else n] == x;
    }
  }

  lemma DistinctSwap<T>(s: seq<T>, i: nat, j: nat)
    requires Distinct(s) && i < |s| && j < |s|
    ensures Distinct(Swap(s, i, j))
  {
  }

  /** Two choice vectors that give the same arrangement are the same vector. */
  lemma {:induction false} ChoicesInjective<T>(s: seq<T>, c: Choices, d: Choices, k: nat)
    requires Distinct(s) && k <= |s| && ValidChoices(c, k) && ValidChoices(d, k)
    requires SwapDown(s, c, k) == SwapDown(s, d, k)
    ensures c == d
    decreases k
  {
    if k >= 2 {
      SwapDownFixes(Swap(s, k - 1, c.slot), c.lower, k - 1, k - 1);
      SwapDownFixes(Swap(s, k - 1, d.slot), d.lower, k - 1, k - 1);
      assert c.slot == d.slot;
      DistinctSwap(s, k - 1, c.slot);
      ChoicesInjective(Swap(s, k - 1, c.slot), c.lower, d.lower, k - 1);
    }
  }

  /** p rearranges s and already agrees with it from position k on. */
  ghost predicate Reachable<T>(s: seq<T>, p: seq<T>, k: nat) {
    && Distinct(s) && Distinct(p)
    && k <= |s| == |p|
    && SetOf(s) == SetOf(p)
    && forall i | k <= i < |s| :: s[i] == p[i]
  }

  /** The element p wants at position k - 1 is still in one of the first k slots. */
  lemma SlotOf<T>(s: seq<T>, p: seq<T>, k: nat) returns (j: nat)
    requires Reachable(s, p, k) && 0 < k
    ensures j < k && s[j] == p[k - 1]
    ensures Reachable(Swap(s, k - 1, j), p, k - 1)
  {
    assert p[k - 1] in SetOf(p);
    j :| 0 <= j < |s| && s[j] == p[k - 1];
    SwapElements(s, k - 1, j);
    DistinctSwap(s, k - 1, j);
  }

  lemma OneSlotLeft<T>(s: seq<T>, p: seq<T>, k: nat)
    requires Reachable(s, p, k) && k <= 1
    ensures s == p
  {
    if k == 1 {
      var j := SlotOf(s, p, 1);
      assert s == [s[0]] + s[1..] && p == [p[0]] + p[1..];
    }
  }

  /** Every rearrangement is reached by some choice vector. */
  lemma {:induction false} ChoicesSurjective<T>(s: seq<T>, p: seq<T>, k: nat) returns (c: Choices)
    requires Reachable(s, p, k)
    ensures ValidChoices(c, k) && SwapDown(s, c, k) == p
    decreases k
  {
    if k <= 1 {
      OneSlotLeft(s, p, k);
      c := Done;
    } else {
      var j := SlotOf(s, p, k);
      var lower := ChoicesSurjective(Swap(s, k - 1, j), p, k - 1);
      c := Choose(j, lower);
    }
  }

  /** How many vectors of accepted draws for the positions below k turn s into p. */
  ghost function Ways<T>(limit: nat, s: seq<T>, p: seq<T>, k: nat): nat
    requires k <= |s| && k <= limit
    decreases k, 2
  {
    if k <= 1 then (if s == p then 1 else 0) else WaysBelow(limit, s, p, k, Cutoff(limit, k))
  }

  /** The vectors counted by Ways whose first draw is below n. */
  ghost function WaysBelow<T>(limit: nat, s: seq<T>, p: seq<T>, k: nat, n: nat): nat
    requires 2 <= k <= |s| && k <= limit
    decreases k, 1, n
  {
    if n == 0 then 0 else WaysBelow(limit, s, p, k, n - 1) + WaysVia(limit, s, p, k, Slot(n - 1, k))
  }

  ghost function WaysVia<T>(limit: nat, s: seq<T>, p: seq<T>, k: nat, slot: nat): nat
    requires 2 <= k <= |s| && k <= limit && slot < k
    decreases k, 0
  {
    Ways(limit, Swap(s, k - 1, slot), p, k - 1)
  }

  /** The product, over the positions below k, of accepted draws per slot. */
  ghost function EqualShare(limit: nat, k: nat): nat
    requires k <= limit
  {
    if k <= 1 then 1 else (Cutoff(limit, k) / k) * EqualShare(limit, k - 1)
  }

  lemma {:induction false} NoWayToOther<T>(limit: nat, s: seq<T>, p: seq<T>, k: nat, i: nat)
    requires k <= i < |s| == |p| && k <= limit && s[i] != p[i]
    ensures Ways(limit, s, p, k) == 0
    decreases k, 1, 0
  {
    if k >= 2 {
      NoWayBelow(limit, s, p, k, i, Cutoff(limit, k));
    }
  }

  lemma {:induction false} NoWayBelow<T>(limit: nat, s: seq<T>, p: seq<T>, k: nat, i: nat, n: nat)
    requires 2 <= k <= i < |s| == |p| && k <= limit && s[i] != p[i]
    ensures WaysBelow(limit, s, p, k, n) == 0
    decreases k, 0, n
  {
    if n > 0 {
      NoWayBelow(limit, s, p, k, i, n - 1);
      NoWayToOther(limit, Swap(s, k - 1, Slot(n - 1, k)), p, k - 1, i);
    }
  }

  /** Only the draws with residue j leave a way to p, and each leaves w of them. */
  ghost predicate OnlySlot<T>(limit: nat, s: seq<T>, p: seq<T>, k: nat, j: nat, w: nat)
    requires 2 <= k <= |s| && k <= limit
  {
    forall slot: nat | slot < k :: WaysVia(limit, s, p, k, slot) == if slot == j then w else 0
  }

  /** Of i consecutive draws starting at a multiple of k, the one with residue j counts. */
  lemma {:induction false} OneHitPerBlock<T>(limit: nat, s: seq<T>, p: seq<T>, k: nat, j: nat, w: nat, q: nat, i: nat)
    requires 2 <= k <= |s| && k <= limit && j < k && i <= k && OnlySlot(limit, s, p, k, j, w)
    ensures WaysBelow(limit, s, p, k, k * q + i) == WaysBelow(limit, s, p, k, k * q) + (if j < i then w else 0)
    decreases i
  {
    if i > 0 {
      OneHitPerBlock(limit, s, p, k, j, w, q, i - 1);
      QuotientUnique(k, q, i - 1);
      assert Slot(k * q + i - 1, k) == i - 1;
    }
  }

  /** Every residue is hit equally often below a multiple of k. */
  lemma {:induction false} ResiduesEquallyLikely<T>(limit: nat, s: seq<T>, p: seq<T>, k: nat, j: nat, w: nat, q: nat)
    requires 2 <= k <= |s| && k <= limit && j < k && OnlySlot(limit, s, p, k, j, w)
    ensures WaysBelow(limit, s, p, k, k * q) == q * w
    decreases q
  {
    if q > 0 {
      ResiduesEquallyLikely(limit, s, p, k, j, w, q - 1);
      OneHitPerBlock(limit, s, p, k, j, w, q - 1, k);
      assert k * (q - 1) + k == k * q && (q - 1) * w + w == q * w;
    }
  }

  /** Every arrangement of the participants arises from equally many vectors of accepted draws. */
  lemma {:induction false} ShuffleUnbiased<T>(limit: nat, s: seq<T>, p: seq<T>, k: nat)
    requires Reachable(s, p, k) && k <= limit
    ensures Ways(limit, s, p, k) == EqualShare(limit, k)
    decreases k
  {
    if k <= 1 {
      OneSlotLeft(s, p, k);
    } else {
      var j := SlotOf(s, p, k);
      var w := EqualShare(limit, k - 1);
      ShuffleUnbiased(limit, Swap(s, k - 1, j), p, k - 1);
      forall slot: nat | slot < k && slot != j ensures WaysVia(limit, s, p, k, slot) == 0 {
        NoWayToOther(limit, Swap(s, k - 1, slot), p, k - 1, k - 1);
      }
      assert OnlySlot(limit, s, p, k, j, w);
      CutoffInBlocks(limit, k);
      ResiduesEquallyLikely(limit, s, p, k, j, w, Cutoff(limit, k) / k);
    }
  }

  lemma CutoffInBlocks(limit: nat, k: nat)
    requires 0 < k <= limit
    ensures k * (Cutoff(limit, k) / k) == Cutoff(limit, k)
  {
  }
}
