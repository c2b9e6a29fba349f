/**
 * The static table of Golomb rulers (`GOLOMB_RULERS`, duplicated in
 * golomb_basic.py and golomb_enhanced.py) and the key-fallback rule of
 * `get_user_input`: an unregistered key is replaced by 5.
 */
module Rulers {

  /** The registered rulers, keyed by their number of marks. */
  const GolombRulers: map<int, seq<int>> := map[
    5 := [0, 1, 4, 9, 11],
    6 := [0, 1, 4, 10, 12, 17],
    7 := [0, 1, 4, 10, 18, 23, 25],
    8 := [0, 1, 4, 9, 15, 22, 32, 34]
  ]

  /** The key used when the requested one is not registered. */
  const DefaultKey: int := 5

  predicate StrictlyIncreasing(r: seq<int>)
  {
    forall i, j :: 0 <= i < j < |r| ==> r[i] < r[j]
  }

  /** The distance from mark a to a later mark b. */
  function Gap(r: seq<int>, a: nat, b: nat): int
    requires a < b < |r|
  {
    r[b] - r[a]
  }

  /** No two distinct pairs of marks are the same distance apart. */
  ghost predicate DistinctDifferences(r: seq<int>)
  {
    forall a: nat, b: nat, c: nat, d: nat :: a < b < |r| && c < d < |r| && Gap(r, a, b) == Gap(r, c, d) ==> a == c && b == d
  }

  /** A Golomb ruler in the source's sense: starts at 0, strictly increasing, all pairwise differences distinct. */
  ghost predicate IsGolombRuler(r: seq<int>)
  {
    |r| >= 1 && r[0] == 0 && StrictlyIncreasing(r) && DistinctDifferences(r)
  }

  /** The key `get_user_input` ends up with: the requested one if registered, otherwise 5. */
  function ResolveKey(n: int): (key: int)
    ensures key in GolombRulers
    ensures n in GolombRulers ==> key == n
    ensures n !in GolombRulers ==> key == DefaultKey
  {
    if n !in GolombRulers then DefaultKey else n
  }

  /** The ruler `get_user_input` returns for a requested key: the registered one with that many marks, or the 5-mark one. */
  function SelectRuler(n: int): (r: seq<int>)
    ensures n in GolombRulers ==> r == GolombRulers[n] && |r| == n
    ensures n !in GolombRulers ==> r == GolombRulers[DefaultKey] && |r| == 5
  {
    GolombRulers[ResolveKey(n)]
  }

  /** Whatever key is requested, the ruler obtained is a Golomb ruler with at least five marks. */
  lemma SelectedRulerIsGolomb(n: int)
    ensures IsGolombRuler(SelectRuler(n)) && |SelectRuler(n)| >= 5
  {
    TableRulersAreGolomb();
  }

  // A check of the Golomb property that the verifier can evaluate on a literal ruler.

  /** Pair (c, d) is at or after pair (k, l) in the order (0,1), (0,2), ..., (1,2), ... */
  predicate AtOrAfter(c: int, d: int, k: int, l: int)
  {
    c > k || (c == k && d >= l)
  }

  /** No pair (c, d) with c < d, at or after (k, l), is `diff` apart. */
  predicate NoPairFrom(r: seq<int>, diff: int, k: nat, l: nat)
    decreases |r| - k, |r| - l
  {
    if k >= |r| then true
    else if l >= |r| then NoPairFrom(r, diff, k + 1, k + 2)
    else r[l] - r[k] != diff && NoPairFrom(r, diff, k, l + 1)
  }

  /** Every pair at or after (i, j) has a difference that no later pair repeats. */
  predicate AllPairsFrom(r: seq<int>, i: nat, j: nat)
    decreases |r| - i, |r| - j
  {
    if i >= |r| then true
    else if j >= |r| then AllPairsFrom(r, i + 1, i + 2)
    else
      (if j + 1 < |r| then NoPairFrom(r, r[j] - r[i], i, j + 1) else NoPairFrom(r, r[j] - r[i], i + 1, i + 2))
      && AllPairsFrom(r, i, j + 1)
  }

  lemma {:induction false} NoPairFromSound(r: seq<int>, diff: int, k: nat, l: nat, c: nat, d: nat)
    requires NoPairFrom(r, diff, k, l)
    requires c < d < |r| && AtOrAfter(c, d, k, l)
    ensures r[d] - r[c] != diff
    decreases |r| - k, |r| - l
  {
    if k >= |r| {
    } else if l >= |r| {
      NoPairFromSound(r, diff, k + 1, k + 2, c, d);
    } else if c == k && d == l {
    } else {
      NoPairFromSound(r, diff, k, l + 1, c, d);
    }
  }

  lemma {:induction false} AllPairsFromSound(r: seq<int>, i: nat, j: nat, a: nat, b: nat, c: nat, d: nat)
    requires AllPairsFrom(r, i, j)
    requires a < b < |r| && c < d < |r| && AtOrAfter(a, b, i, j)
    requires AtOrAfter(c, d, a, b) && (c, d) != (a, b)
    ensures r[b] - r[a] != r[d] - r[c]
    decreases |r| - i, |r| - j
  {
    if i >= |r| {
    } else if j >= |r| {
      AllPairsFromSound(r, i + 1, i + 2, a, b, c, d);
    } else if a == i && b == j {
      if j + 1 < |r| {
        NoPairFromSound(r, r[j] - r[i], i, j + 1, c, d);
      } else {
        NoPairFromSound(r, r[j] - r[i], i + 1, i + 2, c, d);
      }
    } else {
      AllPairsFromSound(r, i, j + 1, a, b, c, d);
    }
  }

  /** Two different pairs of a ruler that passes the check are different distances apart. */
  lemma PairsApart(r: seq<int>, a: nat, b: nat, c: nat, d: nat)
    requires AllPairsFrom(r, 0, 1)
    requires a < b < |r| && c < d < |r| && (a != c || b != d)
    ensures r[b] - r[a] != r[d] - r[c]
  {
    if AtOrAfter(c, d, a, b) {
      AllPairsFromSound(r, 0, 1, a, b, c, d);
    } else {
      AllPairsFromSound(r, 0, 1, c, d, a, b);
    }
  }

  /** The evaluable check implies the Golomb property. */
  lemma AllPairsGolomb(r: seq<int>)
    requires AllPairsFrom(r, 0, 1)
    ensures DistinctDifferences(r)
  {
    forall a: nat, b: nat, c: nat, d: nat | a < b < |r| && c < d < |r| && Gap(r, a, b) == Gap(r, c, d)
      ensures a == c && b == d
    {
      if a != c || b != d {
        PairsApart(r, a, b, c, d);
      }
    }
  }

  /** Each mark is below the next one, checked from index i on. */
  predicate IncreasingFrom(r: seq<int>, i: nat)
    decreases |r| - i
  {
    i + 1 >= |r| || (r[i] < r[i + 1] && IncreasingFrom(r, i + 1))
  }

  lemma {:induction false} IncreasingFromSound(r: seq<int>, i: nat, a: nat, b: nat)
    requires IncreasingFrom(r, i)
    requires i <= a < b < |r|
    ensures r[a] < r[b]
    decreases |r| - i, b - a
  {
    if a > i {
      IncreasingFromSound(r, i + 1, a, b);
    } else if b == a + 1 {
    } else {
      IncreasingFromSound(r, i + 1, a + 1, b);
    }
  }

  /** A ruler that passes both evaluable checks and starts at 0 is a Golomb ruler. */
  lemma CheckedIsGolomb(r: seq<int>)
    requires |r| >= 1 && r[0] == 0 && IncreasingFrom(r, 0) && AllPairsFrom(r, 0, 1)
    ensures IsGolombRuler(r)
  {
    forall a, b | 0 <= a < b < |r|
      ensures r[a] < r[b]
    {
      IncreasingFromSound(r, 0, a, b);
    }
    AllPairsGolomb(r);
  }

  /** Every registered ruler starts at 0, is strictly increasing and has pairwise-distinct differences. */
  lemma TableRulersAreGolomb()
    ensures forall n :: n in GolombRulers ==> IsGolombRuler(GolombRulers[n]) && |GolombRulers[n]| == n
  {
    Ruler5();
    Ruler6();
    Ruler7();
    Ruler8();
  }

  /** Both evaluable checks pass on the 5-mark ruler. */
  lemma Ruler5Checked()
    ensures IncreasingFrom([0, 1, 4, 9, 11], 0) && AllPairsFrom([0, 1, 4, 9, 11], 0, 1)
  {
  }

  lemma Ruler5()
    ensures IsGolombRuler([0, 1, 4, 9, 11])
  {
    Ruler5Checked();
    CheckedIsGolomb([0, 1, 4, 9, 11]);
  }

  /** Both evaluable checks pass on the 6-mark ruler. */
  lemma Ruler6Checked()
    ensures IncreasingFrom([0, 1, 4, 10, 12, 17], 0) && AllPairsFrom([0, 1, 4, 10, 12, 17], 0, 1)
  {
  }

  lemma Ruler6()
    ensures IsGolombRuler([0, 1, 4, 10, 12, 17])
  {
    Ruler6Checked();
    CheckedIsGolomb([0, 1, 4, 10, 12, 17]);
  }

  /** The distinct-differences check on the 7-mark ruler, from its second mark on. */
  lemma Ruler7Later()
    ensures AllPairsFrom([0, 1, 4, 10, 18, 23, 25], 1, 2)
  {
  }

  /** Both evaluable checks pass on the 7-mark ruler. */
  lemma Ruler7Checked()
    ensures IncreasingFrom([0, 1, 4, 10, 18, 23, 25], 0) && AllPairsFrom([0, 1, 4, 10, 18, 23, 25], 0, 1)
  {
    Ruler7Later();
  }

  lemma Ruler7()
    ensures IsGolombRuler([0, 1, 4, 10, 18, 23, 25])
  {
    Ruler7Checked();
    CheckedIsGolomb([0, 1, 4, 10, 18, 23, 25]);
  }

  /** The distinct-differences check on the 8-mark ruler, from its fourth mark on. */
  lemma Ruler8Tail()
    ensures AllPairsFrom([0, 1, 4, 9, 15, 22, 32, 34], 3, 4)
  {
  }

  /** The distinct-differences check on the 8-mark ruler, from its second mark on. */
  lemma Ruler8Later()
    ensures AllPairsFrom([0, 1, 4, 9, 15, 22, 32, 34], 1, 2)
  {
    Ruler8Tail();
  }

  /** Both evaluable checks pass on the 8-mark ruler. */
  lemma Ruler8Checked()
    ensures IncreasingFrom([0, 1, 4, 9, 15, 22, 32, 34], 0) && AllPairsFrom([0, 1, 4, 9, 15, 22, 32, 34], 0, 1)
  {
    Ruler8Later();
  }

  lemma Ruler8()
    ensures IsGolombRuler([0, 1, 4, 9, 15, 22, 32, 34])
  {
    Ruler8Checked();
    CheckedIsGolomb([0, 1, 4, 9, 15, 22, 32, 34]);
  }
}
