/**
 The tally engine of xoldice.py: `createDataStructure` builds a lookup with
 keys 1..dice*sides all set to 0, and `populateLookupWithAll` walks every
 tuple of `itertools.product(range(1, sides + 1), repeat = dice)` and adds
 one to the entry for that tuple's sum.

 The tuples are defined by recursion on their length, and the count of a
 sum has an independent recursive definition, `Ways`.
 */
module Enumeration {
  import opened Wrappers

  /** The tally: sum of faces to number of outcomes. */
  type Tally = map<int, nat>

  function Sum(r: seq<int>): int
  {
    if |r| == 0 then 0 else r[0] + Sum(r[1..])
  }

  function Pow(b: int, e: nat): int
  {
    if e == 0 then 1 else b * Pow(b, e - 1)
  }

  /** One outcome: a face between 1 and `sides` for each of `n` dice. */
  predicate IsRoll(r: seq<int>, n: nat, sides: int)
  {
    |r| == n && forall i :: 0 <= i < |r| ==> 1 <= r[i] <= sides
  }

  /** Every outcome of `rest` with face `f` put in front. */
  function Prefix(f: int, rest: seq<seq<int>>): seq<seq<int>>
  {
    seq(|rest|, i requires 0 <= i < |rest| => [f] + rest[i])
  }

  /** The outcomes whose first face runs from `f` up to `sides`, in that order. */
  function FacesFrom(f: int, sides: int, rest: seq<seq<int>>, ghost m: nat): (os: seq<seq<int>>)
    requires 1 <= f
    requires forall j :: 0 <= j < |rest| ==> IsRoll(rest[j], m, sides)
    ensures |os| == if f <= sides then (sides - f + 1) * |rest| else 0
    ensures forall i :: 0 <= i < |os| ==> IsRoll(os[i], m + 1, sides)
    decreases sides - f + 1
  {
    if f > sides then []
    else
      var tail := FacesFrom(f + 1, sides, rest, m);
      assert |tail| == (sides - f) * |rest|;
      Prefix(f, rest) + tail
  }

  /** The tuples `itertools.product(range(1, sides + 1), repeat = n)` yields,
      in its lexicographic order. */
  function Outcomes(n: nat, sides: int): (os: seq<seq<int>>)
    ensures forall i :: 0 <= i < |os| ==> IsRoll(os[i], n, sides)
    ensures sides >= 0 ==> |os| == Pow(sides, n)
  {
    if n == 0 then [[]] else FacesFrom(1, sides, Outcomes(n - 1, sides), n - 1)
  }

  lemma {:induction false} FacesFromContains(f: int, sides: int, rest: seq<seq<int>>, m: nat, g: int, j: int)
    requires 1 <= f <= g <= sides
    requires forall k :: 0 <= k < |rest| ==> IsRoll(rest[k], m, sides)
    requires 0 <= j < |rest|
    ensures [g] + rest[j] in FacesFrom(f, sides, rest, m)
    decreases g - f
  {
    if f == g {
      assert Prefix(f, rest)[j] == [g] + rest[j];
    } else {
      FacesFromContains(f + 1, sides, rest, m, g, j);
    }
  }

  /** The enumeration is complete: every tuple of faces occurs. */
  lemma {:induction false} OutcomesComplete(n: nat, sides: int, r: seq<int>)
    requires IsRoll(r, n, sides)
    ensures r in Outcomes(n, sides)
  {
    if n > 0 {
      OutcomesComplete(n - 1, sides, r[1..]);
      var rest := Outcomes(n - 1, sides);
      var j :| 0 <= j < |rest| && rest[j] == r[1..];
      assert r == [r[0]] + rest[j];
      FacesFromContains(1, sides, rest, n - 1, r[0], j);
    }
  }

  /** Number of outcomes in `os` whose sum is `k`. */
  function CountSum(os: seq<seq<int>>, k: int): nat
  {
    if |os| == 0 then 0 else (if Sum(os[0]) == k then 1 else 0) + CountSum(os[1..], k)
  }

  /** Number of ways `n` dice with faces 1..`sides` add up to `s`: the
      number of faces for the first die, summed over what the rest must make. */
  function Ways(n: nat, sides: int, s: int): nat
    decreases n, 1, 0
  {
    if n == 0 then (if s == 0 then 1 else 0) else WaysFrom(1, n - 1, sides, s)
  }

  /** Sum over the first face `f`..`sides` of the ways `m` dice make the remainder. */
  function WaysFrom(f: int, m: nat, sides: int, s: int): nat
    decreases m + 1, 0, sides - f + 1
  {
    if f > sides then 0 else Ways(m, sides, s - f) + WaysFrom(f + 1, m, sides, s)
  }

  lemma {:induction false} CountConcat(a: seq<seq<int>>, b: seq<seq<int>>, k: int)
    ensures CountSum(a + b, k) == CountSum(a, k) + CountSum(b, k)
  {
    if |a| > 0 {
      assert (a + b)[0] == a[0];
      assert (a + b)[1..] == a[1..] + b;
      CountConcat(a[1..], b, k);
    } else {
      assert a + b == b;
    }
  }

  lemma {:induction false} CountPrefix(f: int, rest: seq<seq<int>>, k: int)
    ensures CountSum(Prefix(f, rest), k) == CountSum(rest, k - f)
  {
    if |rest| > 0 {
      var r := Prefix(f, rest)[0];
      assert r[1..] == rest[0];
      assert Sum(r) == f + Sum(rest[0]);
      assert Prefix(f, rest)[1..] == Prefix(f, rest[1..]);
      CountPrefix(f, rest[1..], k);
    }
  }

  lemma {:induction false} CountFacesFrom(f: int, sides: int, m: nat, k: int)
    requires 1 <= f
    requires forall s :: CountSum(Outcomes(m, sides), s) == Ways(m, sides, s)
    ensures CountSum(FacesFrom(f, sides, Outcomes(m, sides), m), k) == WaysFrom(f, m, sides, k)
    decreases sides - f + 1
  {
    if f <= sides {
      var rest := Outcomes(m, sides);
      CountConcat(Prefix(f, rest), FacesFrom(f + 1, sides, rest, m), k);
      CountPrefix(f, rest, k);
      CountFacesFrom(f + 1, sides, m, k);
    }
  }

  /** Each count is the number of face tuples with that sum. */
  lemma {:induction false} CountIsWays(n: nat, sides: int, k: int)
    ensures CountSum(Outcomes(n, sides), k) == Ways(n, sides, k)
  {
    if n > 0 {
      var m: nat := n - 1;
      forall s ensures CountSum(Outcomes(m, sides), s) == Ways(m, sides, s) {
        CountIsWays(m, sides, s);
      }
      CountFacesFrom(1, sides, m, k);
    }
  }

  lemma {:induction false} WaysFromAtLeast(g: int, m: nat, sides: int, s: int, f: int)
    requires g <= f <= sides
    ensures WaysFrom(g, m, sides, s) >= Ways(m, sides, s - f)
    decreases f - g
  {
    if g < f {
      WaysFromAtLeast(g + 1, m, sides, s, f);
    }
  }

  /** Every sum from `n` to `n*sides` can be thrown, so no count in that
      range is left at its initial 0. */
  lemma {:induction false} WaysPositive(n: nat, sides: int, s: int)
    requires n >= 1 && sides >= 1 && n <= s <= n * sides
    ensures Ways(n, sides, s) > 0
  {
    if n == 1 {
      OneDie(sides, s);
    } else {
      var m: nat := n - 1;
      var f := FirstFace(m, sides, s);
      WaysPositive(m, sides, s - f);
      WaysFromAtLeast(1, m, sides, s, f);
    }
  }

  /** A first face that leaves the other `m` dice a reachable remainder. */
  lemma FirstFace(m: nat, sides: int, s: int) returns (f: int)
    requires m >= 1 && sides >= 1 && m + 1 <= s <= (m + 1) * sides
    ensures 1 <= f <= sides && m <= s - f <= m * sides
  {
    var ms := m * sides;
    assert ms + sides == (m + 1) * sides;
    assert ms >= m;
    f := if s - ms > 1 then s - ms else 1;
  }

  /** Every outcome of `n` dice sums to between `n` and `n*sides`. */
  lemma {:induction false} SumBounds(r: seq<int>, n: nat, sides: int)
    requires IsRoll(r, n, sides)
    ensures n <= Sum(r) <= n * sides
  {
    if n > 0 {
      assert IsRoll(r[1..], n - 1, sides);
      SumBounds(r[1..], n - 1, sides);
    }
  }

  /** The keys 1..`top`, as `range(1, top + 1)` produces them. */
  function Keys(top: int): (ks: set<int>)
    ensures forall k :: k in ks <==> 1 <= k <= top
    decreases top
  {
    if top < 1 then {} else Keys(top - 1) + {top}
  }

  /** `createDataStructure`: keys 1..`top`, every count 0. */
  function InitialTally(top: int): (t: Tally)
    ensures forall k :: k in t <==> 1 <= k <= top
    ensures forall k :: k in t ==> t[k] == 0
  {
    map k | k in Keys(top) :: 0
  }

  /** The loop of `populateLookupWithAll`: add one to the entry for each
      outcome's sum, or fail as Python's KeyError would when a sum has no entry. */
  function Populate(t: Tally, os: seq<seq<int>>): (r: Option<Tally>)
    ensures r.Some? <==> forall i :: 0 <= i < |os| ==> Sum(os[i]) in t
    ensures r.Some? ==> r.value.Keys == t.Keys
    ensures r.Some? ==> forall k :: k in t ==> r.value[k] == t[k] + CountSum(os, k)
  {
    if |os| == 0 then Some(t)
    else
      var s := Sum(os[0]);
      if s !in t then None
      else
        var r := Populate(t[s := t[s] + 1], os[1..]);
        assert r.Some? <==> forall i :: 1 <= i < |os| ==> Sum(os[i]) in t by {
          assert forall i :: 1 <= i < |os| ==> os[1..][i - 1] == os[i];
        }
        r
  }

  /** `createDataStructure` followed by `populateLookupWithAll`. */
  function Enumerate(dice: nat, sides: int): (r: Option<Tally>)
    ensures r.Some? ==> forall k :: k in r.value <==> 1 <= k <= dice * sides
  {
    Populate(InitialTally(dice * sides), Outcomes(dice, sides))
  }

  /** Total of the counts for keys `lo`..`hi`. */
  function Mass(t: Tally, lo: int, hi: int): nat
    requires forall k :: lo <= k <= hi ==> k in t
    decreases hi - lo + 1
  {
    if lo > hi then 0 else t[lo] + Mass(t, lo + 1, hi)
  }

  lemma {:induction false} MassBump(t: Tally, x: int, lo: int, hi: int)
    requires forall k :: lo <= k <= hi ==> k in t
    requires lo <= x <= hi
    ensures Mass(t[x := t[x] + 1], lo, hi) == Mass(t, lo, hi) + 1
    decreases hi - lo + 1
  {
    if lo < x {
      MassBump(t, x, lo + 1, hi);
    } else {
      MassUnchanged(t, t[x := t[x] + 1], lo + 1, hi);
    }
  }

  lemma {:induction false} MassUnchanged(t: Tally, u: Tally, lo: int, hi: int)
    requires forall k :: lo <= k <= hi ==> k in t && k in u && t[k] == u[k]
    ensures Mass(t, lo, hi) == Mass(u, lo, hi)
    decreases hi - lo + 1
  {
    if lo <= hi {
      MassUnchanged(t, u, lo + 1, hi);
    }
  }

  lemma {:induction false} MassZero(t: Tally, lo: int, hi: int)
    requires forall k :: lo <= k <= hi ==> k in t && t[k] == 0
    ensures Mass(t, lo, hi) == 0
    decreases hi - lo + 1
  {
    if lo <= hi {
      MassZero(t, lo + 1, hi);
    }
  }

  /** Each outcome adds exactly one to the total when its sum has an entry. */
  lemma {:induction false} PopulateMass(t: Tally, os: seq<seq<int>>, lo: int, hi: int)
    requires forall k :: lo <= k <= hi ==> k in t
    requires forall i :: 0 <= i < |os| ==> lo <= Sum(os[i]) <= hi
    ensures Populate(t, os).Some?
    ensures Mass(Populate(t, os).value, lo, hi) == Mass(t, lo, hi) + |os|
  {
    if |os| > 0 {
      var s := Sum(os[0]);
      var u := t[s := t[s] + 1];
      assert forall i :: 0 <= i < |os[1..]| ==> os[1..][i] == os[i + 1];
      PopulateMass(u, os[1..], lo, hi);
      MassBump(t, s, lo, hi);
    }
  }

  /** Every increment hits an existing key, and the tally's keys are exactly 1..dice*sides. */
  lemma EnumerateHitsKeys(dice: nat, sides: int)
    requires dice >= 1
    ensures Enumerate(dice, sides).Some?
    ensures forall k :: k in Enumerate(dice, sides).value <==> 1 <= k <= dice * sides
  {
    var os := Outcomes(dice, sides);
    forall i | 0 <= i < |os| ensures 1 <= Sum(os[i]) <= dice * sides {
      SumBounds(os[i], dice, sides);
    }
  }

  lemma EnumerateCount(dice: nat, sides: int, k: int)
    requires dice >= 1 && 1 <= k <= dice * sides
    ensures Enumerate(dice, sides).Some?
    ensures Enumerate(dice, sides).value[k] == CountSum(Outcomes(dice, sides), k)
  {
    EnumerateHitsKeys(dice, sides);
  }

  /** Each count is the number of ways to throw that sum. */
  lemma TallyCounts(dice: nat, sides: int)
    requires dice >= 1
    ensures Enumerate(dice, sides).Some?
    ensures forall k :: 1 <= k <= dice * sides ==> Enumerate(dice, sides).value[k] == Ways(dice, sides, k)
  {
    EnumerateHitsKeys(dice, sides);
    forall k | 1 <= k <= dice * sides ensures Enumerate(dice, sides).value[k] == Ways(dice, sides, k) {
      EnumerateCount(dice, sides, k);
      CountIsWays(dice, sides, k);
    }
  }

  /** Sums below the number of dice cannot be thrown and keep count 0. */
  lemma TallyZeroBelowDice(dice: nat, sides: int)
    requires dice >= 1 && sides >= 1
    ensures Enumerate(dice, sides).Some?
    ensures forall k :: 1 <= k < dice ==> Enumerate(dice, sides).value[k] == 0
  {
    EnumerateHitsKeys(dice, sides);
    assert dice <= dice * sides;
    forall k | 1 <= k < dice ensures Enumerate(dice, sides).value[k] == 0 {
      EnumerateCount(dice, sides, k);
      CountIsWays(dice, sides, k);
      WaysZeroBelow(dice, sides, k);
    }
  }

  lemma {:induction false} NoSumBelow(os: seq<seq<int>>, n: nat, sides: int, k: int)
    requires forall i :: 0 <= i < |os| ==> IsRoll(os[i], n, sides)
    requires k < n
    ensures CountSum(os, k) == 0
  {
    if |os| > 0 {
      SumBounds(os[0], n, sides);
      NoSumBelow(os[1..], n, sides, k);
    }
  }

  /** No throw of `n` dice sums to less than `n`. */
  lemma WaysZeroBelow(n: nat, sides: int, s: int)
    requires s < n
    ensures Ways(n, sides, s) == 0
  {
    CountIsWays(n, sides, s);
    NoSumBelow(Outcomes(n, sides), n, sides, s);
  }

  /** The counts add up to sides^dice, the number of ordered outcomes. */
  lemma TallyMass(dice: nat, sides: int)
    requires dice >= 1 && sides >= 0
    ensures Enumerate(dice, sides).Some?
    ensures Mass(Enumerate(dice, sides).value, 1, dice * sides) == Pow(sides, dice)
  {
    var os := Outcomes(dice, sides);
    forall i | 0 <= i < |os| ensures 1 <= Sum(os[i]) <= dice * sides {
      SumBounds(os[i], dice, sides);
    }
    var t := InitialTally(dice * sides);
    PopulateMass(t, os, 1, dice * sides);
    MassZero(t, 1, dice * sides);
  }

  /** With no dice the product yields one empty tuple whose sum 0 has no
      entry, so the lookup would raise KeyError; validation rules this out. */
  lemma NoDiceFails(sides: int)
    ensures Enumerate(0, sides) == None
  {
    assert Sum(Outcomes(0, sides)[0]) == 0;
  }

  lemma {:induction false} OneDieFrom(f: int, sides: int, t: int)
    ensures WaysFrom(f, 0, sides, t) == if f <= t <= sides then 1 else 0
    decreases sides - f + 1
  {
    if f <= sides {
      OneDieFrom(f + 1, sides, t);
    }
  }

  /** One die makes each of its faces in exactly one way. */
  lemma OneDie(sides: int, t: int)
    ensures Ways(1, sides, t) == if 1 <= t <= sides then 1 else 0
  {
    OneDieFrom(1, sides, t);
  }

  function Max(a: int, b: int): int { if a < b then b else a }
  function Min(a: int, b: int): int { if a < b then a else b }

  lemma {:induction false} TwoDiceFrom(f: int, sides: int, s: int)
    requires 1 <= f
    ensures WaysFrom(f, 1, sides, s) == Max(0, Min(sides, s - 1) - Max(f, s - sides) + 1)
    decreases sides - f + 1
  {
    if f <= sides {
      OneDie(sides, s - f);
      TwoDiceFrom(f + 1, sides, s);
    }
  }

  /** Two dice: the count rises by one per sum up to sides+1 and falls symmetrically after it. */
  lemma TwoDice(sides: int, s: int)
    requires sides >= 1
    ensures Ways(2, sides, s) ==
              if 2 <= s <= sides + 1 then s - 1
              else if sides + 1 < s <= 2 * sides then 2 * sides + 1 - s
              else 0
  {
    TwoDiceFrom(1, sides, s);
  }

  /** The documented example: two six-sided dice make 6 in five ways, and
      the eleven reachable sums have counts 1,2,3,4,5,6,5,4,3,2,1. */
  lemma TwoSixSidedDice()
    ensures Ways(2, 6, 6) == 5
    ensures Ways(2, 6, 1) == 0 && Ways(2, 6, 2) == 1 && Ways(2, 6, 3) == 2 && Ways(2, 6, 4) == 3
    ensures Ways(2, 6, 5) == 4 && Ways(2, 6, 7) == 6 && Ways(2, 6, 8) == 5 && Ways(2, 6, 9) == 4
    ensures Ways(2, 6, 10) == 3 && Ways(2, 6, 11) == 2 && Ways(2, 6, 12) == 1
  {
    TwoDice(6, 1); TwoDice(6, 2); TwoDice(6, 3); TwoDice(6, 4);
    TwoDice(6, 5); TwoDice(6, 6); TwoDice(6, 7); TwoDice(6, 8);
    TwoDice(6, 9); TwoDice(6, 10); TwoDice(6, 11); TwoDice(6, 12);
  }
}
