/**
 Ordering of the 'all' table in `printResults`: the tally's items are passed
 to Python's `sorted`, keyed on the sum or on the count, with
 `reverse = not --reversed`. Python's sort is stable, also when reversed, so
 rows with equal keys keep the order they had among the items.
 */
module Ordering {

  /** One item of the tally: a sum and the number of outcomes that make it. */
  datatype Row = Row(sum: int, outcomes: nat)

  /** The sort key: `x[1]` with --sort-by-outcome, else `x[0]`. */
  function Key(r: Row, byOutcome: bool): int
  {
    if byOutcome then r.outcomes else r.sum
  }

  /** `a` may stand before `b`: its key is no smaller when descending, no larger when ascending. */
  predicate InOrder(a: Row, b: Row, byOutcome: bool, descending: bool)
  {
    if descending then Key(a, byOutcome) >= Key(b, byOutcome) else Key(a, byOutcome) <= Key(b, byOutcome)
  }

  predicate Ordered(rs: seq<Row>, byOutcome: bool, descending: bool)
  {
    forall i, j :: 0 <= i < j < |rs| ==> InOrder(rs[i], rs[j], byOutcome, descending)
  }

  /** Rows whose sums strictly increase, as the tally's items do. */
  predicate AscendingSums(rs: seq<Row>)
  {
    forall i, j :: 0 <= i < j < |rs| ==> rs[i].sum < rs[j].sum
  }

  /** Rows with equal keys appear in ascending order of their sums. */
  predicate TiesBySum(rs: seq<Row>, byOutcome: bool)
  {
    forall i, j :: 0 <= i < j < |rs| && Key(rs[i], byOutcome) == Key(rs[j], byOutcome) ==> rs[i].sum < rs[j].sum
  }

  /** Put `x` in front of the first row it may stand before, so that it
      stays ahead of the rows with an equal key. */
  function Insert(x: Row, rs: seq<Row>, byOutcome: bool, descending: bool): (r: seq<Row>)
    ensures multiset(r) == multiset(rs) + multiset{x}
  {
    if |rs| == 0 then [x]
    else if InOrder(x, rs[0], byOutcome, descending) then [x] + rs
    else
      assert rs == [rs[0]] + rs[1..];
      [rs[0]] + Insert(x, rs[1..], byOutcome, descending)
  }

  /** `sorted(items, key = Key, reverse = descending)`, as a stable insertion
      sort; the ordering it achieves is stated by `SortRowsOrdered`. */
  function SortRows(rs: seq<Row>, byOutcome: bool, descending: bool): (r: seq<Row>)
    ensures multiset(r) == multiset(rs)
  {
    if |rs| == 0 then []
    else
      assert rs == [rs[0]] + rs[1..];
      Insert(rs[0], SortRows(rs[1..], byOutcome, descending), byOutcome, descending)
  }

  lemma ConsOrdered(h: Row, t: seq<Row>, byOutcome: bool, descending: bool)
    requires Ordered(t, byOutcome, descending)
    requires forall y :: y in t ==> InOrder(h, y, byOutcome, descending)
    ensures Ordered([h] + t, byOutcome, descending)
  {
    var r := [h] + t;
    forall i, j | 0 <= i < j < |r| ensures InOrder(r[i], r[j], byOutcome, descending) {
      assert r[j] == t[j - 1];
      if i > 0 {
        assert r[i] == t[i - 1];
      }
    }
  }

  lemma ConsTies(h: Row, t: seq<Row>, byOutcome: bool)
    requires TiesBySum(t, byOutcome)
    requires forall y :: y in t && Key(h, byOutcome) == Key(y, byOutcome) ==> h.sum < y.sum
    ensures TiesBySum([h] + t, byOutcome)
  {
    var r := [h] + t;
    forall i, j | 0 <= i < j < |r| && Key(r[i], byOutcome) == Key(r[j], byOutcome) ensures r[i].sum < r[j].sum {
      assert r[j] == t[j - 1];
      if i > 0 {
        assert r[i] == t[i - 1];
      }
    }
  }

  lemma TailOrdered(rs: seq<Row>, byOutcome: bool, descending: bool)
    requires |rs| > 0 && Ordered(rs, byOutcome, descending)
    ensures Ordered(rs[1..], byOutcome, descending)
  {
    var t := rs[1..];
    forall i, j | 0 <= i < j < |t| ensures InOrder(t[i], t[j], byOutcome, descending) {
      assert t[i] == rs[i + 1] && t[j] == rs[j + 1];
    }
  }

  lemma TailTies(rs: seq<Row>, byOutcome: bool)
    requires |rs| > 0 && TiesBySum(rs, byOutcome)
    ensures TiesBySum(rs[1..], byOutcome)
  {
    var t := rs[1..];
    forall i, j | 0 <= i < j < |t| && Key(t[i], byOutcome) == Key(t[j], byOutcome) ensures t[i].sum < t[j].sum {
      assert t[i] == rs[i + 1] && t[j] == rs[j + 1];
    }
  }

  /** Inserting into an ordered sequence keeps it ordered. */
  lemma {:induction false} InsertOrdered(x: Row, rs: seq<Row>, byOutcome: bool, descending: bool)
    requires Ordered(rs, byOutcome, descending)
    ensures Ordered(Insert(x, rs, byOutcome, descending), byOutcome, descending)
  {
    if |rs| == 0 {
    } else if InOrder(x, rs[0], byOutcome, descending) {
      forall y | y in rs ensures InOrder(x, y, byOutcome, descending) {
        var k :| 0 <= k < |rs| && rs[k] == y;
        if k > 0 {
          assert InOrder(rs[0], rs[k], byOutcome, descending);
        }
      }
      ConsOrdered(x, rs, byOutcome, descending);
    } else {
      var h, t := rs[0], rs[1..];
      TailOrdered(rs, byOutcome, descending);
      InsertOrdered(x, t, byOutcome, descending);
      var tail := Insert(x, t, byOutcome, descending);
      forall y | y in tail ensures InOrder(h, y, byOutcome, descending) {
        assert y in multiset(tail);
        if y != x {
          var k :| 0 <= k < |t| && t[k] == y;
          assert rs[k + 1] == y;
        }
      }
      ConsOrdered(h, tail, byOutcome, descending);
    }
  }

  /** When `x` has a smaller sum than every row, inserting it keeps rows
      with equal keys in ascending order of sum. */
  lemma {:induction false} InsertTies(x: Row, rs: seq<Row>, byOutcome: bool, descending: bool)
    requires TiesBySum(rs, byOutcome)
    requires forall y :: y in rs ==> x.sum < y.sum
    ensures TiesBySum(Insert(x, rs, byOutcome, descending), byOutcome)
  {
    if |rs| == 0 {
    } else if InOrder(x, rs[0], byOutcome, descending) {
      ConsTies(x, rs, byOutcome);
    } else {
      var h, t := rs[0], rs[1..];
      TailTies(rs, byOutcome);
      InsertTies(x, t, byOutcome, descending);
      var tail := Insert(x, t, byOutcome, descending);
      assert Insert(x, rs, byOutcome, descending) == [h] + tail;
      forall y | y in tail && Key(h, byOutcome) == Key(y, byOutcome) ensures h.sum < y.sum {
        assert y in multiset(tail);
        if y == x {
          assert false;
        }
        var k :| 0 <= k < |t| && t[k] == y;
        assert rs[k + 1] == y;
      }
      ConsTies(h, tail, byOutcome);
    }
  }

  /** The sorted rows are ordered by the chosen key in the chosen direction,
      and, when the input rows have ascending sums as the tally's items do,
      rows with equal keys keep that ascending order (stability). */
  lemma {:induction false} SortRowsOrdered(rs: seq<Row>, byOutcome: bool, descending: bool)
    ensures Ordered(SortRows(rs, byOutcome, descending), byOutcome, descending)
    ensures AscendingSums(rs) ==> TiesBySum(SortRows(rs, byOutcome, descending), byOutcome)
  {
    if |rs| > 0 {
      var t := rs[1..];
      SortRowsOrdered(t, byOutcome, descending);
      var sorted := SortRows(t, byOutcome, descending);
      InsertOrdered(rs[0], sorted, byOutcome, descending);
      if AscendingSums(rs) {
        assert AscendingSums(t) by {
          forall i, j | 0 <= i < j < |t| ensures t[i].sum < t[j].sum {
            assert t[i] == rs[i + 1] && t[j] == rs[j + 1];
          }
        }
        forall y | y in sorted ensures rs[0].sum < y.sum {
          assert y in multiset(t);
          var k :| 0 <= k < |t| && t[k] == y;
          assert rs[k + 1] == y;
        }
        InsertTies(rs[0], sorted, byOutcome, descending);
      }
    }
  }

  /** Two ordered, tie-sorted permutations of the same non-empty rows start with the same row. */
  lemma SameFirst(a: seq<Row>, b: seq<Row>, byOutcome: bool, descending: bool)
    requires |a| > 0 && multiset(a) == multiset(b)
    requires Ordered(a, byOutcome, descending) && TiesBySum(a, byOutcome)
    requires Ordered(b, byOutcome, descending) && TiesBySum(b, byOutcome)
    ensures |b| > 0 && a[0] == b[0]
  {
    assert a[0] in multiset(b);
    var k :| 0 <= k < |b| && b[k] == a[0];
    assert b[0] in multiset(a);
    var m :| 0 <= m < |a| && a[m] == b[0];
    if k != 0 && m != 0 {
      assert false;
    }
  }

  lemma TailMultiset(a: seq<Row>, b: seq<Row>)
    requires |a| > 0 && |b| > 0 && a[0] == b[0] && multiset(a) == multiset(b)
    ensures multiset(a[1..]) == multiset(b[1..])
  {
    assert a == [a[0]] + a[1..];
    assert b == [b[0]] + b[1..];
    assert multiset(a[1..]) == multiset(a) - multiset{a[0]};
    assert multiset(b[1..]) == multiset(b) - multiset{b[0]};
  }

  /** Sorting by one key is fully determined: two permutations of the same
      rows that are both ordered and break ties by ascending sum are equal. */
  lemma {:induction false} SortedIsUnique(a: seq<Row>, b: seq<Row>, byOutcome: bool, descending: bool)
    requires multiset(a) == multiset(b)
    requires Ordered(a, byOutcome, descending) && TiesBySum(a, byOutcome)
    requires Ordered(b, byOutcome, descending) && TiesBySum(b, byOutcome)
    ensures a == b
  {
    if |a| == 0 {
      assert |b| == |multiset(b)| == 0;
    } else {
      SameFirst(a, b, byOutcome, descending);
      TailMultiset(a, b);
      assert a == [a[0]] + a[1..];
      assert b == [b[0]] + b[1..];
      TailOrdered(a, byOutcome, descending);
      TailOrdered(b, byOutcome, descending);
      TailTies(a, byOutcome);
      TailTies(b, byOutcome);
      SortedIsUnique(a[1..], b[1..], byOutcome, descending);
    }
  }
}
