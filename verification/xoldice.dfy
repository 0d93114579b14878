/**
 The whole run of xoldice.py with its printing peeled away: validate the
 arguments, enumerate the tally, and select either the single count for a
 numeric `<value>` or every row, sorted, for 'all'.
 */
module XolDice {
  import opened Wrappers
  import opened Validation
  import opened Enumeration
  import opened Ordering

  /** The sorting flags: -O/--sort-by-outcome and -R/--reversed. The -V flag
      is the default and the -c flag only prints progress. */
  datatype Flags = Flags(sortByOutcome: bool, reversed: bool)

  /** What a run ends in, in place of `printResults`' type test on its argument. */
  datatype Report =
    | Crashed
    | Failed(code: ErrorCode)
    | AllOutcomes(rows: seq<Row>)
    | SingleCount(value: int, count: nat)

  /** `lookup.items()`: one row per key, in the ascending insertion order of
      `createDataStructure`. */
  function Items(t: Tally, lo: int, hi: int): (rs: seq<Row>)
    requires forall k :: lo <= k <= hi ==> k in t
    ensures |rs| == if lo <= hi then hi - lo + 1 else 0
    ensures forall i :: 0 <= i < |rs| ==> rs[i] == Row(lo + i, t[lo + i])
    decreases hi - lo + 1
  {
    if lo > hi then [] else [Row(lo, t[lo])] + Items(t, lo + 1, hi)
  }

  /** The reference table: for each sum 1..dice*sides, the number of ways to throw it. */
  function WaysRows(dice: nat, sides: int): (rs: seq<Row>)
    requires dice * sides >= 0
  {
    seq(dice * sides, i requires 0 <= i < dice * sides => Row(i + 1, Ways(dice, sides, i + 1)))
  }

  /** The tally's items are the reference table, in ascending order of sum. */
  lemma ItemsAreWaysRows(dice: nat, sides: int)
    requires dice >= 1 && sides >= 1
    ensures Enumerate(dice, sides).Some?
    ensures Items(Enumerate(dice, sides).value, 1, dice * sides) == WaysRows(dice, sides)
    ensures AscendingSums(WaysRows(dice, sides))
  {
    TallyCounts(dice, sides);
    EnumerateHitsKeys(dice, sides);
    var t := Enumerate(dice, sides).value;
    var items := Items(t, 1, dice * sides);
    var w := WaysRows(dice, sides);
    assert |items| == |w|;
    forall i | 0 <= i < |w| ensures items[i] == w[i] {
      assert items[i] == Row(1 + i, t[1 + i]);
    }
  }

  /** One invocation, from the parsed arguments to the report. */
  function Run(args: Args, flags: Flags): (rep: Report)
    ensures rep.Crashed? <==> args.dice.Some? && args.sides.Some? && ParseValue(args.value).Invalid?
    ensures rep.Failed? <==> Validate(args).Exit?
    ensures rep.Failed? ==> rep.code == Decisive(args)
    ensures rep.AllOutcomes? || rep.SingleCount? ==>
              args.dice.Some? && args.sides.Some? &&
              Admissible(args.dice.value, args.sides.value, ParseValue(args.value))
    ensures rep.AllOutcomes? <==> Validate(args).Proceed? && ParseValue(args.value).All?
    ensures rep.AllOutcomes? ==>
              && multiset(rep.rows) == multiset(WaysRows(args.dice.value, args.sides.value))
              && Ordered(rep.rows, flags.sortByOutcome, !flags.reversed)
              && TiesBySum(rep.rows, flags.sortByOutcome)
    ensures rep.SingleCount? ==>
              && ParseValue(args.value) == Number(rep.value)
              && rep.count == Ways(args.dice.value, args.sides.value, rep.value)
  {
    match Validate(args)
    case Crash => Crashed
    case Exit(e) => Failed(e)
    case Proceed(d, s, v) =>
      TallyCounts(d, s);
      var t := Enumerate(d, s).value;
      if v.All? then
        ItemsAreWaysRows(d, s);
        var items := Items(t, 1, d * s);
        SortRowsOrdered(items, flags.sortByOutcome, !flags.reversed);
        AllOutcomes(SortRows(items, flags.sortByOutcome, !flags.reversed))
      else
        SingleCount(v.n, t[v.n])
  }

  /** The process exit status: the recorded code, 1 for Python's uncaught
      TypeError, and 0 after printing a result. */
  function ExitStatus(rep: Report): (status: int)
    ensures status == 0 <==> rep.AllOutcomes? || rep.SingleCount?
    ensures rep.Failed? ==> status == Code(rep.code)
  {
    CodesAreDistinctNonzero();
    match rep
    case Crashed => 1
    case Failed(e) => Code(e)
    case _ => 0
  }

  /** A numeric value below the number of dice is accepted and answered with 0. */
  lemma SmallValueCountsZero(dice: int, sides: int, value: int, text: string, flags: Flags)
    requires dice >= 2 && sides >= 3 && 1 <= value < dice
    requires !SpellsAll(text)
    ensures Run(Args(Some(dice), Some(sides), RawValue(text, Some(value))), flags) == SingleCount(value, 0)
  {
    var args := Args(Some(dice), Some(sides), RawValue(text, Some(value)));
    assert dice <= dice * sides;
    assert Validate(args).Proceed?;
    WaysZeroBelow(dice, sides, value);
  }

  /** `xoldice.py 2 6 6` answers "5 outcome(s) yields the value 6." */
  lemma ExampleTwoDiceSix()
    ensures Run(Args(Some(2), Some(6), RawValue("6", Some(6))), Flags(false, false)) == SingleCount(6, 5)
  {
    TwoDice(6, 6);
  }

  /** The table for two six-sided dice, in ascending order of sum. */
  function TwoSixTable(): seq<Row>
  {
    [Row(1, 0), Row(2, 1), Row(3, 2), Row(4, 3), Row(5, 4), Row(6, 5),
     Row(7, 6), Row(8, 5), Row(9, 4), Row(10, 3), Row(11, 2), Row(12, 1)]
  }

  /** The two-dice table in closed form: the count rises by one from sum 2
      up to `sides + 1` and falls by one after it. */
  function Triangle(sides: int): (rs: seq<Row>)
    requires sides >= 1
    ensures |rs| == 2 * sides
  {
    seq(2 * sides, i requires 0 <= i < 2 * sides => Row(i + 1, if i <= sides then i else 2 * sides - i))
  }

  /** For two dice, every row of the table follows the closed form. */
  lemma TwoDiceRows(sides: int)
    requires sides >= 1
    ensures WaysRows(2, sides) == Triangle(sides)
  {
    var w, t := WaysRows(2, sides), Triangle(sides);
    forall i | 0 <= i < 2 * sides
      ensures w[i] == t[i]
    {
      TwoDice(sides, i + 1);
    }
  }

  lemma TriangleSix(s: int)
    requires s == 6
    ensures Triangle(s)[..6] == TableLow()
    ensures Triangle(s)[6..] == TableHigh()
  {
  }

  lemma TwoSixRowsAt(d: nat, s: int)
    requires d == 2 && s == 6
    ensures WaysRows(d, s) == TwoSixTable()
  {
    var t := Triangle(s);
    TwoDiceRows(s);
    TriangleSix(s);
    TableSplits();
    assert t == t[..6] + t[6..];
  }

  // Pieces of the two-dice table and of the expected listings, kept apart so
  // that every multiset comparison below stays small.
  function TableLow(): seq<Row> { [Row(1, 0), Row(2, 1), Row(3, 2), Row(4, 3), Row(5, 4), Row(6, 5)] }
  function TableHigh(): seq<Row> { [Row(7, 6), Row(8, 5), Row(9, 4), Row(10, 3), Row(11, 2), Row(12, 1)] }
  function TableFirst3(): seq<Row> { [Row(1, 0), Row(2, 1), Row(3, 2)] }
  function TableMid4to9(): seq<Row> { [Row(4, 3), Row(5, 4), Row(6, 5), Row(7, 6), Row(8, 5), Row(9, 4)] }
  function TableLast3(): seq<Row> { [Row(10, 3), Row(11, 2), Row(12, 1)] }
  function TableFirst4(): seq<Row> { [Row(1, 0), Row(2, 1), Row(3, 2), Row(4, 3)] }
  function TableMid5to10(): seq<Row> { [Row(5, 4), Row(6, 5), Row(7, 6), Row(8, 5), Row(9, 4), Row(10, 3)] }
  function TableLast2(): seq<Row> { [Row(11, 2), Row(12, 1)] }
  function DescFront(): seq<Row> { [Row(12, 1), Row(11, 2), Row(10, 3), Row(9, 4), Row(8, 5), Row(7, 6)] }
  function DescBack(): seq<Row> { [Row(6, 5), Row(5, 4), Row(4, 3), Row(3, 2), Row(2, 1), Row(1, 0)] }
  function ByOutcomeFront(): seq<Row> { [Row(7, 6), Row(6, 5), Row(8, 5), Row(5, 4), Row(9, 4), Row(4, 3)] }
  function ByOutcomeBack(): seq<Row> { [Row(10, 3), Row(3, 2), Row(11, 2), Row(2, 1), Row(12, 1), Row(1, 0)] }
  function ByOutcomeReversedFront(): seq<Row> { [Row(1, 0), Row(2, 1), Row(12, 1), Row(3, 2), Row(11, 2), Row(4, 3)] }
  function ByOutcomeReversedBack(): seq<Row> { [Row(10, 3), Row(5, 4), Row(9, 4), Row(6, 5), Row(8, 5), Row(7, 6)] }

  lemma TableSplits()
    ensures TwoSixTable() == TableLow() + TableHigh()
    ensures TwoSixTable() == TableFirst3() + TableMid4to9() + TableLast3()
    ensures TwoSixTable() == TableFirst4() + TableMid5to10() + TableLast2()
  {
  }

  lemma DescFrontPerm() ensures multiset(DescFront()) == multiset(TableHigh()) {}
  lemma DescBackPerm() ensures multiset(DescBack()) == multiset(TableLow()) {}
  lemma ByOutcomeFrontPerm() ensures multiset(ByOutcomeFront()) == multiset(TableMid4to9()) {}
  lemma ByOutcomeBackPerm()
    ensures multiset(ByOutcomeBack()) == multiset(TableFirst3()) + multiset(TableLast3())
  {
    assert multiset(TableFirst3()) + multiset(TableLast3()) == multiset(TableFirst3() + TableLast3());
  }
  lemma ByOutcomeReversedBackPerm() ensures multiset(ByOutcomeReversedBack()) == multiset(TableMid5to10()) {}
  lemma ByOutcomeReversedFrontPerm()
    ensures multiset(ByOutcomeReversedFront()) == multiset(TableFirst4()) + multiset(TableLast2())
  {
    assert multiset(TableFirst4()) + multiset(TableLast2()) == multiset(TableFirst4() + TableLast2());
  }

  lemma CombineTwo(x: seq<Row>, y: seq<Row>, a: seq<Row>, b: seq<Row>)
    requires multiset(x) == multiset(b) && multiset(y) == multiset(a)
    ensures multiset(x + y) == multiset(a + b)
  {
  }

  lemma CombineThree(x: seq<Row>, y: seq<Row>, p: seq<Row>, q: seq<Row>, r: seq<Row>)
    requires multiset(x) == multiset(q) && multiset(y) == multiset(p) + multiset(r)
    ensures multiset(x + y) == multiset(p + q + r)
    ensures multiset(y + x) == multiset(p + q + r)
  {
  }

  lemma DescOrdered() ensures Ordered(DescFront() + DescBack(), false, true) {}
  lemma DescTies() ensures TiesBySum(DescFront() + DescBack(), false) {}
  lemma ByOutcomeOrdered() ensures Ordered(ByOutcomeFront() + ByOutcomeBack(), true, true) {}
  lemma ByOutcomeTies() ensures TiesBySum(ByOutcomeFront() + ByOutcomeBack(), true) {}
  lemma ByOutcomeReversedOrdered() ensures Ordered(ByOutcomeReversedFront() + ByOutcomeReversedBack(), true, false) {}
  lemma ByOutcomeReversedTies() ensures TiesBySum(ByOutcomeReversedFront() + ByOutcomeReversedBack(), true) {}

  /** With two six-sided dice and value 'all', the report lists exactly the
      rows of any ordering of the table that the flags' order and the tie
      rule allow. The dice and sides are parameters so that the counts are
      not unfolded from literals. */
  lemma TwoSixAllRowsAt(d: int, s: int, flags: Flags, expected: seq<Row>)
    requires d == 2 && s == 6
    requires multiset(expected) == multiset(TwoSixTable())
    requires Ordered(expected, flags.sortByOutcome, !flags.reversed) && TiesBySum(expected, flags.sortByOutcome)
    ensures Run(Args(Some(d), Some(s), RawValue("all", None)), flags) == AllOutcomes(expected)
  {
    var rep := Run(Args(Some(d), Some(s), RawValue("all", None)), flags);
    TwoSixRowsAt(d, s);
    SortedIsUnique(rep.rows, expected, flags.sortByOutcome, !flags.reversed);
  }

  /** `xoldice.py 2 6 all` lists the sums from 12 down to 1 (descending by default). */
  lemma ExampleTwoDiceAll()
    ensures Run(Args(Some(2), Some(6), RawValue("all", None)), Flags(false, false)).AllOutcomes?
    ensures Run(Args(Some(2), Some(6), RawValue("all", None)), Flags(false, false)).rows ==
              [Row(12, 1), Row(11, 2), Row(10, 3), Row(9, 4), Row(8, 5), Row(7, 6)]
              + [Row(6, 5), Row(5, 4), Row(4, 3), Row(3, 2), Row(2, 1), Row(1, 0)]
  {
    TableSplits();
    DescFrontPerm();
    DescBackPerm();
    DescOrdered();
    DescTies();
    CombineTwo(DescFront(), DescBack(), TableLow(), TableHigh());
    TwoSixAllRowsAt(2, 6, Flags(false, false), DescFront() + DescBack());
  }


  /** `xoldice.py 2 6 all -O` lists the most frequent sums first, equal
      counts in ascending order of sum. */
  lemma ExampleTwoDiceAllByOutcome()
    ensures Run(Args(Some(2), Some(6), RawValue("all", None)), Flags(true, false)).AllOutcomes?
    ensures Run(Args(Some(2), Some(6), RawValue("all", None)), Flags(true, false)).rows ==
              [Row(7, 6), Row(6, 5), Row(8, 5), Row(5, 4), Row(9, 4), Row(4, 3)]
              + [Row(10, 3), Row(3, 2), Row(11, 2), Row(2, 1), Row(12, 1), Row(1, 0)]
  {
    TableSplits();
    ByOutcomeFrontPerm();
    ByOutcomeBackPerm();
    ByOutcomeOrdered();
    ByOutcomeTies();
    CombineThree(ByOutcomeFront(), ByOutcomeBack(), TableFirst3(), TableMid4to9(), TableLast3());
    TwoSixAllRowsAt(2, 6, Flags(true, false), ByOutcomeFront() + ByOutcomeBack());
  }


  /** `xoldice.py 2 6 all -O -R` lists the least frequent sums first, equal
      counts still in ascending order of sum. */
  lemma ExampleTwoDiceAllByOutcomeReversed()
    ensures Run(Args(Some(2), Some(6), RawValue("all", None)), Flags(true, true)).AllOutcomes?
    ensures Run(Args(Some(2), Some(6), RawValue("all", None)), Flags(true, true)).rows ==
              [Row(1, 0), Row(2, 1), Row(12, 1), Row(3, 2), Row(11, 2), Row(4, 3)]
              + [Row(10, 3), Row(5, 4), Row(9, 4), Row(6, 5), Row(8, 5), Row(7, 6)]
  {
    TableSplits();
    ByOutcomeReversedFrontPerm();
    ByOutcomeReversedBackPerm();
    ByOutcomeReversedOrdered();
    ByOutcomeReversedTies();
    CombineThree(ByOutcomeReversedBack(), ByOutcomeReversedFront(), TableFirst4(), TableMid5to10(), TableLast2());
    TwoSixAllRowsAt(2, 6, Flags(true, true), ByOutcomeReversedFront() + ByOutcomeReversedBack());
  }

}
