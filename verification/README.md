# XolDice in Dafny

A model of `xoldice.py`, a command-line dice-outcome counter. It is invoked
as `xoldice.py <num_of_dice> <sides> <value> [(-V | -O) -R] [-c]` and does
one of two things:

- for a numeric `<value>`, it prints how many ordered outcomes of the dice
  have that sum;
- for `<value>` equal to `all` in any letter case, it prints one row
  `(sum, number of outcomes)` for every sum from 1 to `dice*sides`. The rows
  are sorted by sum (`-V`, the default) or by count (`-O`), descending unless
  `-R` is given.

Bad arguments end the program with one of seven exit codes, 1 to 7.

The model has five modules:

- `Wrappers` (`wrappers.dfy`) holds the `Option` type.
- `Validation` (`validation.dfy`) models argument parsing in `__init__` and
  `parseValue`, and the range checks of `main`.
  - The program keeps one `has_error` slot that every failing check
    overwrites. The model proves that the exit code is the code of the last
    failing check, and gives an independent priority reading of that code
    (`Decisive`).
  - If dice and sides parse as integers but the value parses neither as
    `all` nor as an integer, the first range check compares the string
    `'ERROR'` with an integer. Python raises a `TypeError` there. The model
    calls this verdict `Crash`.
- `Enumeration` (`enumeration.dfy`) models `createDataStructure` and
  `populateLookupWithAll`.
  - The outcomes are the tuples of `itertools.product`, in lexicographic
    order.
  - The tally maps every key `1..dice*sides` to a count.
  - Each count is proved equal to `Ways`, a recursive count of the ways the
    dice make that sum that does not enumerate tuples.
  - The counts are proved to add up to `sides^dice`.
- `Ordering` (`ordering.dfy`) models the sort in `printResults` as a stable
  insertion sort.
  - Its result is a permutation of the items, ordered by the chosen key and
    direction, with ties kept in ascending order of sum.
  - That ordering is proved to determine the output uniquely.
- `XolDice` (`xoldice.dfy`) ties the pipeline together as `Run`. It turns
  the parsed arguments and the two sorting flags into a `Report`: a crash, a
  failure code, the sorted rows, or a single count. It also proves the
  documented examples for two six-sided dice.

Dice and sides are abstracted to the result of Python's `int()` on the
argument: `None` when `int()` raises. The value is its text together with
that result.

Where the usage text and the code differ, the model follows the code:

- The default order is descending. The code passes
  `reverse=not --reversed`, although the usage text does not say which
  direction is the default.
- With `all`, the table has a row for every sum from 1 to `dice*sides`. The
  sums `1..dice-1` cannot be thrown and are listed with count 0
  (`TallyZeroBelowDice`). For two six-sided dice the listing therefore has
  12 rows, including `(1, 0)`.
- The sides check is `sides < 3`, so three-sided dice are accepted. The
  message for code 4 says that at least four sides are required.

## Model

| member | source | states |
|---|---|---|
| Validation.CodesAreDistinctNonzero | xoldice.py:39-45 | the seven error constants are distinct and lie in 1..7, so none of them equals `False` in the test of line 136 |
| Validation.LowerIsAllIffSpellsAll | xoldice.py:70 | `value.lower() == 'all'` holds exactly for the eight letter-case variants of "all" |
| Validation.ParseValue | xoldice.py:68-81 | the value is 'all' exactly for a case variant of "all"; otherwise it is the integer when `int()` succeeds, and the ERROR marker exactly when `int()` fails |
| Validation.Init | xoldice.py:49-66 | after parsing, the error slot is empty exactly when all three arguments parsed; otherwise it holds the code of the last parse that failed (value before sides before dice) |
| Validation.Check | xoldice.py:123-137 | the checks crash exactly when both numbers parsed and the value is the ERROR marker; they proceed exactly when nothing failed and the arguments are admissible (dice >= 2, sides >= 3, value 'all' or in 1..dice*sides); with an unparsed number the exit code is the recorded parse error |
| Validation.Validate | xoldice.py:49-137 | for all arguments: crash iff both numbers parse and the value does not; proceed iff the arguments are admissible, carrying the parsed values; otherwise exit with the code `Decisive` reads off by priority (sides, dice, low value, high value; then value, sides, dice parse errors) |
| Validation.ExitCodeIsLastFailure | xoldice.py:52-137 | unless it crashes, the run proceeds iff no check fails, and otherwise exits with the code of the last failing check in program order |
| Validation.ExitCodeExamples | xoldice.py:123-137 | worked cases: `1 2 all` exits 4, bad dice with bad value exits 7, bad dice with 99 exits 5, `2 6 13` exits 1, `2 6 x` crashes, `2 6 aLl` proceeds |
| Enumeration.Outcomes | xoldice.py:88 | the product yields only tuples of `dice` faces in 1..sides, and `sides^dice` of them |
| Enumeration.OutcomesComplete | xoldice.py:88 | every tuple of `dice` faces in 1..sides is among the outcomes |
| Enumeration.CountIsWays | xoldice.py:88-95 | the number of outcomes with sum k equals `Ways(dice, sides, k)`, counted by first face without enumerating tuples |
| Enumeration.SumBounds | xoldice.py:93-95 | every outcome sums to between `dice` and `dice*sides` |
| Enumeration.InitialTally | xoldice.py:83-85 | the initial lookup has exactly the keys 1..dice*sides, each with count 0 |
| Enumeration.Populate | xoldice.py:90-95 | the loop succeeds iff every outcome's sum is a key; it keeps the keys, and each count grows by the number of outcomes with that sum |
| Enumeration.Enumerate | xoldice.py:83-97 | a successful tally has exactly the keys 1..dice*sides |
| Enumeration.PopulateMass | xoldice.py:90-95 | when every sum lies in a keyed range, the total over that range grows by exactly the number of outcomes |
| Enumeration.EnumerateHitsKeys | xoldice.py:84-95 | with at least one die, no increment misses a key: the tally succeeds with keys 1..dice*sides |
| Enumeration.EnumerateCount | xoldice.py:84-95 | each entry of the tally is the number of outcomes whose sum is that key |
| Enumeration.TallyCounts | xoldice.py:83-97 | each entry of the tally is `Ways(dice, sides, k)` |
| Enumeration.TallyZeroBelowDice | xoldice.py:84-95 | the entries for the sums 1..dice-1 stay 0 |
| Enumeration.WaysPositive | xoldice.py:84-95 | every sum from dice to dice*sides can be thrown, so its entry is positive |
| Enumeration.WaysZeroBelow | xoldice.py:95 | no throw of n dice sums to less than n |
| Enumeration.TallyMass | xoldice.py:88-95 | the entries add up to sides^dice, the number of ordered outcomes |
| Enumeration.NoDiceFails | xoldice.py:88-95 | with no dice the single empty tuple sums to 0, which has no key, so the lookup fails |
| Enumeration.OneDie | xoldice.py:88-95 | one die makes each of its faces in exactly one way |
| Enumeration.TwoDice | xoldice.py:88-95 | for two dice the count is `s-1` up to `sides+1` and `2*sides+1-s` after it, and 0 outside 2..2*sides |
| Enumeration.TwoSixSidedDice | xoldice.py:17-19 | two six-sided dice make 6 in five ways; the counts for 1..12 are 0,1,2,3,4,5,6,5,4,3,2,1 |
| Ordering.Insert | xoldice.py:105 | inserting a row adds exactly that row to the multiset of rows |
| Ordering.SortRows | xoldice.py:105 | the sorted rows are a permutation of the items |
| Ordering.SortRowsOrdered | xoldice.py:105 | the sorted rows are ordered by the chosen key in the chosen direction, and rows with equal keys keep the ascending order of sums the items had (stability) |
| Ordering.SortedIsUnique | xoldice.py:105 | any two permutations of the same rows that are both ordered and tie-sorted by sum are equal, so the listing is determined |
| XolDice.Items | xoldice.py:84-85 | the items come one per key, in ascending key order, each with its count |
| XolDice.ItemsAreWaysRows | xoldice.py:83-97 | the tally's items are exactly the reference table of `(k, Ways(dice, sides, k))` for k in 1..dice*sides, with ascending sums |
| XolDice.Run | xoldice.py:118-146 | a run crashes, fails with the `Decisive` code, lists every row of the reference table sorted with ties by ascending sum (for 'all'), or reports `Ways` for the value, each under exactly the conditions validation gives |
| XolDice.ExitStatus | xoldice.py:136-176 | the status is 0 exactly when a result was printed, and the error constant of the recorded code after a failed check |
| XolDice.SmallValueCountsZero | xoldice.py:99-100 | a value in 1..dice-1 passes validation and reports 0 outcomes |
| XolDice.TwoDiceRows | xoldice.py:88-95 | for two dice the reference table equals the rising-then-falling triangle |
| XolDice.ExampleTwoDiceSix | xoldice.py:17-19 | `2 6 6` reports 5 outcomes for the value 6 |
| XolDice.ExampleTwoDiceAll | xoldice.py:11-12 | `2 6 all` lists the sums 12 down to 1 with their counts |
| XolDice.ExampleTwoDiceAllByOutcome | xoldice.py:14-15 | `2 6 all -O` lists the sums in the order 7,6,8,5,9,4,10,3,11,2,12,1 |
| XolDice.ExampleTwoDiceAllByOutcomeReversed | xoldice.py:22-24 | `2 6 all -O -R` lists the sums in the order 1,2,12,3,11,4,10,5,9,6,8,7 |

## Left out

- Printing is not modelled: the echo of the arguments (lines 119-121), `printError` (lines 148-168) and the table layout of `printResults` (lines 106-116). `Validation.Failures` lists which diagnostics would be printed, in order.
- Command-line parsing by `docopt` is not modelled: `--help`, `--version`, and the rejection of malformed command lines. The model starts from the three positional arguments and the `-O` and `-R` flags.
- The `-c` progress output (lines 89, 92, 96) only prints, so it is not modelled.
- Python's `int()` is not modelled. Its result on each argument is an input to the model (`Option<int>`), so whitespace, signs and underscores are whatever `int()` makes of them.
- Validation.LowerIsAllIffSpellsAll: `str.lower()` is modelled on ASCII letters only. No other character lowers to `a` or `l`, so the 'all' test is unaffected.
- `exit()` and the interpreter's traceback are not modelled. A crash is the `Crashed` report, and `ExitStatus` gives it Python's status 1 for an uncaught exception.
- Running time is not modelled. The enumeration visits all `sides^dice` tuples.
