/**
 Argument parsing and exit-code selection of xoldice.py.

 The program parses its three positional arguments in `XolDice.__init__`,
 then `main` runs four range checks. Every failing step overwrites the single
 `has_error` slot, and the program exits with whatever code was written last.
 Here the slot is an `Option<ErrorCode>`, with `None` standing for `False`.
 */
module Validation {
  import opened Wrappers

  /** The seven diagnostics; `Code` gives the exit status each one produces. */
  datatype ErrorCode =
    | ValueTooHigh
    | ValueTooLow
    | DiceTooLow
    | SidesTooLow
    | DiceNotInteger
    | SidesNotInteger
    | ValueNotValid

  /** The numeric constants ERROR_VALUE_TOO_HIGH .. ERROR_VALUE_NOT_VALID. */
  function Code(e: ErrorCode): int
  {
    match e
    case ValueTooHigh => 1
    case ValueTooLow => 2
    case DiceTooLow => 3
    case SidesTooLow => 4
    case DiceNotInteger => 5
    case SidesNotInteger => 6
    case ValueNotValid => 7
  }

  /** The codes are distinct and none of them is 0, which Python would
      compare equal to `False` in the test `has_error != False`. */
  lemma CodesAreDistinctNonzero()
    ensures forall e: ErrorCode :: 1 <= Code(e) <= 7
    ensures forall e1: ErrorCode, e2: ErrorCode :: Code(e1) == Code(e2) ==> e1 == e2
  {
  }

  /** The `<value>` argument after `parseValue`: the sentinel 'all', an
      integer, or the string 'ERROR' that marks an unparsable value. */
  datatype Value = All | Number(n: int) | Invalid

  /** A raw `<value>` argument: its text, and what Python's `int()` makes of
      that text (`None` when `int()` raises). */
  datatype RawValue = RawValue(text: string, asInt: Option<int>)

  /** The three positional arguments. Dice and sides are only ever passed
      to `int()`, so they are abstracted to its result. */
  datatype Args = Args(dice: Option<int>, sides: Option<int>, value: RawValue)

  function LowerChar(c: char): char
  {
    if 'A' <= c <= 'Z' then (c as int + 32) as char else c
  }

  /** `str.lower()` on the ASCII letters; no other character lowers to 'a' or 'l'. */
  function Lower(s: string): string
  {
    seq(|s|, i requires 0 <= i < |s| => LowerChar(s[i]))
  }

  lemma LowerCharInverse(c: char, lower: char)
    requires 'a' <= lower <= 'z' && LowerChar(c) == lower
    ensures c == lower || c as int == lower as int - 32
  {
  }

  /** The eight spellings of "all" that differ only in letter case. */
  predicate SpellsAll(s: string)
  {
    |s| == 3 && s[0] in "aA" && s[1] in "lL" && s[2] in "lL"
  }

  /** `value.lower() == 'all'` holds exactly for the case variants of "all". */
  lemma LowerIsAllIffSpellsAll(s: string)
    ensures Lower(s) == "all" <==> SpellsAll(s)
  {
    if SpellsAll(s) {
      assert Lower(s)[0] == 'a' && Lower(s)[1] == 'l' && Lower(s)[2] == 'l';
    }
    if Lower(s) == "all" {
      assert |s| == 3;
      assert Lower(s)[0] == 'a' && Lower(s)[1] == 'l' && Lower(s)[2] == 'l';
      LowerCharInverse(s[0], 'a');
      LowerCharInverse(s[1], 'l');
      LowerCharInverse(s[2], 'l');
    }
  }

  /** `parseValue`: the sentinel for any case variant of "all", else the
      integer, else the 'ERROR' marker (the caller records code 7 for it). */
  function ParseValue(raw: RawValue): (v: Value)
    ensures v.All? <==> SpellsAll(raw.text)
    ensures v.Number? <==> !SpellsAll(raw.text) && raw.asInt.Some?
    ensures v.Number? ==> v.n == raw.asInt.value
    ensures v.Invalid? <==> !SpellsAll(raw.text) && raw.asInt.None?
  {
    LowerIsAllIffSpellsAll(raw.text);
    if Lower(raw.text) == "all" then All
    else match raw.asInt
      case Some(n) => Number(n)
      case None => Invalid
  }

  /** One write to the `has_error` slot: a failing check overwrites it. */
  function Record(slot: Option<ErrorCode>, failed: bool, e: ErrorCode): Option<ErrorCode>
  {
    if failed then Some(e) else slot
  }

  /** The attributes `__init__` leaves behind before it calls `main`. */
  datatype State = State(dice: Option<int>, sides: Option<int>, value: Value, hasError: Option<ErrorCode>)

  /** A state in which an empty slot means every argument parsed. */
  predicate Coherent(st: State)
  {
    st.hasError.None? ==> st.dice.Some? && st.sides.Some? && !st.value.Invalid?
  }

  /** `__init__`: parse dice, then sides, then value, each failure writing its code. */
  function Init(args: Args): (st: State)
    ensures Coherent(st)
    ensures st.dice == args.dice && st.sides == args.sides && st.value == ParseValue(args.value)
    ensures st.hasError.None? <==> args.dice.Some? && args.sides.Some? && !st.value.Invalid?
    ensures st.value.Invalid? ==> st.hasError == Some(ValueNotValid)
    ensures !st.value.Invalid? && args.sides.None? ==> st.hasError == Some(SidesNotInteger)
    ensures !st.value.Invalid? && args.sides.Some? && args.dice.None? ==> st.hasError == Some(DiceNotInteger)
  {
    var afterDice := Record(None, args.dice.None?, DiceNotInteger);
    var afterSides := Record(afterDice, args.sides.None?, SidesNotInteger);
    var value := ParseValue(args.value);
    var afterValue := Record(afterSides, value.Invalid?, ValueNotValid);
    State(args.dice, args.sides, value, afterValue)
  }

  /** How `main` leaves its checks: a TypeError, an exit with a code, or on to the enumeration. */
  datatype Verdict = Crash | Exit(code: ErrorCode) | Proceed(dice: int, sides: int, value: Value)

  /** What the enumeration may assume: at least two dice, at least three
      sides, and a value that is 'all' or a sum between 1 and dice*sides. */
  predicate Admissible(dice: int, sides: int, value: Value)
  {
    && dice >= 2
    && sides >= 3
    && (value.All? || (value.Number? && 1 <= value.n <= dice * sides))
  }

  /** `main` up to the call of `createDataStructure`. The range checks run only
      when dice and sides both parsed; comparing the 'ERROR' marker with an
      integer at the first of them raises a TypeError. */
  function Check(st: State): (v: Verdict)
    requires Coherent(st)
    ensures v.Crash? <==> st.dice.Some? && st.sides.Some? && st.value.Invalid?
    ensures v.Proceed? <==> st.hasError.None? && Admissible(st.dice.value, st.sides.value, st.value)
    ensures v.Proceed? ==> v.dice == st.dice.value && v.sides == st.sides.value && v.value == st.value
    ensures v.Exit? && (st.dice.None? || st.sides.None?) ==> Some(v.code) == st.hasError
  {
    if st.dice.Some? && st.sides.Some? then
      var d, s := st.dice.value, st.sides.value;
      if st.value.Invalid? then Crash
      else
        var numeric := st.value.Number?;
        var afterHigh := Record(st.hasError, numeric && st.value.n > d * s, ValueTooHigh);
        var afterLow := Record(afterHigh, numeric && st.value.n <= 0, ValueTooLow);
        var afterDice := Record(afterLow, d <= 1, DiceTooLow);
        var afterSides := Record(afterDice, s < 3, SidesTooLow);
        match afterSides
        case Some(e) => Exit(e)
        case None => Proceed(d, s, st.value)
    else
      Exit(st.hasError.value)
  }

  /** The code that decides the exit status, read off the inputs by priority:
      of the checks that fail, the one performed last. */
  function Decisive(args: Args): ErrorCode
  {
    var v := ParseValue(args.value);
    if args.dice.Some? && args.sides.Some? then
      if args.sides.value < 3 then SidesTooLow
      else if args.dice.value <= 1 then DiceTooLow
      else if v.Number? && v.n <= 0 then ValueTooLow
      else ValueTooHigh
    else if v.Invalid? then ValueNotValid
    else if args.sides.None? then SidesNotInteger
    else DiceNotInteger
  }

  /** The whole validation: `__init__` followed by the checks of `main`. */
  function Validate(args: Args): (v: Verdict)
    ensures v.Crash? <==> args.dice.Some? && args.sides.Some? && ParseValue(args.value).Invalid?
    ensures v.Proceed? <==>
              args.dice.Some? && args.sides.Some? && Admissible(args.dice.value, args.sides.value, ParseValue(args.value))
    ensures v.Proceed? ==>
              v.dice == args.dice.value && v.sides == args.sides.value && v.value == ParseValue(args.value)
    ensures v.Proceed? ==> Admissible(v.dice, v.sides, v.value)
    ensures v.Exit? ==> v.code == Decisive(args)
  {
    Check(Init(args))
  }

  /** Every check that fails on these inputs, in the order the program
      performs them; each one prints its diagnostic. */
  function Failures(args: Args): seq<ErrorCode>
  {
    var v := ParseValue(args.value);
    var parsing :=
      (if args.dice.None? then [DiceNotInteger] else [])
      + (if args.sides.None? then [SidesNotInteger] else [])
      + (if v.Invalid? then [ValueNotValid] else []);
    if args.dice.Some? && args.sides.Some? && !v.Invalid? then
      var d, s := args.dice.value, args.sides.value;
      parsing
      + (if v.Number? && v.n > d * s then [ValueTooHigh] else [])
      + (if v.Number? && v.n <= 0 then [ValueTooLow] else [])
      + (if d <= 1 then [DiceTooLow] else [])
      + (if s < 3 then [SidesTooLow] else [])
    else parsing
  }

  /** The exit code is the last code written: unless the run crashes, it
      proceeds exactly when no check fails, and otherwise exits with the
      code of the last failing check. */
  lemma ExitCodeIsLastFailure(args: Args)
    ensures !Validate(args).Crash? ==> (Validate(args).Proceed? <==> Failures(args) == [])
    ensures !Validate(args).Crash? && Failures(args) != [] ==>
              Validate(args) == Exit(Failures(args)[|Failures(args)| - 1])
  {
  }

  /** Worked cases of the write order. */
  lemma ExitCodeExamples()
    ensures Validate(Args(Some(1), Some(2), RawValue("all", None))) == Exit(SidesTooLow)
    ensures Validate(Args(None, Some(6), RawValue("x", None))) == Exit(ValueNotValid)
    ensures Validate(Args(None, Some(6), RawValue("99", Some(99)))) == Exit(DiceNotInteger)
    ensures Validate(Args(Some(1), Some(6), RawValue("3", Some(3)))) == Exit(DiceTooLow)
    ensures Validate(Args(Some(2), Some(2), RawValue("ALL", None))) == Exit(SidesTooLow)
    ensures Validate(Args(Some(2), Some(6), RawValue("13", Some(13)))) == Exit(ValueTooHigh)
    ensures Validate(Args(Some(2), Some(6), RawValue("x", None))) == Crash
    ensures Validate(Args(Some(2), Some(6), RawValue("aLl", None))) == Proceed(2, 6, All)
  {
  }
}
