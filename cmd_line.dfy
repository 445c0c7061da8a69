/** What the command-line parsers share: the handle an `add_*` call returns, the
    tagged value an option produces, the description of a registered argument, the
    parsing error and its rendering, and the `FromStr` parsers the `add_option`
    calls use (`i32` and `String`). */
module CmdLine {
  import opened Io

  /** `ArgId<T>`: the position of an argument among the registered ones. The phantom
      type of the source becomes the tag of the `Value` the argument produces. */
  datatype ArgId = ArgId(id: nat)

  /** The value an argument produced, tagged with its type (the source keeps it as a
      `Box<dyn Any>` and downcasts it in `get`). */
  datatype Value = BoolValue(b: bool) | IntValue(i: int) | StrValue(s: string)

  /** A value parser, as `add_option_with` takes it: the value or the error's text. */
  type ValueParser = string -> Result<Value, string>

  /** The types `add_option` is given a `FromStr` parser for here. */
  datatype ValueType = I32 | Str

  function FromStr(t: ValueType): ValueParser
  {
    match t
    case I32 => ParseI32
    case Str => ParseString
  }

  /** A registered argument: a flag, or an option with its value parser. */
  datatype Handler =
    | FlagHandler(short: seq<char>, long: seq<string>)
    | OptionHandler(short: seq<char>, long: seq<string>, parse: ValueParser)

  /** `ParsingError`; the inner error of `ValueParsingFailed` is kept as its rendered text. */
  datatype ParsingError =
    | ParsingFailed
    | ValueParsingFailed(argName: string, error: string)
    | UnknownOption(argName: string)
    | MissingValue(argName: string)
    | UnknownValue
  {
    /** `Display`: the fixed message of each variant, with the argument's name and the
        inner error where the variant has them. */
    function Display(): string
    {
      match this
      case ParsingFailed => ParsingFailedText
      case ValueParsingFailed(name, error) => ValueParsingFailedText + name + ": " + error
      case UnknownOption(name) => UnknownOptionText + name
      case MissingValue(name) => MissingValueText + name
      case UnknownValue => UnknownValueText
    }
  }

  const ParsingFailedText: string := "could not parse arguments"
  const ValueParsingFailedText: string := "could not parse value for option argument "
  const UnknownOptionText: string := "found unknown option argument "
  const MissingValueText: string := "no value for option argument "
  const UnknownValueText: string :=
    "found unknown value " + "which is not an option argument or expected value for one"

  /** The first 17 characters of each variant's message. */
  function Lead(e: ParsingError): string
  {
    match e
    case ParsingFailed => ParsingFailedText[..17]
    case ValueParsingFailed(_, _) => ValueParsingFailedText[..17]
    case UnknownOption(_) => UnknownOptionText[..17]
    case MissingValue(_) => MissingValueText[..17]
    case UnknownValue => UnknownValueText[..17]
  }

  lemma DisplayLead(e: ParsingError)
    ensures |e.Display()| >= 17 && e.Display()[..17] == Lead(e)
  {
    match e
    case ParsingFailed =>
    case ValueParsingFailed(n, x) =>
      assert (ValueParsingFailedText + n + ": " + x)[..17] == ValueParsingFailedText[..17];
    case UnknownOption(n) =>
      assert (UnknownOptionText + n)[..17] == UnknownOptionText[..17];
    case MissingValue(n) =>
      assert (MissingValueText + n)[..17] == MissingValueText[..17];
    case UnknownValue =>
  }

  /** The fixed text each variant's message opens with. */
  function Fixed(e: ParsingError): string
  {
    match e
    case ParsingFailed => ParsingFailedText
    case ValueParsingFailed(_, _) => ValueParsingFailedText
    case UnknownOption(_) => UnknownOptionText
    case MissingValue(_) => MissingValueText
    case UnknownValue => UnknownValueText
  }

  /** Each message is its variant's fixed text, followed by the argument's name for the
      variants that carry one, and by ": " and the inner error for `ValueParsingFailed`. */
  lemma DisplayMessage(e: ParsingError)
    ensures |Fixed(e)| <= |e.Display()| && e.Display()[..|Fixed(e)|] == Fixed(e)
    ensures e.ParsingFailed? || e.UnknownValue? ==> e.Display() == Fixed(e)
    ensures e.UnknownOption? || e.MissingValue? ==> e.Display()[|Fixed(e)|..] == e.argName
    ensures e.ValueParsingFailed? ==> e.Display()[|Fixed(e)|..] == e.argName + ": " + e.error
  {
    var f, d := Fixed(e), e.Display();
    match e
    case ParsingFailed =>
    case ValueParsingFailed(n, x) =>
      assert d == f + (n + ": " + x);
    case UnknownOption(n) =>
      assert d == f + n;
    case MissingValue(n) =>
      assert d == f + n;
    case UnknownValue =>
  }

  /** The message tells which variant was raised. */
  lemma DisplayShowsKind(a: ParsingError, b: ParsingError)
    requires a.Display() == b.Display()
    ensures a.ParsingFailed? <==> b.ParsingFailed?
    ensures a.ValueParsingFailed? <==> b.ValueParsingFailed?
    ensures a.UnknownOption? <==> b.UnknownOption?
    ensures a.MissingValue? <==> b.MissingValue?
    ensures a.UnknownValue? <==> b.UnknownValue?
  {
    DisplayLead(a);
    DisplayLead(b);
    var x, y := Lead(a), Lead(b);
    assert x == y;
    assert x[0] == y[0] && x[14] == y[14] && x[16] == y[16];
    assert ParsingFailedText[0] == 'c' && ParsingFailedText[16] == 'a';
    assert ValueParsingFailedText[0] == 'c' && ValueParsingFailedText[16] == 'v';
    assert UnknownOptionText[0] == 'f' && UnknownOptionText[14] == 'o';
    assert MissingValueText[0] == 'n';
    assert UnknownValueText[0] == 'f' && UnknownValueText[14] == 'v';
  }

  /** Apart from `ValueParsingFailed`, distinct errors render distinct messages. */
  lemma DisplayInjective(a: ParsingError, b: ParsingError)
    requires !a.ValueParsingFailed? && !b.ValueParsingFailed?
    ensures a.Display() == b.Display() <==> a == b
  {
    if a.Display() == b.Display() {
      DisplayShowsKind(a, b);
      if a.UnknownOption? {
        assert a.argName == (UnknownOptionText + a.argName)[|UnknownOptionText|..];
        assert b.argName == (UnknownOptionText + b.argName)[|UnknownOptionText|..];
      } else if a.MissingValue? {
        assert a.argName == (MissingValueText + a.argName)[|MissingValueText|..];
        assert b.argName == (MissingValueText + b.argName)[|MissingValueText|..];
      }
    }
  }

  /** `ValueParsingFailed` messages can coincide: a ": " in the name or the inner error
      makes the split between them ambiguous. */
  lemma ValueParsingFailedAmbiguous()
    ensures ValueParsingFailed("a: b", "c").Display() == ValueParsingFailed("a", "b: c").Display()
  {
  }

  // `FromStr` for `i32`, as `str::parse::<i32>` does it.

  const I32Min: int := -0x8000_0000
  const I32Max: int := 0x7fff_ffff

  const EmptyText: string := "cannot parse integer from empty string"
  const InvalidDigitText: string := "invalid digit found in string"
  const PosOverflowText: string := "number too large to fit in target type"
  const NegOverflowText: string := "number too small to fit in target type"

  predicate IsDigit(c: char)
  {
    '0' <= c <= '9'
  }

  function DigitValue(c: char): nat
    requires IsDigit(c)
  {
    (c as int) - ('0' as int)
  }

  /** The digits read left to right into an `i32`, adding each digit (or subtracting it,
      for a negative number) and stopping at the first bad digit or overflow. */
  function ScanDigits(digits: string, positive: bool): (r: Result<int, string>)
    ensures r.Ok? ==> I32Min <= r.value <= I32Max
    ensures r.Ok? ==> (positive ==> r.value >= 0) && (!positive ==> r.value <= 0)
  {
    if digits == [] then Ok(0)
    else
      match ScanDigits(digits[..|digits| - 1], positive)
      case Err(e) => Err(e)
      case Ok(acc) =>
        var c := digits[|digits| - 1];
        if !IsDigit(c) then Err(InvalidDigitText)
        else if positive then
          var next := acc * 10 + DigitValue(c);
          if next > I32Max then Err(PosOverflowText) else Ok(next)
        else
          var next := acc * 10 - DigitValue(c);
          if next < I32Min then Err(NegOverflowText) else Ok(next)
  }

  /** `i32::from_str`: an optional sign, then at least one decimal digit. */
  function ParseI32(s: string): (r: Result<Value, string>)
    ensures r.Ok? ==> r.value.IntValue? && I32Min <= r.value.i <= I32Max
    ensures s == [] ==> r == Err(EmptyText)
  {
    if s == [] then Err(EmptyText)
    else if (s[0] == '+' || s[0] == '-') && |s| == 1 then Err(InvalidDigitText)
    else
      var positive := s[0] != '-';
      var digits := if s[0] == '+' || s[0] == '-' then s[1..] else s;
      match ScanDigits(digits, positive)
      case Err(e) => Err(e)
      case Ok(n) => Ok(IntValue(n))
  }

  /** `String::from_str`: the text itself; it never fails. */
  function ParseString(s: string): (r: Result<Value, string>)
    ensures r == Ok(StrValue(s))
  {
    Ok(StrValue(s))
  }

  predicate AllDigits(s: string)
  {
    forall i :: 0 <= i < |s| ==> IsDigit(s[i])
  }

  /** The number a string of decimal digits denotes. */
  function DigitsValue(s: string): nat
    requires AllDigits(s)
  {
    if s == [] then 0 else DigitsValue(s[..|s| - 1]) * 10 + DigitValue(s[|s| - 1])
  }

  /** Whether a magnitude fits an `i32` of the given sign. */
  predicate Fits(magnitude: nat, positive: bool)
  {
    if positive then magnitude <= I32Max else magnitude <= -I32Min
  }

  /** The scan succeeds exactly on digit strings whose value fits, and then yields
      that value with the sign applied. */
  lemma {:induction false} ScanDigitsMeaning(s: string, positive: bool)
    ensures ScanDigits(s, positive).Ok? <==> AllDigits(s) && Fits(DigitsValue(s), positive)
    ensures ScanDigits(s, positive).Ok? ==>
      ScanDigits(s, positive).value == (if positive then DigitsValue(s) as int else -(DigitsValue(s) as int))
  {
    if s != [] {
      var init := s[..|s| - 1];
      ScanDigitsMeaning(init, positive);
      assert AllDigits(s) ==> AllDigits(init) by {
        if AllDigits(s) {
          forall i | 0 <= i < |init| ensures IsDigit(init[i]) {
            assert init[i] == s[i];
          }
        }
      }
      if AllDigits(init) && IsDigit(s[|s| - 1]) {
        assert AllDigits(s);
      }
    }
  }

  /** The sign `i32::from_str` reads, and the digits after it. */
  function Positive(s: string): bool
  {
    s == [] || s[0] != '-'
  }

  function Unsigned(s: string): string
  {
    if s != [] && (s[0] == '+' || s[0] == '-') then s[1..] else s
  }

  /** `i32::from_str` accepts exactly an optional sign followed by one or more decimal
      digits whose value fits, and returns that value. */
  lemma ParseI32Meaning(s: string)
    ensures ParseI32(s).Ok? <==>
      var d := Unsigned(s); d != [] && AllDigits(d) && Fits(DigitsValue(d), Positive(s))
    ensures ParseI32(s).Ok? ==>
      ParseI32(s).value.i == (if Positive(s) then DigitsValue(Unsigned(s)) as int else -(DigitsValue(Unsigned(s)) as int))
  {
    ScanDigitsMeaning(Unsigned(s), Positive(s));
  }

  /** The decimal digits of `n`, without leading zeros. */
  function Decimal(n: nat): (r: string)
    ensures |r| >= 1 && AllDigits(r) && DigitsValue(r) == n
  {
    if n < 10 then [('0' as int + n) as char]
    else
      var r := Decimal(n / 10) + [('0' as int + n % 10) as char];
      assert r[..|r| - 1] == Decimal(n / 10);
      r
  }

  /** How `i32` renders: a '-' for negative numbers, then the digits. */
  function I32ToString(n: int): string
  {
    if n < 0 then "-" + Decimal(-n) else Decimal(n)
  }

  /** `str::parse::<i32>` reads back every `i32` it renders. */
  lemma ParseI32RoundTrip(n: int)
    requires I32Min <= n <= I32Max
    ensures ParseI32(I32ToString(n)) == Ok(IntValue(n))
  {
    var s := I32ToString(n);
    if n < 0 {
      assert s[0] == '-' && Unsigned(s) == Decimal(-n);
    } else {
      assert s[0] != '-' && s[0] != '+';
    }
    ParseI32Meaning(s);
  }

  /** A number that does not fit in 32 bits is rejected. */
  lemma ParseI32Overflow(n: int)
    requires n < I32Min || I32Max < n
    ensures ParseI32(I32ToString(n)).Err?
  {
    var s := I32ToString(n);
    if n < 0 {
      assert s[0] == '-' && Unsigned(s) == Decimal(-n);
    } else {
      assert s[0] != '-' && s[0] != '+';
    }
    ParseI32Meaning(s);
  }

  /** A text with a letter in it is not an `i32`, as the `options` tests rely on. */
  lemma ParseI32RejectsLetters(s: string)
    requires exists i :: 0 <= i < |s| && 'a' <= s[i] <= 'z'
    ensures ParseI32(s).Err?
  {
    var i :| 0 <= i < |s| && 'a' <= s[i] <= 'z';
    var d := Unsigned(s);
    if d == s {
      assert !IsDigit(d[i]);
    } else {
      assert i > 0 && d[i - 1] == s[i];
    }
    assert !AllDigits(d);
    ParseI32Meaning(s);
  }
}
