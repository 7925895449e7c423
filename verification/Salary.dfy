/** The salary normalizer (src/modules/jobs/salary.py). Letters are ASCII letters; decimals
    are exact. */
module Salary {
  import opened Texts
  import opened Wrappers

  /** What a source may hand over as an amount: an integer, a float, a decimal or text;
      everything else, booleans included, is absent. */
  datatype Amount = Absent | Whole(n: int) | Float(r: real) | Exact(d: real) | Literal(s: string)

  datatype SalaryPeriod = Hourly | Daily | Monthly | Yearly | Unknown

  datatype PeriodInput = NoPeriod | Period(period: SalaryPeriod) | PeriodText(text: string)

  datatype Input = Input(
    minAmount: Amount, maxAmount: Amount, currency: Option<string>, period: PeriodInput, labelText: Option<string>,
    defaultCurrency: Option<string>, defaultPeriod: PeriodInput)

  datatype SalarySchema = SalarySchema(
    minAmount: Option<int>, maxAmount: Option<int>, currency: Option<string>, period: Option<SalaryPeriod>,
    display: Option<string>)

  datatype Invalid = NegativeAmount | CurrencyLength | RangeOutOfOrder

  /** Library behaviour: decimal literals other than plain digits with at most one point, and
      the amounts the number pattern finds in a label. */
  datatype Library = Library(decimal: string -> Option<real>, amounts: string -> seq<int>)

  // ---------------------------------------------------------------------
  // Numbers
  // ---------------------------------------------------------------------

  predicate IsDigit(c: char) { '0' <= c <= '9' }

  predicate IsDigits(s: string) { forall c | c in s :: IsDigit(c) }

  function Value(s: string): nat
    requires IsDigits(s)
  {
    if s == "" then 0
    else
      assert s[|s| - 1] in s;
      Value(s[..|s| - 1]) * 10 + (s[|s| - 1] as int - '0' as int)
  }

  function PowerOfTen(n: nat): nat {
    if n == 0 then 1 else 10 * PowerOfTen(n - 1)
  }

  lemma {:induction false} PowerIsPositive(n: nat)
    ensures PowerOfTen(n) > 0
  {
    if n > 0 {
      PowerIsPositive(n - 1);
    }
  }

  /** The value of `whole.fraction`. */
  function PointValue(whole: string, fraction: string): real
    requires IsDigits(whole) && IsDigits(fraction)
  {
    PowerIsPositive(|fraction|);
    Value(whole) as real + Value(fraction) as real / PowerOfTen(|fraction|) as real
  }

  /** The place of the first c, or the length. */
  function IndexOf(s: string, c: char): (i: nat)
    ensures i <= |s| && c !in s[..i] && (i < |s| ==> s[i] == c)
  {
    if s == "" || s[0] == c then 0
    else
      var i := IndexOf(s[1..], c);
      assert s[..i + 1] == [s[0]] + s[1..][..i];
      i + 1
  }

  function ToDecimal(lib: Library, s: string): Option<real> {
    var i := IndexOf(s, '.');
    if s != "" && IsDigits(s) then Some(Value(s) as real)
    else if 0 < i < |s| - 1 && IsDigits(s[..i]) && IsDigits(s[i + 1..]) then Some(PointValue(s[..i], s[i + 1..]))
    else lib.decimal(s)
  }

  function Count(s: string, c: char): nat {
    if s == "" then 0 else (if s[0] == c then 1 else 0) + Count(s[1..], c)
  }

  function Without(s: string, c: char): string {
    if s == "" then "" else (if s[0] == c then "" else [s[0]]) + Without(s[1..], c)
  }

  function Replaced(s: string, from: char, into: char): string {
    seq(|s|, i requires 0 <= i < |s| => if s[i] == from then into else s[i])
  }

  /** Points group thousands and a comma starts the decimals; one point alone does so too,
      unless exactly three characters follow it. */
  function ParseDecimalNumber(lib: Library, value: string): Option<real> {
    var s := Strip(value);
    if s == "" then None
    else if ',' in s && '.' in s then ToDecimal(lib, Replaced(Without(s, '.'), ',', '.'))
    else if ',' in s then ToDecimal(lib, Replaced(s, ',', '.'))
    else if Count(s, '.') > 1 then ToDecimal(lib, Without(s, '.'))
    else if Count(s, '.') == 1 && |s| - IndexOf(s, '.') - 1 == 3 then ToDecimal(lib, Without(s, '.'))
    else ToDecimal(lib, s)
  }

  // ---------------------------------------------------------------------
  // Renderings
  // ---------------------------------------------------------------------

  function DigitOf(n: nat): char
    requires n < 10
  {
    ('0' as int + n) as char
  }

  function Digits(n: nat): string {
    if n < 10 then [DigitOf(n)] else Digits(n / 10) + [DigitOf(n % 10)]
  }

  function ThreeDigits(n: nat): string
    requires n < 1000
  {
    [DigitOf(n / 100), DigitOf(n / 10 % 10), DigitOf(n % 10)]
  }

  /** With a point between groups of three digits, as in 1.234.567. */
  function Grouped(n: nat): string {
    if n < 1000 then Digits(n) else Grouped(n / 1000) + "." + ThreeDigits(n % 1000)
  }

  lemma {:induction false} DigitsParse(n: nat)
    ensures Digits(n) != "" && IsDigits(Digits(n)) && Value(Digits(n)) == n
  {
    if n >= 10 {
      DigitsParse(n / 10);
      assert Digits(n)[..|Digits(n)| - 1] == Digits(n / 10);
    } else {
      assert Digits(n)[..0] == "";
    }
  }

  lemma ValueSnoc(s: string, d: char)
    requires IsDigits(s) && IsDigit(d)
    ensures IsDigits(s + [d]) && Value(s + [d]) == Value(s) * 10 + (d as int - '0' as int)
  {
    assert (s + [d])[..|s|] == s;
  }

  lemma ThreeMoreDigits(s: string, n: nat)
    requires IsDigits(s) && n < 1000
    ensures IsDigits(s + ThreeDigits(n)) && Value(s + ThreeDigits(n)) == Value(s) * 1000 + n
  {
    var a, b, c := DigitOf(n / 100), DigitOf(n / 10 % 10), DigitOf(n % 10);
    ValueSnoc(s, a);
    ValueSnoc(s + [a], b);
    ValueSnoc(s + [a] + [b], c);
    assert s + ThreeDigits(n) == s + [a] + [b] + [c];
    assert n / 10 == n / 100 * 10 + n / 10 % 10;
  }

  lemma WithoutCons(d: char, s: string, c: char)
    ensures Without([d] + s, c) == (if d == c then "" else [d]) + Without(s, c)
  {
    assert ([d] + s)[1..] == s;
  }

  lemma JoinIsAssociative(a: string, b: string, c: string)
    ensures (a + b) + c == a + (b + c)
  {
  }

  lemma {:induction false} WithoutConcat(s: string, t: string, c: char)
    ensures Without(s + t, c) == Without(s, c) + Without(t, c)
  {
    if s == "" {
      assert s + t == t;
    } else {
      hide Without;
      var d, tail := s[0], s[1..];
      WithoutCons(d, tail, c);
      WithoutCons(d, tail + t, c);
      WithoutConcat(tail, t, c);
      JoinIsAssociative(if d == c then "" else [d], Without(tail, c), Without(t, c));
      assert s == [d] + tail && s + t == [d] + (tail + t);
    }
  }

  lemma {:induction false} CountConcat(s: string, t: string, c: char)
    ensures Count(s + t, c) == Count(s, c) + Count(t, c)
  {
    if s == "" {
      assert s + t == t;
    } else {
      CountConcat(s[1..], t, c);
      assert (s + t)[1..] == s[1..] + t;
    }
  }

  lemma {:induction false} WithoutAbsent(s: string, c: char)
    requires c !in s
    ensures Without(s, c) == s && Count(s, c) == 0
  {
    if s != "" {
      WithoutAbsent(s[1..], c);
    }
  }

  predicate DigitsAndPoints(s: string) { forall c | c in s :: IsDigit(c) || c == '.' }

  lemma JustAPoint()
    ensures Without(".", '.') == "" && Count(".", '.') == 1
  {
    assert "."[1..] == "";
  }

  /** Taking the points out of text with one more point in it. */
  lemma PointTakenOut(whole: string, rest: string)
    requires '.' !in rest
    ensures Without(whole + "." + rest, '.') == Without(whole, '.') + rest
    ensures Count(whole + "." + rest, '.') == Count(whole, '.') + 1
  {
    hide Without, Count;
    WithoutConcat(whole + ".", rest, '.');
    WithoutConcat(whole, ".", '.');
    WithoutAbsent(rest, '.');
    CountConcat(whole + ".", rest, '.');
    CountConcat(whole, ".", '.');
    JustAPoint();
    assert Without(whole, '.') + "" == Without(whole, '.');
  }

  /** Without its points a grouped number is a run of digits of the same value. */
  lemma {:induction false} UngroupedValue(n: nat)
    ensures var s, digits := Grouped(n), Without(Grouped(n), '.');
            && s != "" && DigitsAndPoints(s)
            && digits != "" && IsDigits(digits) && Value(digits) == n
            && (n < 1000 ==> digits == s && '.' !in s && Count(s, '.') == 0)
            && (n >= 1000 ==> '.' in s && Count(s, '.') >= 1)
  {
    hide Value, Without, Count;
    if n < 1000 {
      DigitsParse(n);
      WithoutAbsent(Digits(n), '.');
    } else {
      var q, last := n / 1000, ThreeDigits(n % 1000);
      UngroupedValue(q);
      PointTakenOut(Grouped(q), last);
      ThreeMoreDigits(Without(Grouped(q), '.'), n % 1000);
      assert Grouped(n)[|Grouped(q)|] == '.';
    }
  }

  lemma NotSpace(s: string)
    requires forall c | c in s :: IsDigit(c) || c == '.' || c == ','
    ensures Strip(s) == s
  {
    if s != "" {
      assert s[0] in s && s[|s| - 1] in s;
    }
    StrippedStays(s);
  }

  lemma DigitsToDecimal(lib: Library, s: string)
    requires s != "" && IsDigits(s)
    ensures ToDecimal(lib, s) == Some(Value(s) as real)
  {
  }

  lemma PointToDecimal(lib: Library, whole: string, fraction: string)
    requires whole != "" && IsDigits(whole) && fraction != "" && IsDigits(fraction)
    ensures ToDecimal(lib, whole + "." + fraction) == Some(PointValue(whole, fraction))
  {
    var s := whole + "." + fraction;
    assert s[|whole|] == '.' && '.' in s;
    FirstPoint(whole, '.', fraction);
    assert s[..|whole|] == whole && s[|whole| + 1..] == fraction;
  }

  lemma FirstPoint(whole: string, c: char, rest: string)
    requires c !in whole
    ensures IndexOf(whole + [c] + rest, c) == |whole|
  {
    var s := whole + [c] + rest;
    var i := IndexOf(s, c);
    assert s[|whole|] == c;
    forall j | 0 <= j < i ensures s[j] != c {
      assert s[j] in s[..i];
    }
    forall j | 0 <= j < |whole| ensures s[j] != c {
      assert s[j] == whole[j];
    }
  }

  /** Grouped with points, every natural number parses back to itself. */
  lemma GroupedParsesBack(lib: Library, n: nat)
    ensures ParseDecimalNumber(lib, Grouped(n)) == Some(n as real)
  {
    hide ToDecimal, Value, Without, Count;
    var s := Grouped(n);
    UngroupedValue(n);
    NotSpace(s);
    DigitsToDecimal(lib, Without(s, '.'));
    if Count(s, '.') == 1 {
      OnePointMeansThreeDigits(n);
    }
  }

  lemma OnePointMeansThreeDigits(n: nat)
    requires Count(Grouped(n), '.') == 1
    ensures |Grouped(n)| - IndexOf(Grouped(n), '.') - 1 == 3
  {
    hide Value, Without, Count;
    UngroupedValue(n);
    if n >= 1000 {
      var q, last := n / 1000, ThreeDigits(n % 1000);
      UngroupedValue(q);
      PointTakenOut(Grouped(q), last);
      FirstPoint(Grouped(q), '.', last);
    }
  }

  lemma ReplacedConcat(whole: string, fraction: string)
    requires ',' !in whole && ',' !in fraction
    ensures Replaced(whole + "," + fraction, ',', '.') == whole + "." + fraction
  {
  }

  lemma CommaBehindGroups(g: string, fraction: string)
    requires DigitsAndPoints(g) && IsDigits(fraction)
    ensures var s := g + "," + fraction;
            && Strip(s) == s && ',' in s && ('.' in s <==> '.' in g)
            && Without(s, '.') == Without(g, '.') + "," + fraction
  {
    hide Without, Strip;
    var s, tail := g + "," + fraction, "," + fraction;
    NotSpace(s);
    assert s[|g|] == ',';
    WithoutConcat(g, tail, '.');
    WithoutAbsent(tail, '.');
    assert s == g + tail;
  }

  /** A grouped number keeps its meaning when a comma and decimals follow. */
  lemma GroupedWithDecimalsParsesBack(lib: Library, n: nat, fraction: string)
    requires fraction != "" && IsDigits(fraction)
    ensures PowerOfTen(|fraction|) > 0
    ensures ParseDecimalNumber(lib, Grouped(n) + "," + fraction)
            == Some(n as real + Value(fraction) as real / PowerOfTen(|fraction|) as real)
  {
    hide ToDecimal, Value, Without, Count, Grouped, Replaced, Strip, PowerOfTen;
    PowerIsPositive(|fraction|);
    var g := Grouped(n);
    var digits := Without(g, '.');
    UngroupedValue(n);
    CommaBehindGroups(g, fraction);
    ReplacedConcat(digits, fraction);
    PointToDecimal(lib, digits, fraction);
  }

  lemma PointParses(lib: Library, whole: string, fraction: string)
    requires whole != "" && IsDigits(whole) && fraction != "" && IsDigits(fraction)
    ensures IsDigits(whole + fraction)
    ensures ParseDecimalNumber(lib, whole + "." + fraction)
            == Some(if |fraction| == 3 then Value(whole + fraction) as real else PointValue(whole, fraction))
  {
    hide ToDecimal, Value, Without, Count, PointValue;
    var s := whole + "." + fraction;
    NotSpace(s);
    PointTakenOut(whole, fraction);
    WithoutAbsent(whole, '.');
    FirstPoint(whole, '.', fraction);
    PointToDecimal(lib, whole, fraction);
    DigitsToDecimal(lib, whole + fraction);
  }

  lemma ThousandsDiffer(n: nat, v: nat)
    requires v < 1000
    ensures (n * 1000 + v) as real == n as real + v as real / 1000.0 <==> n == 0 && v == 0
  {
    var gap := (n * 1000 + v) as real - (n as real + v as real / 1000.0);
    assert gap * 1000.0 == n as real * 999000.0 + v as real * 999.0;
  }

  /** A point before decimals is read as one exactly when there are not three of them, or
      when it makes no difference. */
  lemma PointIsDecimalUnlessThreeFollow(lib: Library, n: nat, fraction: string)
    requires fraction != "" && IsDigits(fraction)
    ensures PowerOfTen(|fraction|) > 0
    ensures ParseDecimalNumber(lib, Digits(n) + "." + fraction)
            == Some(n as real + Value(fraction) as real / PowerOfTen(|fraction|) as real)
            <==> |fraction| != 3 || (n == 0 && Value(fraction) == 0)
  {
    hide ToDecimal, Value, Without, Count, Digits, ParseDecimalNumber, PowerOfTen;
    PowerIsPositive(|fraction|);
    DigitsParse(n);
    PointParses(lib, Digits(n), fraction);
    if |fraction| == 3 {
      ThreeAreAGroup(Digits(n), fraction);
      ThousandsDiffer(n, Value(fraction));
      assert PowerOfTen(3) == 1000 by { ThousandIsPower(); }
    }
  }

  lemma ThousandIsPower()
    ensures PowerOfTen(3) == 1000
  {
  }

  lemma NoDigits()
    ensures Value("") == 0
  {
  }

  lemma ThreeAreAGroup(whole: string, three: string)
    requires IsDigits(whole) && IsDigits(three) && |three| == 3
    ensures IsDigits(whole + three) && Value(whole + three) == Value(whole) * 1000 + Value(three)
    ensures Value(three) < 1000
  {
    hide Value;
    var a, b, c := three[0], three[1], three[2];
    assert Value("") == 0 by { NoDigits(); }
    ValueSnoc(whole, a);
    ValueSnoc(whole + [a], b);
    ValueSnoc(whole + [a] + [b], c);
    ValueSnoc("", a);
    ValueSnoc([a], b);
    ValueSnoc([a] + [b], c);
    assert whole + three == whole + [a] + [b] + [c];
    assert "" + [a] == [a] && three == [a] + [b] + [c];
  }

  // ---------------------------------------------------------------------
  // Text
  // ---------------------------------------------------------------------

  /** Runs of white space become one space, and none is left at the ends. */
  function NormalizeText(s: string): string {
    Strip(Collapse(s))
  }

  function OptionalText(value: Option<string>): Option<string> {
    if value.Some? && NormalizeText(value.value) != "" then Some(NormalizeText(value.value)) else None
  }

  lemma {:induction false} TrimLeftKeepsClean(s: string)
    requires IsClean(s)
    ensures IsClean(TrimLeft(s))
  {
    if s != "" && IsSpace(s[0]) {
      assert s == [s[0]] + s[1..];
      CleanCons(s[0], s[1..]);
      TrimLeftKeepsClean(s[1..]);
    }
  }

  lemma NormalizingTextTwiceIsOnce(s: string)
    ensures NormalizeText(NormalizeText(s)) == NormalizeText(s)
  {
    var c := Collapse(s);
    CollapseIsClean(s);
    TrimLeftKeepsClean(c);
    TrimRightStrips(TrimLeft(c));
    assert IsClean(NormalizeText(s)) by { hide IsSpace, Collapse, TrimLeft, TrimRight; }
    CollapsedStays(NormalizeText(s), false);
    StripStrips(c);
    StrippedStays(NormalizeText(s));
  }

  function UpperChar(c: char): char {
    if 'a' <= c <= 'z' then (c as int - 32) as char else c
  }

  function Upper(s: string): string {
    seq(|s|, i requires 0 <= i < |s| => UpperChar(s[i]))
  }

  predicate IsAlpha(s: string) {
    forall c | c in s :: 'A' <= c <= 'Z' || 'a' <= c <= 'z'
  }

  predicate OccursAt(s: string, part: string, i: nat) {
    i + |part| <= |s| && s[i..i + |part|] == part
  }

  predicate Contains(s: string, part: string) {
    exists i | 0 <= i <= |s| :: OccursAt(s, part, i)
  }

  predicate ContainsAny(s: string, parts: seq<string>) {
    exists part | part in parts :: Contains(s, part)
  }

  // ---------------------------------------------------------------------
  // Currency, period, label
  // ---------------------------------------------------------------------

  function NormalizeCurrency(value: Option<string>): Option<string> {
    match OptionalText(value)
    case None => None
    case Some(text) =>
      var normalized := Upper(text);
      if normalized in ["RP", "RUPIAH"] then Some("IDR")
      else if normalized in ["$", "US$", "USD"] then Some("USD")
      else if |normalized| == 3 && IsAlpha(normalized) then Some(normalized)
      else None
  }

  function CurrencyFromLabel(display: string): Option<string> {
    var lowered := Lower(display);
    if ContainsAny(lowered, ["rp", "idr", "rupiah"]) then Some("IDR")
    else if Contains(lowered, "usd") || Contains(display, "$") then Some("USD")
    else if Contains(lowered, "sgd") then Some("SGD")
    else None
  }

  function NormalizePeriod(value: PeriodInput): Option<SalaryPeriod> {
    match value
    case NoPeriod => None
    case Period(period) => Some(period)
    case PeriodText(text) =>
      match OptionalText(Some(text))
      case None => None
      case Some(t) =>
        var normalized := Replaced(Replaced(Lower(t), '_', ' '), '-', ' ');
        if normalized in ["month", "monthly", "bulan", "per bulan", "mo"] then Some(Monthly)
        else if normalized in ["year", "yearly", "tahun", "per tahun", "yr"] then Some(Yearly)
        else if normalized in ["day", "daily", "hari", "per hari"] then Some(Daily)
        else if normalized in ["hour", "hourly", "jam", "per jam"] then Some(Hourly)
        else Some(Unknown)
  }

  function PeriodFromLabel(display: string): Option<SalaryPeriod> {
    var lowered := Lower(display);
    if ContainsAny(lowered, ["/bulan", "per bulan", "monthly", "month"]) then Some(Monthly)
    else if ContainsAny(lowered, ["/tahun", "per tahun", "yearly", "year"]) then Some(Yearly)
    else if ContainsAny(lowered, ["/hari", "per hari", "daily", "day"]) then Some(Daily)
    else if ContainsAny(lowered, ["/jam", "per jam", "hourly", "hour"]) then Some(Hourly)
    else None
  }

  datatype ParsedLabel = ParsedLabel(
    minAmount: Option<int>, maxAmount: Option<int>, currency: Option<string>, period: Option<SalaryPeriod>)

  function ParseSalaryLabel(lib: Library, display: Option<string>): ParsedLabel {
    match display
    case None => ParsedLabel(None, None, None, None)
    case Some(text) =>
      var amounts := lib.amounts(text);
      ParsedLabel(if |amounts| > 0 then Some(amounts[0]) else None,
                  if |amounts| > 1 then Some(amounts[1]) else None,
                  CurrencyFromLabel(text), PeriodFromLabel(text))
  }

  /** Python's int() drops the fraction on either side of zero. */
  function Truncated(r: real): int {
    if r >= 0.0 then r.Floor else -((-r).Floor)
  }

  function OptionalInt(lib: Library, value: Amount): Option<int> {
    match value
    case Absent => None
    case Whole(n) => Some(n)
    case Float(r) => if r == r.Floor as real then Some(r.Floor) else None
    case Exact(d) => Some(Truncated(d))
    case Literal(s) =>
      match ParseDecimalNumber(lib, s)
      case None => None
      case Some(d) => Some(Truncated(d))
  }

  /** An amount is kept when it is whole; a decimal, or text that reads as one, loses its
      fraction towards zero; a float with a fraction is no amount. */
  lemma AmountsAreTruncated(lib: Library, value: Amount)
    ensures var kept := OptionalInt(lib, value);
            match value
            case Absent => kept == None
            case Whole(n) => kept == Some(n)
            case Float(r) => forall n: int :: kept == Some(n) <==> n as real == r
            case Exact(d) => kept.Some? && IsTruncation(d, kept.value)
            case Literal(s) =>
              match ParseDecimalNumber(lib, s)
              case None => kept == None
              case Some(d) => kept.Some? && IsTruncation(d, kept.value)
  {
    hide ParseDecimalNumber;
  }

  /** The integer next to d on the side of zero. */
  predicate IsTruncation(d: real, n: int) {
    if d >= 0.0 then 0 <= n && n as real <= d < (n + 1) as real
    else n <= 0 && (n - 1) as real < d <= n as real
  }

  function Or<T>(a: Option<T>, b: Option<T>): Option<T> {
    if a.Some? then a else b
  }

  // ---------------------------------------------------------------------
  // The salary
  // ---------------------------------------------------------------------

  /** The checks of the schema. */
  function Checked(salary: SalarySchema): Result<SalarySchema, Invalid> {
    if salary.minAmount.Some? && salary.minAmount.value < 0 then Failure(NegativeAmount)
    else if salary.maxAmount.Some? && salary.maxAmount.value < 0 then Failure(NegativeAmount)
    else if salary.currency.Some? && |salary.currency.value| != 3 then Failure(CurrencyLength)
    else if salary.minAmount.Some? && salary.maxAmount.Some? && salary.minAmount.value > salary.maxAmount.value
    then Failure(RangeOutOfOrder)
    else Success(salary)
  }

  /** Given, or else read from the label, or else the default. */
  function CurrencyOf(input: Input, parsed: ParsedLabel): Option<string> {
    Or(Or(NormalizeCurrency(input.currency), parsed.currency), NormalizeCurrency(input.defaultCurrency))
  }

  function PeriodOf(input: Input, parsed: ParsedLabel): Option<SalaryPeriod> {
    Or(Or(NormalizePeriod(input.period), parsed.period), NormalizePeriod(input.defaultPeriod))
  }

  function NormalizeSalary(lib: Library, input: Input): Result<Option<SalarySchema>, Invalid> {
    var display := OptionalText(input.labelText);
    var parsed := ParseSalaryLabel(lib, display);
    var currency, period := CurrencyOf(input, parsed), PeriodOf(input, parsed);
    var lo := Or(OptionalInt(lib, input.minAmount), parsed.minAmount);
    var hi := Or(OptionalInt(lib, input.maxAmount), parsed.maxAmount);
    Assembled(lo, hi, currency, period, display)
  }

  /** Amounts the wrong way round change places; without any content there is no salary. */
  function Assembled(lo: Option<int>, hi: Option<int>, currency: Option<string>, period: Option<SalaryPeriod>,
                     display: Option<string>): Result<Option<SalarySchema>, Invalid> {
    var (first, second) := if lo.Some? && hi.Some? && lo.value > hi.value then (hi, lo) else (lo, hi);
    if first.None? && second.None? && currency.None? && period.None? && display.None? then Success(None)
    else
      match Checked(SalarySchema(first, second, currency, period, display))
      case Failure(e) => Failure(e)
      case Success(salary) => Success(Some(salary))
  }

  /** An amount given, or else read from the label. */
  function Chosen(lib: Library, given: Amount, input: Input, k: nat): Option<int> {
    match OptionalInt(lib, given)
    case Some(n) => Some(n)
    case None =>
      if OptionalText(input.labelText).Some? && |lib.amounts(OptionalText(input.labelText).value)| > k
      then Some(lib.amounts(OptionalText(input.labelText).value)[k]) else None
  }

  predicate IsNegative(amount: Option<int>) { amount.Some? && amount.value < 0 }

  /** `made` is what these amounts should become. */
  ghost predicate Orders(lo: Option<int>, hi: Option<int>, made: Result<Option<SalarySchema>, Invalid>) {
    match made
    case Failure(e) => e == NegativeAmount && (IsNegative(lo) || IsNegative(hi))
    case Success(None) => lo.None? && hi.None?
    case Success(Some(salary)) =>
      && !IsNegative(lo) && !IsNegative(hi)
      && multiset{salary.minAmount, salary.maxAmount} == multiset{lo, hi}
      && (lo.None? || hi.None? ==> (salary.minAmount, salary.maxAmount) == (lo, hi))
      && (lo.Some? && hi.Some? ==>
            && salary.minAmount.Some? && salary.maxAmount.Some?
            && salary.minAmount.value <= salary.maxAmount.value)
  }

  lemma AssembledInOrder(lo: Option<int>, hi: Option<int>, currency: Option<string>, period: Option<SalaryPeriod>,
                         display: Option<string>)
    requires currency.Some? ==> |currency.value| == 3
    ensures Orders(lo, hi, Assembled(lo, hi, currency, period, display))
  {
  }

  /** Normalizing fails exactly on a negative amount: the schema's other checks never fire.
      Otherwise the range is ordered and holds the chosen amounts, whichever way round they
      came. */
  lemma RangeIsOrdered(lib: Library, input: Input)
    ensures Orders(Chosen(lib, input.minAmount, input, 0), Chosen(lib, input.maxAmount, input, 1),
                   NormalizeSalary(lib, input))
  {
    hide OptionalText, OptionalInt, NormalizeCurrency, CurrencyFromLabel, PeriodFromLabel, NormalizePeriod,
         Assembled, Orders;
    CurrencyHasThreeLetters(input.currency);
    CurrencyHasThreeLetters(input.defaultCurrency);
    var display := OptionalText(input.labelText);
    var parsed := ParseSalaryLabel(lib, display);
    if display.Some? {
      LabelCurrencyHasThreeLetters(display.value);
    }
    var currency, period := CurrencyOf(input, parsed), PeriodOf(input, parsed);
    var lo := Or(OptionalInt(lib, input.minAmount), parsed.minAmount);
    var hi := Or(OptionalInt(lib, input.maxAmount), parsed.maxAmount);
    AssembledInOrder(lo, hi, currency, period, display);
  }

  /** A currency or period that is given goes before the label's, and the label's before the
      default; the label is kept as it is shown. */
  lemma GivenBeforeLabelBeforeDefault(lib: Library, input: Input)
    requires NormalizeSalary(lib, input).Success? && NormalizeSalary(lib, input).value.Some?
    ensures var salary, display := NormalizeSalary(lib, input).value.value, OptionalText(input.labelText);
            && salary.display == display
            && salary.currency == (
                 if NormalizeCurrency(input.currency).Some? then NormalizeCurrency(input.currency)
                 else if display.Some? && CurrencyFromLabel(display.value).Some? then CurrencyFromLabel(display.value)
                 else NormalizeCurrency(input.defaultCurrency))
            && salary.period == (
                 if NormalizePeriod(input.period).Some? then NormalizePeriod(input.period)
                 else if display.Some? && PeriodFromLabel(display.value).Some? then PeriodFromLabel(display.value)
                 else NormalizePeriod(input.defaultPeriod))
  {
    hide OptionalText, OptionalInt, NormalizeCurrency, CurrencyFromLabel, PeriodFromLabel, NormalizePeriod;
  }

  lemma CurrencyHasThreeLetters(value: Option<string>)
    ensures NormalizeCurrency(value).Some? ==> |NormalizeCurrency(value).value| == 3
  {
  }

  lemma LabelCurrencyHasThreeLetters(display: string)
    ensures CurrencyFromLabel(display).Some? ==> |CurrencyFromLabel(display).value| == 3
  {
  }

  function AsAmount(n: Option<int>): Amount {
    if n.Some? then Whole(n.value) else Absent
  }

  function AsPeriod(p: Option<SalaryPeriod>): PeriodInput {
    if p.Some? then Period(p.value) else NoPeriod
  }

  /** A normalized salary as the input of the normalizer, with the same defaults. */
  function FedBack(salary: SalarySchema, input: Input): Input {
    Input(AsAmount(salary.minAmount), AsAmount(salary.maxAmount), salary.currency, AsPeriod(salary.period),
          salary.display, input.defaultCurrency, input.defaultPeriod)
  }

  lemma UpperCodeStays(code: string)
    requires |code| == 3 && IsAlpha(code) && Upper(code) == code
    ensures NormalizeText(code) == code
  {
    assert forall i | 0 <= i < 3 :: code[i] in code;
    CollapsedStays(code, false);
    StrippedStays(code);
  }

  lemma UpperTwice(s: string)
    ensures Upper(Upper(s)) == Upper(s)
  {
  }

  lemma CurrencyStays(value: Option<string>)
    ensures NormalizeCurrency(NormalizeCurrency(value)) == NormalizeCurrency(value)
  {
    if NormalizeCurrency(value).Some? {
      CurrencyCodeStays(NormalizeCurrency(value).value) by { UpperTwice(OptionalText(value).value); }
    }
  }

  lemma CurrencyCodeStays(code: string)
    requires |code| == 3 && IsAlpha(code) && Upper(code) == code
    ensures NormalizeCurrency(Some(code)) == Some(code)
  {
    UpperCodeStays(code);
    assert code[2] in code && "US$"[2] == '$';
    assert |"RP"| == 2 && |"RUPIAH"| == 6 && |"$"| == 1;
  }

  lemma LabelCurrencyStays(display: string)
    ensures CurrencyFromLabel(display).Some? ==>
              NormalizeCurrency(CurrencyFromLabel(display)) == CurrencyFromLabel(display)
  {
    hide ContainsAny, Contains, Lower, NormalizeCurrency;
    CurrencyCodeStays("IDR");
    CurrencyCodeStays("USD");
    CurrencyCodeStays("SGD");
  }

  lemma CurrencyAgain(given: Option<string>, parsed: Option<string>, default: Option<string>)
    requires parsed.Some? ==> NormalizeCurrency(parsed) == parsed
    ensures var r := Or(Or(NormalizeCurrency(given), parsed), NormalizeCurrency(default));
            Or(Or(NormalizeCurrency(r), parsed), NormalizeCurrency(default)) == r
  {
    hide NormalizeCurrency;
    CurrencyStays(given);
    CurrencyStays(default);
    NothingStays();
  }

  lemma TextAgain(value: Option<string>)
    ensures OptionalText(OptionalText(value)) == OptionalText(value)
  {
    hide NormalizeText;
    if value.Some? {
      NormalizingTextTwiceIsOnce(value.value);
    }
  }

  /** The amounts of an assembled salary stay where they are, also when missing ones are
      looked up again. */
  lemma AssembledAgain(lib: Library, lo: Option<int>, hi: Option<int>, parsed: ParsedLabel, currency: Option<string>,
                       period: Option<SalaryPeriod>, display: Option<string>)
    requires parsed.minAmount.Some? ==> lo.Some?
    requires parsed.maxAmount.Some? ==> hi.Some?
    requires var made := Assembled(lo, hi, currency, period, display); made.Success? && made.value.Some?
    ensures var made := Assembled(lo, hi, currency, period, display);
            var salary := made.value.value;
            && salary.currency == currency && salary.period == period && salary.display == display
            && Assembled(Or(OptionalInt(lib, AsAmount(salary.minAmount)), parsed.minAmount),
                         Or(OptionalInt(lib, AsAmount(salary.maxAmount)), parsed.maxAmount),
                         currency, period, display) == made
  {
    hide ParseDecimalNumber;
  }

  /** A normalized salary fed back with the same defaults is returned as it is. */
  lemma FeedingBackChangesNothing(lib: Library, input: Input)
    requires NormalizeSalary(lib, input).Success? && NormalizeSalary(lib, input).value.Some?
    ensures NormalizeSalary(lib, FedBack(NormalizeSalary(lib, input).value.value, input))
            == NormalizeSalary(lib, input)
  {
    hide CurrencyFromLabel, PeriodFromLabel, NormalizeCurrency, OptionalText, OptionalInt, Assembled;
    var display := OptionalText(input.labelText);
    var parsed := ParseSalaryLabel(lib, display);
    if display.Some? {
      LabelCurrencyStays(display.value);
    }
    TextAgain(input.labelText);
    CurrencyAgain(input.currency, parsed.currency, input.defaultCurrency);
    var currency, period := CurrencyOf(input, parsed), PeriodOf(input, parsed);
    AssembledAgain(lib, Or(OptionalInt(lib, input.minAmount), parsed.minAmount),
                   Or(OptionalInt(lib, input.maxAmount), parsed.maxAmount), parsed, currency, period, display);
  }

  lemma NothingStays()
    ensures NormalizeCurrency(None) == None
  {
  }
}
