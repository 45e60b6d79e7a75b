/** The decimal money codec: a guarded parser and a printer of amounts in minor units. */
module MoneyDecimal {
  import opened Prelude
  import Strings

  datatype Currency = RUB | USD | EUR | OtherCurrency(code: string)

  datatype MoneyError = InvalidAmount | AmountOverflow | NegativeAmount | TooManyFractionalDigits | UnsupportedCurrency

  const FRACTIONAL_DIGITS: nat := 2

  predicate Supported(currency: Currency) {
    !currency.OtherCurrency?
  }

  // ---- Digit strings ------------------------------------------------------

  predicate IsDigit(c: char) {
    '0' <= c <= '9'
  }

  predicate AllDigits(s: string) {
    forall i | 0 <= i < |s| :: IsDigit(s[i])
  }

  function DigitValue(c: char): nat
    requires IsDigit(c)
  {
    c as int - '0' as int
  }

  function DigitChar(n: nat): char
    requires n < 10
  {
    ('0' as int + n) as char
  }

  /** The number a digit string stands for. */
  function Value(s: string): nat
    requires AllDigits(s)
  {
    if s == "" then 0 else 10 * Value(s[..|s| - 1]) + DigitValue(s[|s| - 1])
  }

  /** The shortest digit string of a number, as `strconv.FormatInt` prints it. */
  function Digits(n: nat): string {
    if n < 10 then [DigitChar(n)] else Digits(n / 10) + [DigitChar(n % 10)]
  }

  function Abs(v: int): nat {
    if v < 0 then -v else v
  }

  function FormatInt(v: Int64): string {
    if v < 0 then "-" + Digits(Abs(v)) else Digits(v)
  }

  /** `strconv.ParseInt` on a non-empty digit string: `None` is its range error. */
  function ParseInt(s: string): Option<Int64>
    requires s != "" && AllDigits(s)
  {
    if Value(s) <= MAX_INT64 then Some(Value(s)) else None
  }

  function Zeros(n: nat): string {
    seq(n, _ => '0')
  }

  lemma {:induction false} DigitsValue(n: nat)
    ensures Digits(n) != "" && AllDigits(Digits(n)) && Value(Digits(n)) == n
    ensures n > 0 ==> Digits(n)[0] != '0'
  {
    if n >= 10 {
      DigitsValue(n / 10);
      assert Digits(n)[..|Digits(n)| - 1] == Digits(n / 10);
    } else {
      assert Digits(n)[..0] == "";
    }
  }

  /** A digit string is the shortest one of its value exactly when it has no superfluous leading zero. */
  lemma {:induction false} DigitsOfValue(s: string)
    requires s != "" && AllDigits(s)
    ensures Digits(Value(s)) == s <==> s == "0" || s[0] != '0'
  {
    var rest, last := s[..|s| - 1], s[|s| - 1];
    if rest == "" {
      assert s == [last] && Value(rest) == 0;
    } else {
      DigitsOfValue(rest);
      DigitsValue(Value(rest));
      DigitsValue(Value(s));
      assert s == rest + [last];
      if s[0] == '0' {
        assert rest[0] == '0';
      } else {
        ValuePositive(rest);
        assert Value(s) / 10 == Value(rest) && Value(s) % 10 == DigitValue(last);
      }
    }
  }

  lemma {:induction false} ValuePositive(s: string)
    requires s != "" && AllDigits(s) && s[0] != '0'
    ensures Value(s) > 0
  {
    if |s| > 1 {
      ValuePositive(s[..|s| - 1]);
    }
  }

  // ---- The accepted language ----------------------------------------------

  /** The parts of an amount's text. */
  datatype Decimal = Decimal(negative: bool, major: string, fraction: Option<string>)

  predicate WellFormed(d: Decimal) {
    d.major != "" && AllDigits(d.major) &&
    (d.fraction.Some? ==> d.fraction.value != "" && AllDigits(d.fraction.value))
  }

  function Body(d: Decimal): string {
    d.major + (if d.fraction.Some? then "." + d.fraction.value else "")
  }

  function Text(d: Decimal): string {
    (if d.negative then "-" else "") + Body(d)
  }

  predicate FractionFits(d: Decimal) {
    d.fraction.Some? ==> |d.fraction.value| <= FRACTIONAL_DIGITS
  }

  function Padded(d: Decimal): (s: string)
    requires WellFormed(d) && FractionFits(d)
    ensures AllDigits(s)
  {
    var f := if d.fraction.Some? then d.fraction.value else "";
    f + Zeros(FRACTIONAL_DIGITS - |f|)
  }

  /** The exact number of minor units, without its sign. */
  function Magnitude(d: Decimal): nat
    requires WellFormed(d) && FractionFits(d)
  {
    100 * Value(d.major) + Value(Padded(d))
  }

  function Signed(d: Decimal): int
    requires WellFormed(d) && FractionFits(d)
  {
    if d.negative then -(Magnitude(d) as int) else Magnitude(d)
  }

  /** `s` is an accepted amount and stands for exactly `v` minor units. */
  ghost predicate Denotes(s: string, v: int) {
    exists d :: Reads(d, s, v)
  }

  ghost predicate Reads(d: Decimal, s: string, v: int) {
    WellFormed(d) && FractionFits(d) && Text(d) == s && Magnitude(d) <= MAX_INT64 && v == Signed(d)
  }

  /** What the parser owes on a well-formed text of a supported currency. */
  function Verdict(d: Decimal): Result<int, MoneyError>
    requires WellFormed(d)
  {
    if Value(d.major) > MAX_INT64 / 100 then Failure(AmountOverflow)
    else if !FractionFits(d) then Failure(TooManyFractionalDigits)
    else if Magnitude(d) > MAX_INT64 then Failure(AmountOverflow)
    else Success(Signed(d))
  }

  // ---- Splitting ----------------------------------------------------------

  /** `strings.Split` with a one-character separator. */
  function Split(s: string, c: char): seq<string>
    decreases |s|
  {
    if c !in s then [s] else [s[..Strings.IndexOf(s, c)]] + Split(s[Strings.IndexOf(s, c) + 1..], c)
  }

  lemma SplitTwo(a: string, b: string, c: char)
    requires c !in a && c !in b
    ensures Split(a, c) == [a]
    ensures Split(a + [c] + b, c) == [a, b]
  {
    var s := a + [c] + b;
    assert s[..|a|] == a && s[|a| + 1..] == b;
    Strings.IndexOfFirst(s, c, |a|);
  }

  lemma SplitJoin(s: string, c: char)
    ensures |Split(s, c)| == 1 ==> Split(s, c)[0] == s
    ensures |Split(s, c)| == 2 ==> s == Split(s, c)[0] + [c] + Split(s, c)[1]
    ensures |Split(s, c)| >= 1
  {
    if c in s {
      var i := Strings.IndexOf(s, c);
      assert s == s[..i] + [c] + s[i + 1..];
    }
  }

  lemma TrimmedText(s: string)
    requires s != "" && !Strings.IsSpace(s[0]) && !Strings.IsSpace(s[|s| - 1])
    ensures Strings.TrimSpace(s) == s
  {
  }

  function Parts(d: Decimal): seq<string> {
    if d.fraction.Some? then [d.major, d.fraction.value] else [d.major]
  }

  lemma SplitBody(d: Decimal)
    requires WellFormed(d)
    ensures Split(Body(d), '.') == Parts(d)
  {
    if d.fraction.Some? {
      SplitTwo(d.major, d.fraction.value, '.');
      assert Body(d) == d.major + ['.'] + d.fraction.value;
    } else {
      SplitTwo(d.major, "", '.');
      assert Body(d) == d.major;
    }
  }

  lemma TextTrimmed(d: Decimal)
    requires WellFormed(d)
    ensures Strings.TrimSpace(Text(d)) == Text(d)
  {
    assert Text(d)[0] == '-' || Text(d)[0] == Body(d)[0];
    TrimmedText(Text(d));
  }

  /** A well-formed text passes the parser's textual checks and splits into its own parts. */
  lemma TextParts(d: Decimal)
    requires WellFormed(d)
    ensures Text(d) != "" && Strings.TrimSpace(Text(d)) == Text(d) && ',' !in Text(d)
    ensures Text(d)[0] == '-' <==> d.negative
    ensures (if d.negative then Text(d)[1..] else Text(d)) == Body(d)
    ensures Split(Body(d), '.') == Parts(d)
  {
    TextTrimmed(d);
    SplitBody(d);
  }

  /** An amount's text has one reading. */
  lemma TextInjective(d: Decimal, e: Decimal)
    requires WellFormed(d) && WellFormed(e) && Text(d) == Text(e)
    ensures d == e
  {
    TextParts(d);
    TextParts(e);
    assert Parts(d) == Parts(e);
    assert Parts(d)[0] == Parts(e)[0];
    if d.fraction.Some? {
      assert Parts(d)[1] == Parts(e)[1];
    }
  }

  /** The reading of an amount's text, when it has one. */
  ghost function Reading(amount: string): (r: Option<Decimal>)
    ensures r.Some? ==> WellFormed(r.value) && Text(r.value) == amount
    ensures r.None? ==> forall d | WellFormed(d) :: Text(d) != amount
  {
    if exists d :: WellFormed(d) && Text(d) == amount then
      var d :| WellFormed(d) && Text(d) == amount;
      Some(d)
    else None
  }

  lemma ReadingOf(d: Decimal)
    requires WellFormed(d)
    ensures Reading(Text(d)) == Some(d)
  {
    TextInjective(d, Reading(Text(d)).value);
  }

  /** Why parts that spell no decimal are refused: a major part too large is noticed before a malformed fraction. */
  function PartsRefusal(parts: seq<string>): MoneyError
    requires 1 <= |parts|
  {
    if parts[0] != "" && AllDigits(parts[0]) && Value(parts[0]) > MAX_INT64 / 100 then AmountOverflow else InvalidAmount
  }

  /** Why a text that is no amount is refused. */
  function Refusal(amount: string): MoneyError {
    var parts := Split(Unsigned(amount), '.');
    SplitJoin(Unsigned(amount), '.');
    if Strings.TrimSpace(amount) != amount || ',' in amount || |parts| > 2 then InvalidAmount else PartsRefusal(parts)
  }

  /** The parser's answer on a supported currency: the verdict on the reading, if there is one, or the refusal. */
  ghost predicate Answers(r: Result<int, MoneyError>, amount: string) {
    match Reading(amount)
    case Some(d) => r == Verdict(d)
    case None => r == Failure(Refusal(amount))
  }

  /** The parser accepts exactly the amounts that stand for a number, and returns that number. */
  lemma AnswersExactly(r: Result<int, MoneyError>, amount: string)
    requires Answers(r, amount)
    ensures forall v :: r == Success(v) <==> Denotes(amount, v)
    ensures r.Failure? ==> r.error in {InvalidAmount, AmountOverflow, TooManyFractionalDigits}
  {
    forall v ensures r == Success(v) <==> Denotes(amount, v) {
      if Denotes(amount, v) {
        var d :| Reads(d, amount, v);
        ReadingOf(d);
        assert Value(d.major) <= MAX_INT64 / 100;
      } else if r == Success(v) {
        assert Reads(Reading(amount).value, amount, v);
      }
    }
  }

  // ---- The parser ---------------------------------------------------------

  method IsDigits(value: string) returns (r: bool)
    ensures r <==> value != "" && AllDigits(value)
  {
    if value == "" {
      return false;
    }
    for i := 0 to |value|
      invariant forall j | 0 <= j < i :: IsDigit(value[j])
    {
      if value[i] < '0' || value[i] > '9' {
        return false;
      }
    }
    return true;
  }

  function Pow10(n: nat): nat {
    if n == 0 then 1 else 10 * Pow10(n - 1)
  }

  method Int64Pow10(power: nat) returns (result: Int64)
    requires Pow10(power) <= MAX_INT64
    ensures result == Pow10(power)
  {
    result := 1;
    for i := 0 to power
      invariant result == Pow10(i)
    {
      PowMonotone(i + 1, power);
      result := result * 10;
    }
  }

  lemma {:induction false} PowMonotone(m: nat, n: nat)
    requires m <= n
    ensures Pow10(m) <= Pow10(n)
  {
    if m < n {
      PowMonotone(m, n - 1);
    }
  }

  lemma ValueBound2(s: string)
    requires |s| == 2 && AllDigits(s)
    ensures Value(s) == 10 * DigitValue(s[0]) + DigitValue(s[1])
    ensures Value(s) < 100
  {
    assert s[..1] == [s[0]] && s[..1][..0] == "";
    assert Value(s[..1]) == DigitValue(s[0]);
  }

  /** The decimal that a list of parts spells. */
  function FromParts(negative: bool, parts: seq<string>): Decimal
    requires 1 <= |parts|
  {
    Decimal(negative, parts[0], if |parts| == 2 then Some(parts[1]) else None)
  }

  /** The numeric half of the parser. Every local is an `int64`, so no intermediate step can overflow. */
  method ParseParts(parts: seq<string>) returns (r: Result<Int64, MoneyError>)
    requires 1 <= |parts| <= 2
    ensures r.Success? ==> 0 <= r.value
    ensures WellFormed(FromParts(false, parts)) ==> r == Verdict(FromParts(false, parts))
    ensures !WellFormed(FromParts(false, parts)) ==> r == Failure(PartsRefusal(parts))
  {
    var fractionalDigits := FRACTIONAL_DIGITS;
    ghost var read := FromParts(false, parts);
    if parts[0] == "" {
      return Failure(InvalidAmount);
    }
    var majorOk := IsDigits(parts[0]);
    if !majorOk {
      return Failure(InvalidAmount);
    }

    var parsedMajor := ParseInt(parts[0]);
    if parsedMajor.None? {
      return Failure(AmountOverflow);
    }
    var major: Int64 := parsedMajor.value;
    assert Pow10(2) == 100 by {
      assert Pow10(2) == 10 * (10 * Pow10(0));
    }
    var multiplier := Int64Pow10(fractionalDigits);
    if major > MAX_INT64 / multiplier {
      return Failure(AmountOverflow);
    }
    var minor: Int64 := major * multiplier;

    if |parts| == 2 {
      var fracPart := parts[1];
      var fracOk := IsDigits(fracPart);
      if fracPart == "" || !fracOk {
        return Failure(InvalidAmount);
      }
      if |fracPart| > fractionalDigits {
        return Failure(TooManyFractionalDigits);
      }
      var padded := fracPart + Zeros(fractionalDigits - |fracPart|);
      assert padded == Padded(read);
      ValueBound2(padded);
      var parsedFraction := ParseInt(padded);
      var fraction: Int64 := parsedFraction.value;
      if minor > MAX_INT64 - fraction {
        return Failure(AmountOverflow);
      }
      minor := minor + fraction;
    } else {
      assert Padded(read) == "00";
      ValueBound2("00");
    }
    return Success(minor);
  }

  lemma VerdictSigned(d: Decimal)
    requires WellFormed(d) && d.negative
    ensures Verdict(d) == match Verdict(d.(negative := false))
                          case Success(v) => Success(-v)
                          case Failure(e) => Failure(e)
  {
    if FractionFits(d) {
      assert Padded(d) == Padded(d.(negative := false));
    }
  }

  lemma TextOfParts(negative: bool, normalized: string, parts: seq<string>)
    requires parts == Split(normalized, '.') && |parts| <= 2
    ensures 1 <= |parts|
    ensures Text(FromParts(negative, parts)) == (if negative then "-" else "") + normalized
  {
    SplitJoin(normalized, '.');
    if |parts| == 2 {
      assert Body(FromParts(negative, parts)) == parts[0] + ['.'] + parts[1];
    }
  }

  /** Sign and unsigned text of an amount. */
  function Unsigned(amount: string): string {
    if "-" <= amount then amount[1..] else amount
  }

  /** An amount that has a reading passes the textual checks and splits into at most two parts. */
  lemma ReadingPasses(amount: string)
    requires Reading(amount).Some?
    ensures amount != "" && Strings.TrimSpace(amount) == amount && ',' !in amount
    ensures |Split(Unsigned(amount), '.')| <= 2
  {
    TextParts(Reading(amount).value);
  }

  /** The reading of an amount is spelled by its sign and its parts. */
  lemma ReadingFromParts(amount: string)
    requires |Split(Unsigned(amount), '.')| <= 2
    ensures 1 <= |Split(Unsigned(amount), '.')|
    ensures var d := FromParts("-" <= amount, Split(Unsigned(amount), '.'));
            Reading(amount) == if WellFormed(d) then Some(d) else None
  {
    var parts := Split(Unsigned(amount), '.');
    TextOfParts("-" <= amount, Unsigned(amount), parts);
    var d := FromParts("-" <= amount, parts);
    assert Text(d) == amount;
    if WellFormed(d) {
      ReadingOf(d);
    } else if Reading(amount).Some? {
      TextParts(Reading(amount).value);
    }
  }

  /** Parses an amount: the verdict on its reading, or a refusal when it has none. */
  method ParseMinorUnitsDecimal(amount: string, currency: Currency) returns (r: Result<Int64, MoneyError>)
    ensures !Supported(currency) ==> r == Failure(UnsupportedCurrency)
    ensures Supported(currency) ==> Answers(r, amount)
  {
    if !Supported(currency) {
      return Failure(UnsupportedCurrency);
    }
    if Reading(amount).Some? {
      ReadingPasses(amount);
    }

    var normalized := amount;
    if normalized == "" || Strings.TrimSpace(normalized) != normalized || ',' in normalized {
      return Failure(InvalidAmount);
    }

    var isNegative := false;
    if "-" <= normalized {
      isNegative := true;
      normalized := normalized[1..];
    }

    var parts := Split(normalized, '.');
    if |parts| > 2 {
      return Failure(InvalidAmount);
    }
    ReadingFromParts(amount);
    var parsed := ParseParts(parts);
    if isNegative && WellFormed(FromParts(true, parts)) {
      VerdictSigned(FromParts(true, parts));
    }
    if parsed.Success? && isNegative {
      return Success(0 - parsed.value);
    }
    return parsed;
  }

  method ParseMinorUnitsDecimalNonNegative(amount: string, currency: Currency) returns (r: Result<Int64, MoneyError>)
    ensures !Supported(currency) ==> r == Failure(UnsupportedCurrency)
    ensures Supported(currency) ==> forall v :: r == Success(v) <==> 0 <= v && Denotes(amount, v)
    ensures Supported(currency) ==> (r == Failure(NegativeAmount) <==> exists v :: v < 0 && Denotes(amount, v))
  {
    var parsed := ParseMinorUnitsDecimal(amount, currency);
    if Supported(currency) {
      AnswersExactly(parsed, amount);
    }
    if parsed.Failure? {
      return Failure(parsed.error);
    }
    if parsed.value < 0 {
      return Failure(NegativeAmount);
    }
    return Success(parsed.value);
  }

  /** An accepted amount stands for one number. */
  lemma DenotesUnique(s: string)
    ensures forall v, w :: Denotes(s, v) && Denotes(s, w) ==> v == w
  {
    forall v, w | Denotes(s, v) && Denotes(s, w) ensures v == w {
      var d :| Reads(d, s, v);
      var e :| Reads(e, s, w);
      TextInjective(d, e);
    }
  }

  // ---- The printer --------------------------------------------------------

  /** The one canonical reading of a number of minor units. */
  function Canonical(v: int): Decimal {
    var n := Abs(v);
    Decimal(v < 0, Digits(n / 100), Some([DigitChar(n / 10 % 10), DigitChar(n % 10)]))
  }

  method FormatMinorUnitsDecimal(minorUnits: Int64, currency: Currency) returns (r: Result<string, MoneyError>)
    ensures !Supported(currency) ==> r == Failure(UnsupportedCurrency)
    ensures Supported(currency) ==> r == Success(Text(Canonical(minorUnits)))
  {
    if !Supported(currency) {
      return Failure(UnsupportedCurrency);
    }
    var fractionalDigits := FRACTIONAL_DIGITS;
    ghost var n := Abs(minorUnits);
    FormatIntParts(minorUnits);

    var sign := "";
    var digits := FormatInt(minorUnits);
    if "-" <= digits {
      sign := "-";
      digits := digits[1..];
    }

    if |digits| <= fractionalDigits {
      digits := Zeros(fractionalDigits + 1 - |digits|) + digits;
    }
    DigitsSplit(n, digits);
    var major := digits[..|digits| - fractionalDigits];
    var fraction := digits[|digits| - fractionalDigits..];
    ghost var d := Canonical(minorUnits);
    assert Body(d) == major + ("." + fraction);
    assert sign + major + "." + fraction == sign + Body(d);
    return Success(sign + major + "." + fraction);
  }

  lemma FormatIntParts(v: Int64)
    ensures Unsigned(FormatInt(v)) == Digits(Abs(v)) && ("-" <= FormatInt(v) <==> v < 0)
  {
    DigitsValue(Abs(v));
    assert IsDigit(Digits(Abs(v))[0]);
  }

  /** The last two characters of the zero-padded digits are the fraction, the others the major part. */
  lemma DigitsSplit(n: nat, digits: string)
    requires digits == if |Digits(n)| <= 2 then Zeros(3 - |Digits(n)|) + Digits(n) else Digits(n)
    ensures |digits| >= 3
    ensures digits[..|digits| - 2] == Digits(n / 100)
    ensures digits[|digits| - 2..] == [DigitChar(n / 10 % 10), DigitChar(n % 10)]
  {
    var tens, hundreds := n / 10, n / 100;
    if n >= 100 {
      LastTwoDigits(n, tens, hundreds);
    } else {
      FewDigits(n, tens, digits);
    }
    var fraction := [DigitChar(tens % 10), DigitChar(n % 10)];
    assert digits == Digits(hundreds) + fraction;
  }

  lemma FewDigits(n: nat, tens: nat, digits: string)
    requires n < 100 && tens == n / 10 && |Digits(n)| <= 2 && digits == Zeros(3 - |Digits(n)|) + Digits(n)
    ensures digits == Digits(0) + [DigitChar(tens % 10), DigitChar(n % 10)]
  {
    if n >= 10 {
      assert Digits(tens) == [DigitChar(tens)];
    }
  }

  lemma LastTwoDigits(n: nat, tens: nat, hundreds: nat)
    requires n >= 100 && tens == n / 10 && hundreds == n / 100
    ensures Digits(n) == Digits(hundreds) + [DigitChar(tens % 10), DigitChar(n % 10)]
  {
    assert tens / 10 == hundreds;
    assert Digits(tens) == Digits(hundreds) + [DigitChar(tens % 10)];
  }

  lemma CanonicalMagnitude(v: int)
    ensures WellFormed(Canonical(v)) && FractionFits(Canonical(v))
    ensures Magnitude(Canonical(v)) == Abs(v) && Signed(Canonical(v)) == v
  {
    var n := Abs(v);
    DigitsValue(n / 100);
    var f := Canonical(v).fraction.value;
    assert Padded(Canonical(v)) == f;
    ValueBound2(f);
    assert n == 100 * (n / 100) + 10 * (n / 10 % 10) + n % 10;
  }

  // ---- Round trips --------------------------------------------------------

  /**
   * Parsing a printed amount gives the amount back, and nothing else, for every `int64`
   * but the least one, whose text is printed but not accepted.
   */
  lemma RoundTrip(v: Int64)
    ensures forall w :: Denotes(Text(Canonical(v)), w) <==> w == v && v != MIN_INT64
    ensures WellFormed(Canonical(v))
    ensures Verdict(Canonical(v)) == if v == MIN_INT64 then Failure(AmountOverflow) else Success(v)
  {
    CanonicalMagnitude(v);
    var s := Text(Canonical(v));
    if v != MIN_INT64 {
      assert InInt64(v) && Abs(v) <= MAX_INT64;
      assert Magnitude(Canonical(v)) <= MAX_INT64;
      assert Reads(Canonical(v), s, v);
    }
    forall w | Denotes(s, w) ensures w == v && v != MIN_INT64 {
      var d :| Reads(d, s, w);
      TextInjective(d, Canonical(v));
    }
  }

  /** Two fraction digits, no superfluous leading zero, no negative zero. */
  predicate IsCanonical(d: Decimal)
    requires WellFormed(d)
  {
    d.fraction.Some? && |d.fraction.value| == 2 &&
    (d.major == "0" || d.major[0] != '0') &&
    (d.negative ==> d.major != "0" || d.fraction.value != "00")
  }

  /** What the printer writes for a parsed amount: the same value with its leading zeros dropped and two fraction digits. */
  lemma CanonicalOf(d: Decimal)
    requires WellFormed(d) && FractionFits(d)
    ensures Canonical(Signed(d)) ==
            Decimal(d.negative && Magnitude(d) > 0, Digits(Value(d.major)), Some(Padded(d)))
  {
    var p := Padded(d);
    ValueBound2(p);
    var n := Magnitude(d);
    assert Abs(Signed(d)) == n && n / 100 == Value(d.major) && n % 100 == Value(p);
    assert n / 10 % 10 == DigitValue(p[0]) && n % 10 == DigitValue(p[1]) by {
      assert n / 10 == 10 * Value(d.major) + DigitValue(p[0]);
    }
    assert [DigitChar(n / 10 % 10), DigitChar(n % 10)] == p;
  }

  /** Printing what was parsed reproduces the text exactly when the text was canonical. */
  lemma PrintParsed(d: Decimal)
    requires WellFormed(d) && FractionFits(d)
    ensures Text(Canonical(Signed(d))) == Text(d) <==> IsCanonical(d)
  {
    CanonicalMagnitude(Signed(d));
    CanonicalOf(d);
    DigitsOfValue(d.major);
    if d.major == "0" || d.major[0] != '0' {
      ZeroMagnitude(d);
    }
    if Text(Canonical(Signed(d))) == Text(d) {
      TextInjective(Canonical(Signed(d)), d);
    }
  }

  lemma ZeroMagnitude(d: Decimal)
    requires WellFormed(d) && FractionFits(d)
    requires d.major == "0" || d.major[0] != '0'
    ensures Magnitude(d) == 0 <==> d.major == "0" && Padded(d) == "00"
  {
    ValueBound2(Padded(d));
    assert "0"[..0] == "";
    if d.major != "0" {
      ValuePositive(d.major);
    } else if Padded(d) != "00" {
      assert Padded(d)[0] != '0' || Padded(d)[1] != '0';
    }
  }
}
