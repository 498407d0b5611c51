/** The field rules (`ValidationRules`): stateless checks of one or two cells,
    each answering valid, or invalid with a diagnostic. */
module Rules {
  import opened Values

  const PriceMin: int := 0
  const PriceMax: int := 10000
  const QuantityMin: int := 1
  const QuantityMax: int := 100
  const ValidCities: set<string> := {"Dubai", "Abu Dhabi", "Sharjah"}
  const ValidChannels: set<string> := {"App", "Web", "Marketplace"}
  const ValidPaymentStatus: set<string> := {"Paid", "Failed", "Refunded"}

  /** The diagnostic of a failed rule. A message without a value in it is kept
      literally; a message that shows a value keeps the value, not its formatting. */
  datatype Detail =
    | Literal(text: string)                           // "Missing timestamp", "Missing city", ...
    | InvalidFormat(value: Raw)                       // "Invalid format: {value}"
    | Unparsable(value: Raw)                          // "Unparsable: {value}"
    | OutsideRange(low: int, high: int, got: Float)   // "Outside range [low, high]: {p}"
    | OutsideIntRange(lowest: int, highest: int, truncated: int)  // "Outside range [low, high]: {q}"
    | NotNumeric(value: Raw)                          // "Not numeric: {value}"
    | NotInSet(field: string, shown: Raw)             // "Invalid city: {city}", ...
    | CostAbovePrice(cost: Float, price: Float)       // "Cost {c} > Price {p}"
    | NegativeStock(stock: Float)                     // "Negative stock: {s}"

  /** A rule's answer: `(True, None)` or `(False, message)`. */
  datatype Verdict = Valid | Invalid(detail: Detail)

  // ---------------------------------------------------------------------------
  // Timestamp

  /** What the pattern `\d{4}-\d{2}-\d{2} \d{2}:\d{2}:\d{2}` asks at position i. */
  predicate FitsPattern(c: char, i: int)
  {
    if i == 4 || i == 7 then c == '-'
    else if i == 10 then c == ' '
    else if i == 13 || i == 16 then c == ':'
    else IsDigit(c)
  }

  /** `re.match` of the anchored timestamp pattern. Python's `$` also matches
      just before a final newline, so one trailing "\n" is let through. */
  predicate MatchesTimestampPattern(s: string)
    ensures MatchesTimestampPattern(s) ==> |s| == 19 || (|s| == 20 && s[19] == '\n')
    ensures MatchesTimestampPattern(s) ==>
      s[4] == '-' && s[7] == '-' && s[10] == ' ' && s[13] == ':' && s[16] == ':'
  {
    (|s| == 19 || (|s| == 20 && s[19] == '\n'))
    && forall i :: 0 <= i < 19 ==> FitsPattern(s[i], i)
  }

  /** A date and time of day, field by field. */
  datatype DateTime = DateTime(year: nat, month: nat, day: nat, hour: nat, minute: nat, second: nat)

  lemma PatternGroupsAreDigits(s: string)
    requires MatchesTimestampPattern(s)
    ensures AllDigits(s[0..4]) && AllDigits(s[5..7]) && AllDigits(s[8..10])
    ensures AllDigits(s[11..13]) && AllDigits(s[14..16]) && AllDigits(s[17..19])
  {
    assert forall i :: 0 <= i < 4 ==> s[0..4][i] == s[i];
    assert forall i :: 0 <= i < 2 ==> s[5..7][i] == s[5 + i] && s[8..10][i] == s[8 + i];
    assert forall i :: 0 <= i < 2 ==> s[11..13][i] == s[11 + i] && s[14..16][i] == s[14 + i];
    assert forall i :: 0 <= i < 2 ==> s[17..19][i] == s[17 + i];
  }

  /** The six digit groups of a text that matches the pattern. */
  function FieldsOf(s: string): DateTime
    requires MatchesTimestampPattern(s)
  {
    PatternGroupsAreDigits(s);
    DateTime(DigitsValue(s[0..4]), DigitsValue(s[5..7]), DigitsValue(s[8..10]),
             DigitsValue(s[11..13]), DigitsValue(s[14..16]), DigitsValue(s[17..19]))
  }

  predicate IsLeapYear(y: nat)
    ensures y % 4 != 0 ==> !IsLeapYear(y)
    ensures y % 100 == 0 && y % 400 != 0 ==> !IsLeapYear(y)
    ensures y % 4 == 0 && y % 100 != 0 ==> IsLeapYear(y)
  {
    y % 4 == 0 && (y % 100 != 0 || y % 400 == 0)
  }

  /** Every fourth century year is a leap year. */
  lemma CenturyLeapYear(y: nat)
    ensures y % 400 == 0 ==> IsLeapYear(y)
  {
    if y % 400 == 0 {
      var k := y / 400;
      assert y == 4 * (100 * k);
    }
  }

  /** The length of a month in the Gregorian calendar. */
  function DaysInMonth(y: nat, m: nat): (d: nat)
    requires 1 <= m <= 12
    ensures 28 <= d <= 31
    ensures m == 2 ==> (d == 29 <==> IsLeapYear(y))
  {
    if m == 2 then (if IsLeapYear(y) then 29 else 28)
    else if m == 4 || m == 6 || m == 9 || m == 11 then 30
    else 31
  }

  /** a is not later than b, comparing field by field. */
  predicate NotLater(a: DateTime, b: DateTime)
  {
    var x := [a.year, a.month, a.day, a.hour, a.minute, a.second];
    var y := [b.year, b.month, b.day, b.hour, b.minute, b.second];
    LexLeq(x, y)
  }

  predicate LexLeq(x: seq<nat>, y: seq<nat>)
    requires |x| == |y|
  {
    x == [] || x[0] < y[0] || (x[0] == y[0] && LexLeq(x[1..], y[1..]))
  }

  /** The whole seconds inside pandas' nanosecond Timestamp range
      (1677-09-21 00:12:43.145224193 to 2262-04-11 23:47:16.854775807). */
  const Earliest := DateTime(1677, 9, 21, 0, 12, 44)
  const Latest := DateTime(2262, 4, 11, 23, 47, 16)

  /** What `pd.to_datetime` accepts: a real Gregorian date and time of day that
      fits a nanosecond Timestamp. */
  predicate ValidDateTime(t: DateTime)
    ensures ValidDateTime(t) ==> 1677 <= t.year <= 2262 && 1 <= t.month <= 12 && 1 <= t.day <= 31
  {
    1 <= t.month <= 12 && 1 <= t.day <= DaysInMonth(t.year, t.month)
    && t.hour < 24 && t.minute < 60 && t.second < 60
    && NotLater(Earliest, t) && NotLater(t, Latest)
  }

  predicate CalendarValid(s: string)
    requires MatchesTimestampPattern(s)
  {
    ValidDateTime(FieldsOf(s))
  }

  /** `validate_timestamp`: missing, then the pattern, then the calendar. */
  function ValidateTimestamp(value: Raw): (r: Verdict)
    ensures r == Invalid(Literal("Missing timestamp")) <==> IsNa(value) || value == Text("")
    ensures r.Valid? <==> value.Text? && MatchesTimestampPattern(value.s) && CalendarValid(value.s)
    ensures r == Invalid(Unparsable(value)) <==>
      value.Text? && MatchesTimestampPattern(value.s) && !CalendarValid(value.s)
  {
    if IsNa(value) || value == Text("") then Invalid(Literal("Missing timestamp"))
    // the text of a number never has the pattern's space, so only text can match
    else if !(value.Text? && MatchesTimestampPattern(value.s)) then Invalid(InvalidFormat(value))
    else if !CalendarValid(value.s) then Invalid(Unparsable(value))
    else Valid
  }

  /** Two digits at position i, read as a number. */
  function Pair(s: string, i: nat): nat
    requires i + 2 <= |s| && IsDigit(s[i]) && IsDigit(s[i + 1])
  {
    DigitValue(s[i]) * 10 + DigitValue(s[i + 1])
  }

  /** The fields of a matching text, digit by digit. */
  lemma FieldsByDigits(s: string)
    requires MatchesTimestampPattern(s)
    ensures FieldsOf(s) == DateTime(Pair(s, 0) * 100 + Pair(s, 2), Pair(s, 5), Pair(s, 8), Pair(s, 11), Pair(s, 14), Pair(s, 17))
  {
    PatternGroupsAreDigits(s);
    FourDigits(s[0..4]); TwoDigits(s[5..7]); TwoDigits(s[8..10]);
    TwoDigits(s[11..13]); TwoDigits(s[14..16]); TwoDigits(s[17..19]);
  }

  /** The fields of a leap day in a leap year. */
  lemma LeapYearSampleFields()
    ensures MatchesTimestampPattern("2024-02-29 10:00:00")
    ensures FieldsOf("2024-02-29 10:00:00") == DateTime(2024, 2, 29, 10, 0, 0)
  {
    assert MatchesTimestampPattern("2024-02-29 10:00:00");
    FieldsByDigits("2024-02-29 10:00:00");
  }

  /** The fields of February 29 in a common year. */
  lemma CommonYearSampleFields()
    ensures MatchesTimestampPattern("2023-02-29 10:00:00")
    ensures FieldsOf("2023-02-29 10:00:00") == DateTime(2023, 2, 29, 10, 0, 0)
  {
    assert MatchesTimestampPattern("2023-02-29 10:00:00");
    FieldsByDigits("2023-02-29 10:00:00");
  }

  /** The calendar admits February 29 in 2024 and not in 2023. */
  lemma SampleDates()
    ensures ValidDateTime(DateTime(2024, 2, 29, 10, 0, 0))
    ensures !ValidDateTime(DateTime(2023, 2, 29, 10, 0, 0))
  {
  }

  /** A well-formed timestamp on February 29 passes in a leap year and is
      "Unparsable" in a common year. */
  lemma LeapDay()
    ensures ValidateTimestamp(Text("2024-02-29 10:00:00")).Valid?
    ensures ValidateTimestamp(Text("2023-02-29 10:00:00")) == Invalid(Unparsable(Text("2023-02-29 10:00:00")))
  {
    LeapYearSampleFields();
    CommonYearSampleFields();
    SampleDates();
  }

  /** An ISO "T" separator does not fit the pattern, so the value is "Invalid
      format" before the calendar is consulted. */
  lemma IsoSeparatorRejected()
    ensures ValidateTimestamp(Text("2024-02-29T10:00:00")) == Invalid(InvalidFormat(Text("2024-02-29T10:00:00")))
  {
    assert !FitsPattern("2024-02-29T10:00:00"[10], 10);
  }

  // ---------------------------------------------------------------------------
  // Numeric ranges

  /** `validate_price`: a float within [0, 10000]; NaN fails neither comparison. */
  function ValidatePrice(value: Raw): (r: Verdict)
    ensures r == Invalid(NotNumeric(value)) <==> Coerce(value).None?
    ensures r.Valid? <==>
      Coerce(value) == Some(NotANumber)
      || (Coerce(value).Some? && Coerce(value).value.Real?
          && PriceMin as real <= Coerce(value).value.r <= PriceMax as real)
    ensures r.Invalid? && Coerce(value).Some? ==>
      r.detail == OutsideRange(PriceMin, PriceMax, Coerce(value).value)
  {
    match Coerce(value)
    case None => Invalid(NotNumeric(value))
    case Some(p) =>
      if Less(p, Real(PriceMin as real)) || Less(Real(PriceMax as real), p) then
        Invalid(OutsideRange(PriceMin, PriceMax, p))
      else
        Valid
  }

  /** `validate_quantity`: `int(float(v))` within [1, 100]. Truncation toward
      zero makes that every real in [1, 101); NaN and the infinities cannot be
      made an int, so they are "Not numeric". */
  function ValidateQuantity(value: Raw): (r: Verdict)
    ensures r == Invalid(NotNumeric(value)) <==> Coerce(value).None? || !Coerce(value).value.Real?
    ensures r.Valid? <==>
      Coerce(value).Some? && Coerce(value).value.Real?
      && QuantityMin as real <= Coerce(value).value.r < (QuantityMax + 1) as real
  {
    match Coerce(value)
    case None => Invalid(NotNumeric(value))
    case Some(f) =>
      match IntOf(f)
      case None => Invalid(NotNumeric(value))
      case Some(q) =>
        if q < QuantityMin || q > QuantityMax then Invalid(OutsideIntRange(QuantityMin, QuantityMax, q))
        else Valid
  }

  /** Both ends of the price range are inside it, NaN passes and 10000.01 does not. */
  lemma PriceBoundaries()
    ensures ValidatePrice(Num(Real(0.0))).Valid? && ValidatePrice(Num(Real(10000.0))).Valid?
    ensures ValidatePrice(Num(Real(10000.01))) == Invalid(OutsideRange(0, 10000, Real(10000.01)))
    ensures ValidatePrice(Num(NotANumber)).Valid?
  {
  }

  /** A price written after an information separator is "Not numeric", because
      `float()` does not skip that character; padded with spaces it is read. */
  lemma PaddedPrices()
    ensures ValidatePrice(Text("\U{1C}5")) == Invalid(NotNumeric(Text("\U{1C}5")))
    ensures ValidatePrice(Text(" 5\n")).Valid?
  {
    SeparatorIsNoFloatSpace();
    SpacePaddedFive();
    PriceOfFinite(Text(" 5\n"), 5.0);
  }

  /** Truncation lets 100.9 through and rejects 0.9; NaN is "Not numeric". */
  lemma QuantityBoundaries()
    ensures ValidateQuantity(Num(Real(1.0))).Valid? && ValidateQuantity(Num(Real(100.0))).Valid?
    ensures ValidateQuantity(Num(Real(100.9))).Valid?
    ensures ValidateQuantity(Num(Real(0.0))) == Invalid(OutsideIntRange(1, 100, 0))
    ensures ValidateQuantity(Num(Real(0.9))) == Invalid(OutsideIntRange(1, 100, 0))
    ensures ValidateQuantity(Num(Real(101.0))) == Invalid(OutsideIntRange(1, 100, 101))
    ensures ValidateQuantity(Num(NotANumber)) == Invalid(NotNumeric(Num(NotANumber)))
  {
  }

  /** A cell that coerces to a finite x is a valid price exactly when x is in [0, 10000]. */
  lemma PriceOfFinite(v: Raw, x: real)
    ensures Coerce(v) == Some(Real(x)) ==> (ValidatePrice(v).Valid? <==> 0.0 <= x <= 10000.0)
  {
  }

  /** A cell that coerces to a finite x is a valid quantity exactly when x is in [1, 101). */
  lemma QuantityOfFinite(v: Raw, x: real)
    ensures Coerce(v) == Some(Real(x)) ==> (ValidateQuantity(v).Valid? <==> 1.0 <= x < 101.0)
  {
  }

  /** A price written as an integer is valid exactly when it lies in [0, 10000]. */
  lemma PriceOfIntegerText(n: nat, sign: string)
    requires sign == "" || sign == "-" || sign == "+"
    ensures ValidatePrice(Text(sign + DecimalText(n))).Valid? <==> (sign != "-" || n == 0) && n <= 10000
  {
    CoerceOfDecimal(n, sign);
    PriceOfFinite(Text(sign + DecimalText(n)), if sign == "-" then -(n as real) else n as real);
  }

  /** A quantity written as an integer is valid exactly when it lies in [1, 100]. */
  lemma QuantityOfIntegerText(n: nat, sign: string)
    requires sign == "" || sign == "-" || sign == "+"
    ensures ValidateQuantity(Text(sign + DecimalText(n))).Valid? <==> sign != "-" && 1 <= n <= 100
  {
    CoerceOfDecimal(n, sign);
    QuantityOfFinite(Text(sign + DecimalText(n)), if sign == "-" then -(n as real) else n as real);
  }

  // ---------------------------------------------------------------------------
  // Closed sets

  /** The shared shape of the city, channel and payment-status rules: missing,
      then membership of the stripped text. The text of a number is never a name. */
  function MemberRule(value: Raw, names: set<string>, missing: string, field: string): (r: Verdict)
    ensures r == Invalid(Literal(missing)) <==> IsNa(value) || value == Text("")
    ensures r.Valid? <==> value.Text? && value.s != "" && Strip(value.s) in names
  {
    if IsNa(value) || value == Text("") then Invalid(Literal(missing))
    else
      match value
      case Text(s) => if Strip(s) in names then Valid else Invalid(NotInSet(field, Text(Strip(s))))
      case _ => Invalid(NotInSet(field, value))
  }

  /** `validate_city` */
  function ValidateCity(value: Raw): (r: Verdict)
    ensures r == Invalid(Literal("Missing city")) <==> IsNa(value) || value == Text("")
    ensures r.Valid? <==> value.Text? && Strip(value.s) in {"Dubai", "Abu Dhabi", "Sharjah"}
  {
    MemberRule(value, ValidCities, "Missing city", "city")
  }

  /** `validate_channel` */
  function ValidateChannel(value: Raw): (r: Verdict)
    ensures r == Invalid(Literal("Missing channel")) <==> IsNa(value) || value == Text("")
    ensures r.Valid? <==> value.Text? && Strip(value.s) in {"App", "Web", "Marketplace"}
  {
    MemberRule(value, ValidChannels, "Missing channel", "channel")
  }

  /** `validate_payment_status` */
  function ValidatePaymentStatus(value: Raw): (r: Verdict)
    ensures r == Invalid(Literal("Missing payment_status")) <==> IsNa(value) || value == Text("")
    ensures r.Valid? <==> value.Text? && Strip(value.s) in {"Paid", "Failed", "Refunded"}
  {
    MemberRule(value, ValidPaymentStatus, "Missing payment_status", "status")
  }

  // ---------------------------------------------------------------------------
  // Cross-field and stock

  /** `validate_cost_constraint`: cost must not exceed price, compared as IEEE
      floats (so an infinite cost exceeds every finite price); when either cell
      cannot be made a float the rule passes. */
  function ValidateCostConstraint(cost: Raw, price: Raw): (r: Verdict)
    ensures Coerce(cost).None? || Coerce(price).None? ==> r == Valid
    ensures Coerce(cost) == Some(NotANumber) || Coerce(price) == Some(NotANumber) ==> r == Valid
    ensures Coerce(cost).Some? && Coerce(cost).value.Real? && Coerce(price).Some? && Coerce(price).value.Real? ==>
      (r.Invalid? <==> Coerce(cost).value.r > Coerce(price).value.r)
    ensures Coerce(cost).Some? && Coerce(price).Some? ==>
      (r.Invalid? <==> Less(Coerce(price).value, Coerce(cost).value))
    ensures Coerce(cost) == Some(Inf(false)) && Coerce(price).Some? ==>
      (r.Invalid? <==> Coerce(price).value != NotANumber && Coerce(price).value != Inf(false))
    ensures r.Invalid? ==> r.detail == CostAbovePrice(Coerce(cost).value, Coerce(price).value)
  {
    match (Coerce(cost), Coerce(price))
    case (Some(c), Some(p)) => if Less(p, c) then Invalid(CostAbovePrice(c, p)) else Valid
    case _ => Valid
  }

  /** `validate_stock`: a float that is not below zero; NaN passes. */
  function ValidateStock(value: Raw): (r: Verdict)
    ensures r == Invalid(NotNumeric(value)) <==> Coerce(value).None?
    ensures r.Valid? <==>
      Coerce(value).Some? && Coerce(value).value != Inf(true)
      && !(Coerce(value).value.Real? && Coerce(value).value.r < 0.0)
  {
    match Coerce(value)
    case None => Invalid(NotNumeric(value))
    case Some(s) => if Less(s, Real(0.0)) then Invalid(NegativeStock(s)) else Valid
  }
}
