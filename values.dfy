/** The Python and pandas value semantics the validator relies on: a raw cell of
    a record, `float(...)` coercion, `pd.isna`, truthiness, `str.strip()` and
    `str(int)`. */
module Values {

  datatype Option<T> = None | Some(value: T)

  /** A binary64 value as `float(...)` yields it. Finite values are kept exact. */
  datatype Float = Real(r: real) | Inf(negative: bool) | NotANumber

  /** One cell of a record: Python None, a number (pandas NaN is Num(NotANumber)),
      or text. */
  datatype Raw = Null | Num(f: Float) | Text(s: string)

  /** `pd.isna(v)`: true exactly for None and NaN. */
  predicate IsNa(v: Raw)
    ensures v.Text? ==> !IsNa(v)
    ensures IsNa(v) ==> v.Null? || v.f == NotANumber
  {
    v == Null || v == Num(NotANumber)
  }

  /** Python truthiness of a cell: None, zero and the empty string are falsy;
      NaN and the infinities are truthy, so a cell can be NA and truthy at once. */
  predicate Truthy(v: Raw)
    ensures v == Null || v == Num(Real(0.0)) || v == Text("") ==> !Truthy(v)
    ensures v == Num(NotANumber) ==> Truthy(v) && IsNa(v)
    ensures v.Text? && v.s != "" ==> Truthy(v)
  {
    match v
    case Null => false
    case Num(f) => f != Real(0.0)
    case Text(s) => s != ""
  }

  /** IEEE-754 `a < b`: every comparison with NaN is false. */
  predicate Less(a: Float, b: Float)
    ensures Less(a, b) ==> a != b
    ensures a == NotANumber || b == NotANumber ==> !Less(a, b)
    ensures a.Real? && b.Real? ==> (Less(a, b) <==> a.r < b.r)
    ensures Less(a, b) ==> a != Inf(false) && b != Inf(true)
  {
    match (a, b)
    case (Real(x), Real(y)) => x < y
    case (Inf(m), Real(_)) => m
    case (Real(_), Inf(n)) => !n
    case (Inf(m), Inf(n)) => m && !n
    case _ => false
  }

  /** IEEE `<` is a strict order on the values it relates. */
  lemma LessStrictOrder(a: Float, b: Float, c: Float)
    ensures Less(a, b) ==> !Less(b, a)
    ensures Less(a, b) && Less(b, c) ==> Less(a, c)
  {
  }

  /** A character Python's `str.isspace()` accepts; `str.strip()` removes these. */
  predicate IsSpace(c: char)
    ensures '\t' <= c <= '\r' || c == ' ' ==> IsSpace(c)
    ensures IsSpace(c) && c < '\U{7F}' ==> c <= ' '
  {
    ('\t' <= c <= '\r') || ('\U{1C}' <= c <= ' ') || c == '\U{85}' || c == '\U{A0}'
    || c == '\U{1680}' || ('\U{2000}' <= c <= '\U{200A}') || c == '\U{2028}' || c == '\U{2029}'
    || c == '\U{202F}' || c == '\U{205F}' || c == '\U{3000}'
  }

  /** A character `float()` skips around a number: the ASCII whitespace of C's
      `isspace` (tab through carriage return, and space) and every non-ASCII
      character `str.isspace()` accepts. The separators U+001C to U+001F are
      whitespace to `str.isspace()` but not to `float()`. */
  predicate IsFloatSpace(c: char)
    ensures IsFloatSpace(c) <==> IsSpace(c) && (c >= '\U{80}' || '\t' <= c <= '\r' || c == ' ')
  {
    IsSpace(c) && !('\U{1C}' <= c <= '\U{1F}')
  }

  /** The number of characters of class ws at the front of s. */
  function LeadingSpaces(s: string, ws: char -> bool): (n: nat)
    ensures n <= |s|
    ensures forall k :: 0 <= k < n ==> ws(s[k])
    ensures n < |s| ==> !ws(s[n])
  {
    if s != [] && ws(s[0]) then 1 + LeadingSpaces(s[1..], ws) else 0
  }
  /** The number of characters of class ws at the end of s. */
  function TrailingSpaces(s: string, ws: char -> bool): (n: nat)
    ensures n <= |s|
    ensures forall k :: |s| - n <= k < |s| ==> ws(s[k])
    ensures n < |s| ==> !ws(s[|s| - n - 1])
  {
    if s != [] && ws(s[|s| - 1]) then 1 + TrailingSpaces(s[..|s| - 1], ws) else 0
  }
  /** s without the characters of class ws at either end. */
  function StripBy(s: string, ws: char -> bool): (r: string)
    ensures r == [] || (!ws(r[0]) && !ws(r[|r| - 1]))
    ensures Trims(s, LeadingSpaces(s, ws), r, ws)
  {
    var i := LeadingSpaces(s, ws);
    var j := |s| - TrailingSpaces(s[i..], ws);
    s[i..j]
  }
  /** r is the part of s that starts at i, and everything of s around it is of class ws. */
  predicate Trims(s: string, i: nat, r: string, ws: char -> bool)
  {
    i + |r| <= |s| && r == s[i..i + |r|]
    && (forall k :: 0 <= k < i ==> ws(s[k]))
    && (forall k :: i + |r| <= k < |s| ==> ws(s[k]))
  }
  /** A string with no character of class ws at either end is its own strip. */
  lemma StripByUnpadded(s: string, ws: char -> bool)
    requires s == [] || (!ws(s[0]) && !ws(s[|s| - 1]))
    ensures StripBy(s, ws) == s
  {
  }
  /** Stripping twice strips no more than stripping once. */
  lemma StripByIdempotent(s: string, ws: char -> bool)
    ensures StripBy(StripBy(s, ws), ws) == StripBy(s, ws)
  {
    StripByUnpadded(StripBy(s, ws), ws);
  }

  /** `s.strip()`: s without its leading and trailing whitespace. */
  function Strip(s: string): (r: string)
    ensures r == [] || (!IsSpace(r[0]) && !IsSpace(r[|r| - 1]))
    ensures Trims(s, LeadingSpaces(s, IsSpace), r, IsSpace)
  {
    StripBy(s, IsSpace)
  }
  /** A string with no whitespace at either end is its own strip. */
  lemma StripUnpadded(s: string)
    requires s == [] || (!IsSpace(s[0]) && !IsSpace(s[|s| - 1]))
    ensures Strip(s) == s
  {
    StripByUnpadded(s, IsSpace);
  }
  /** `s.strip().strip() == s.strip()`. */
  lemma StripIdempotent(s: string)
    ensures Strip(Strip(s)) == Strip(s)
  {
    StripByIdempotent(s, IsSpace);
  }

  /** The text `float(s)` reads: s without the whitespace `float()` skips at either end. */
  function FloatStrip(s: string): (r: string)
    ensures r == [] || (!IsFloatSpace(r[0]) && !IsFloatSpace(r[|r| - 1]))
    ensures Trims(s, LeadingSpaces(s, IsFloatSpace), r, IsFloatSpace)
  {
    StripBy(s, IsFloatSpace)
  }

  predicate IsDigit(c: char)
  {
    '0' <= c <= '9'
  }

  predicate AllDigits(s: string)
  {
    forall i :: 0 <= i < |s| ==> IsDigit(s[i])
  }

  function DigitValue(c: char): nat
    requires IsDigit(c)
  {
    c as int - '0' as int
  }

  function DigitChar(d: nat): char
    requires d < 10
  {
    ('0' as int + d) as char
  }

  /** The value of a string of decimal digits, most significant first. */
  function DigitsValue(s: string): nat
    requires AllDigits(s)
  {
    if s == [] then 0 else DigitsValue(s[..|s| - 1]) * 10 + DigitValue(s[|s| - 1])
  }

  /** The value of a two-digit string. */
  lemma TwoDigits(s: string)
    requires |s| == 2 && AllDigits(s)
    ensures DigitsValue(s) == DigitValue(s[0]) * 10 + DigitValue(s[1])
  {
    assert s[..1][..0] == [];
    assert DigitsValue(s[..1]) == DigitValue(s[0]);
  }

  /** The value of a four-digit string. */
  lemma FourDigits(s: string)
    requires |s| == 4 && AllDigits(s)
    ensures DigitsValue(s) == DigitValue(s[0]) * 1000 + DigitValue(s[1]) * 100 + DigitValue(s[2]) * 10 + DigitValue(s[3])
  {
    TwoDigits(s[..2]);
    assert s[..3][..2] == s[..2];
  }

  /** `str(n)` for a non-negative Python int: its decimal digits, which read back as n. */
  function DecimalText(n: nat): (s: string)
    ensures |s| > 0 && AllDigits(s)
    ensures DigitsValue(s) == n
    ensures |s| > 1 ==> s[0] != '0'
  {
    if n < 10 then [DigitChar(n)]
    else
      var prefix := DecimalText(n / 10);
      var s := prefix + [DigitChar(n % 10)];
      assert s[..|s| - 1] == prefix;
      assert s[0] == prefix[0];
      s
  }

  /** Distinct numbers have distinct decimal texts. */
  lemma DecimalTextInjective(m: nat, n: nat)
    requires DecimalText(m) == DecimalText(n)
    ensures m == n
  {
  }

  function Pow10(n: nat): (r: nat)
    ensures r > 0
  {
    if n == 0 then 1 else 10 * Pow10(n - 1)
  }

  /** The first index of c in s, or |s| when c does not occur. */
  function IndexOf(s: string, c: char): (k: nat)
    ensures k <= |s|
    ensures k < |s| ==> s[k] == c
    ensures forall i :: 0 <= i < k ==> s[i] != c
  {
    if s == [] then 0
    else if s[0] == c then 0
    else 1 + IndexOf(s[1..], c)
  }

  function LowerChar(c: char): char
  {
    if 'A' <= c <= 'Z' then (c as int + 32) as char else c
  }

  /** ASCII lower-casing, as `float()` compares "nan" and "inf" case-insensitively. */
  function AsciiLower(s: string): (r: string)
    ensures |r| == |s| && forall i :: 0 <= i < |s| ==> r[i] == LowerChar(s[i])
  {
    seq(|s|, i requires 0 <= i < |s| => LowerChar(s[i]))
  }

  /** An unsigned decimal `digits[.digits]` with at least one digit. */
  function ParseDecimal(body: string): (r: Option<real>)
    ensures r.Some? ==> r.value >= 0.0
    ensures AllDigits(body) && body != [] ==> r == Some(DigitsValue(body) as real)
  {
    var k := IndexOf(body, '.');
    var whole := body[..k];
    var frac := if k < |body| then body[k + 1..] else [];
    if AllDigits(whole) && AllDigits(frac) && |whole| + |frac| > 0 then
      assert AllDigits(body) ==> k == |body| && whole == body;
      Some(DigitsValue(whole) as real + DigitsValue(frac) as real / Pow10(|frac|) as real)
    else
      None
  }

  /** Python's `float(s)` on text: the whitespace `float()` skips around the
      number is ignored, the rest is read by ParseNumber. */
  function ParseFloat(s: string): (r: Option<Float>)
    ensures r.Some? ==> FloatStrip(s) != []
  {
    ParseNumber(FloatStrip(s))
  }

  /** `float()` on text without surrounding whitespace: an optional sign, then
      "nan", "inf", "infinity" (any case) or an unsigned decimal. */
  function ParseNumber(t: string): (r: Option<Float>)
    ensures r.Some? ==> t != []
    ensures r.Some? && r.value.Real? && r.value.r < 0.0 ==> t[0] == '-'
  {
    if t == [] then None else ParseUnsigned(Unsigned(t), t[0] == '-')
  }

  /** t without its leading sign, if it has one. */
  function Unsigned(t: string): (body: string)
    requires t != []
    ensures t[0] == '-' || t[0] == '+' ==> body == t[1..]
    ensures t[0] != '-' && t[0] != '+' ==> body == t
  {
    if t[0] == '-' || t[0] == '+' then t[1..] else t
  }

  /** What follows the sign: a word for NaN or infinity, or a decimal, which the
      sign then negates. */
  function ParseUnsigned(body: string, negative: bool): (r: Option<Float>)
    ensures r.Some? && r.value.Real? && r.value.r < 0.0 ==> negative
  {
    var word := AsciiLower(body);
    if word == "nan" then Some(NotANumber)
    else if word == "inf" || word == "infinity" then Some(Inf(negative))
    else
      match ParseDecimal(body)
      case None => None
      case Some(x) => Some(Real(if negative then -x else x))
  }

  /** `float(s)` ignores the whitespace it skips around the number. */
  lemma ParseFloatIgnoresPadding(s: string)
    ensures ParseFloat(s) == ParseFloat(FloatStrip(s))
  {
    StripByIdempotent(s, IsFloatSpace);
  }

  /** Text that starts with anything other than a sign, a digit, a point or the
      first letter of "nan", "inf" or "infinity" is not a number. */
  lemma NoNumberStart(t: string)
    requires t != [] && !IsDigit(t[0]) && !(t[0] in "+-.nNiI")
    ensures ParseNumber(t) == None
  {
    assert Unsigned(t) == t;
    var word := AsciiLower(t);
    assert word[0] == LowerChar(t[0]) && word[0] != 'n' && word[0] != 'i';
    assert "nan"[0] == 'n' && "inf"[0] == 'i' && "infinity"[0] == 'i';
    var k := IndexOf(t, '.');
    assert 0 < k && t[..k][0] == t[0];
  }

  /** `float()` skips less than `str.strip()` removes: an information separator
      in front of a number is whitespace to `strip()` but makes `float()` fail. */
  lemma SeparatorIsNoFloatSpace()
    ensures Strip("\U{1C}5") == "5"
    ensures ParseFloat("\U{1C}5") == None
  {
    StripSeparatorFive();
    FloatRejectsSeparatorFive();
  }
  lemma StripSeparatorFive()
    ensures Strip("\U{1C}5") == "5"
  {
    var s := "\U{1C}5";
    assert !IsSpace(s[1]) && s[1..] == "5";
    assert LeadingSpaces(s, IsSpace) == 1;
    StripUnpadded("5");
  }
  lemma FloatRejectsSeparatorFive()
    ensures ParseFloat("\U{1C}5") == None
  {
    var s := "\U{1C}5";
    assert !IsFloatSpace(s[0]) && !IsFloatSpace(s[1]);
    StripByUnpadded(s, IsFloatSpace);
    NoNumberStart(s);
  }

  /** A digit string is not one of the words `float()` reads as NaN or infinity. */
  lemma DigitsAreNoWord(d: string)
    requires AllDigits(d) && d != []
    ensures AsciiLower(d) != "nan" && AsciiLower(d) != "inf" && AsciiLower(d) != "infinity"
  {
    assert IsDigit(AsciiLower(d)[0]);
    assert "nan"[0] == 'n' && "inf"[0] == 'i' && "infinity"[0] == 'i';
  }

  /** An unsigned digit string reads back as its value, negated under a minus. */
  lemma ParseUnsignedOfDigits(d: string, negative: bool)
    requires AllDigits(d) && d != []
    ensures ParseUnsigned(d, negative) == Some(Real(if negative then -(DigitsValue(d) as real) else DigitsValue(d) as real))
  {
    DigitsAreNoWord(d);
  }

  /** A signed or unsigned digit string reads back as its value. */
  lemma ParseNumberOfDigits(d: string, sign: string)
    requires AllDigits(d) && d != []
    requires sign == "" || sign == "-" || sign == "+"
    ensures ParseNumber(sign + d) == Some(Real(if sign == "-" then -(DigitsValue(d) as real) else DigitsValue(d) as real))
  {
    var t := sign + d;
    assert t[0] == '-' <==> sign == "-";
    assert Unsigned(t) == d;
    ParseUnsignedOfDigits(d, sign == "-");
  }

  /** Space and newline around a number are skipped by `float()`. */
  lemma SpacePaddedFive()
    ensures ParseFloat(" 5\n") == Some(Real(5.0))
  {
    FloatStripPaddedFive();
    ParseNumberOfDigits("5", "");
    assert DigitsValue("5") == 5;
  }
  lemma FloatStripPaddedFive()
    ensures FloatStrip(" 5\n") == "" + "5"
  {
    var padded := " 5\n";
    assert !IsFloatSpace(padded[1]) && padded[1..] == "5\n";
    assert LeadingSpaces(padded, IsFloatSpace) == 1;
    assert "5\n"[..1] == "5";
    assert TrailingSpaces("5\n", IsFloatSpace) == 1;
  }

  /** A signed digit string has no whitespace to strip. */
  lemma SignedDigitsUnpadded(d: string, sign: string)
    requires AllDigits(d) && d != []
    requires sign == "" || sign == "-" || sign == "+"
    ensures FloatStrip(sign + d) == sign + d
  {
    var s := sign + d;
    assert s[|s| - 1] == d[|d| - 1];
    assert !IsFloatSpace(s[0]) && !IsFloatSpace(s[|s| - 1]);
    StripByUnpadded(s, IsFloatSpace);
  }

  /** The text of a non-negative integer, optionally signed, reads back as that integer. */
  lemma ParseFloatOfDecimal(n: nat, sign: string)
    requires sign == "" || sign == "-" || sign == "+"
    ensures ParseFloat(sign + DecimalText(n)) == Some(Real(if sign == "-" then -(n as real) else n as real))
  {
    var d := DecimalText(n);
    SignedDigitsUnpadded(d, sign);
    ParseNumberOfDigits(d, sign);
  }

  /** Python's `float(v)` on a cell: None is a TypeError, a number is itself,
      text is parsed. */
  function Coerce(v: Raw): (r: Option<Float>)
    ensures v.Null? ==> r.None?
    ensures v.Num? ==> r == Some(v.f)
  {
    match v
    case Null => None
    case Num(f) => Some(f)
    case Text(s) => ParseFloat(s)
  }

  /** A cell holding the text of an integer coerces to that integer. */
  lemma CoerceOfDecimal(n: nat, sign: string)
    requires sign == "" || sign == "-" || sign == "+"
    ensures Coerce(Text(sign + DecimalText(n))) == Some(Real(if sign == "-" then -(n as real) else n as real))
  {
    ParseFloatOfDecimal(n, sign);
  }

  /** Python's `int(x)` on a finite float: truncation toward zero. */
  function TruncToInt(x: real): (q: int)
    ensures x >= 0.0 ==> 0 <= q && q as real <= x < q as real + 1.0
    ensures x < 0.0 ==> q <= 0 && q as real - 1.0 < x <= q as real
  {
    if x >= 0.0 then x.Floor else -((-x).Floor)
  }

  /** Python's `int(f)` on a float: NaN and the infinities raise, so there is no result. */
  function IntOf(f: Float): (r: Option<int>)
    ensures r.Some? <==> f.Real?
  {
    match f
    case Real(x) => Some(TruncToInt(x))
    case _ => None
  }
}
