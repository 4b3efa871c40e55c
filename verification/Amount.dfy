/** Money amounts on the wire: the printer of the intake server and the parser of the normalizers,
    over Go's 64-bit integers (wrap-around made explicit by Wrap). */
module Amount {

  datatype ParseError = Empty | Format | Precision | MajorUnits | MinorUnits
  datatype Parsed = Value(minorUnits: int) | Invalid(error: ParseError)
  datatype Int64Result = Int64(value: int) | NotInt64

  const TWO_63: int := 0x8000_0000_0000_0000
  const TWO_64: int := 0x1_0000_0000_0000_0000

  predicate IsInt64(x: int) {
    -TWO_63 <= x < TWO_63
  }

  /** Two's-complement reduction of an exact result to 64 bits. */
  function Wrap(x: int): (r: int)
    ensures IsInt64(r)
    ensures IsInt64(x) ==> r == x
    ensures x >= 0 ==> r <= x
  {
    (x + TWO_63) % TWO_64 - TWO_63
  }

  // Go's `/` and `%` by 100 truncate toward zero.
  function Quo100(x: int): int {
    if x >= 0 then x / 100 else -(-x / 100)
  }

  function Rem100(x: int): int {
    if x >= 0 then x % 100 else -(-x % 100)
  }

  /* ---- decimal printing ---- */

  function Digit(d: nat): char
    requires d < 10
  {
    '0' + d as char
  }

  predicate IsDigit(c: char) {
    '0' <= c <= '9'
  }

  predicate AllDigits(s: string) {
    forall i :: 0 <= i < |s| ==> IsDigit(s[i])
  }

  function Digits(n: nat): (s: string)
    ensures s != [] && AllDigits(s)
    ensures n < 10 ==> |s| == 1
  {
    if n < 10 then [Digit(n)] else Digits(n / 10) + [Digit(n % 10)]
  }

  // fmt's %d
  function Decimal(x: int): (s: string)
    ensures s != []
  {
    if x < 0 then "-" + Digits(-x) else Digits(x)
  }

  // fmt's %02d: the sign counts towards the width
  function Decimal02(x: int): string {
    if 0 <= x < 10 then "0" + Digits(x) else Decimal(x)
  }

  // The value printed after the sign.
  function Magnitude(x: int): int
    requires IsInt64(x)
  {
    if x < 0 then Wrap(-x) else x
  }

  function FormatAmount(minorUnits: int): string
    requires IsInt64(minorUnits)
  {
    var value := Magnitude(minorUnits);
    (if minorUnits < 0 then "-" else "") + (Decimal(Quo100(value)) + "." + Decimal02(Rem100(value)))
  }

  /* ---- parsing ---- */

  function DigitsValue(s: string): nat
    requires AllDigits(s)
  {
    if s == [] then 0 else DigitsValue(s[..|s| - 1]) * 10 + (s[|s| - 1] - '0') as nat
  }

  // strconv.ParseInt(s, 10, 64)
  function ParseInt(s: string): Int64Result {
    var signed := s != [] && (s[0] == '+' || s[0] == '-');
    var digits := if signed then s[1..] else s;
    if digits == [] || !AllDigits(digits) then NotInt64
    else
      var value: int := if signed && s[0] == '-' then 0 - DigitsValue(digits) else DigitsValue(digits);
      if IsInt64(value) then Int64(value) else NotInt64
  }

  // unicode.IsSpace
  predicate IsSpace(c: char) {
    || '\t' <= c <= '\r' || c == ' ' || c == '\U{85}' || c == '\U{A0}' || c == '\U{1680}'
    || '\U{2000}' <= c <= '\U{200A}' || c == '\U{2028}' || c == '\U{2029}' || c == '\U{202F}'
    || c == '\U{205F}' || c == '\U{3000}'
  }

  function TrimLeft(s: string): string {
    if s != [] && IsSpace(s[0]) then TrimLeft(s[1..]) else s
  }

  function TrimRight(s: string): string {
    if s != [] && IsSpace(s[|s| - 1]) then TrimRight(s[..|s| - 1]) else s
  }

  function TrimSpace(s: string): string {
    TrimRight(TrimLeft(s))
  }

  function Split(s: string, sep: char): (parts: seq<string>)
    ensures parts != []
  {
    if s == [] then [[]]
    else
      var rest := Split(s[1..], sep);
      if s[0] == sep then [[]] + rest else [[s[0]] + rest[0]] + rest[1..]
  }

  // Go's len: the number of bytes in UTF-8.
  function Bytes(s: string): (n: nat)
    ensures n >= |s|
  {
    if s == "" then 0
    else
      var c := s[|s| - 1] as int;
      Bytes(s[..|s| - 1]) + if c < 0x80 then 1 else if c < 0x800 then 2 else if c < 0x1_0000 then 3 else 4
  }

  lemma {:induction false} DigitBytes(s: string)
    requires AllDigits(s)
    ensures Bytes(s) == |s|
  {
    if s != "" {
      DigitBytes(s[..|s| - 1]);
    }
  }

  lemma OneMoreZero(s: string)
    ensures Bytes(s + "0") == Bytes(s) + 1
  {
    assert (s + "0")[..|s|] == s;
  }

  lemma TwoBytes(s: string)
    requires |s| == 2 && (s[0] == '-' || IsDigit(s[0])) && IsDigit(s[1])
    ensures Bytes(s) == 2
  {
    assert s[..1][..0] == "" && s[..1][0] == s[0];
    assert Bytes(s[..1]) == 1;
  }

  // The minor part padded to two bytes.
  function PadMinor(minor: string): string {
    if Bytes(minor) == 0 then "00" else if Bytes(minor) == 1 then minor + "0" else minor
  }

  // The amount computed from the two parsed parts.
  function Total(majorUnits: int, minorUnits: int, negative: bool): int {
    var total := Wrap(Wrap(majorUnits * 100) + minorUnits);
    if negative then Wrap(-total) else total
  }

  function ParseUnits(major: string, minor: string, negative: bool): Parsed {
    var majorUnits, minorUnits := ParseInt(major), ParseInt(minor);
    if majorUnits.NotInt64? then Invalid(MajorUnits)
    else if minorUnits.NotInt64? then Invalid(MinorUnits)
    else Value(Total(majorUnits.value, minorUnits.value, negative))
  }

  function ParseUnsigned(amount: string, negative: bool): Parsed {
    var parts := Split(amount, '.');
    if |parts| > 2 then Invalid(Format)
    else
      var major := if parts[0] == "" then "0" else parts[0];
      var minor := if |parts| == 2 then parts[1] else "";
      if Bytes(minor) > 2 then Invalid(Precision)
      else ParseUnits(major, PadMinor(minor), negative)
  }

  function ParseAmount(amount: string): Parsed {
    var trimmed := TrimSpace(amount);
    if trimmed == "" then Invalid(Empty)
    else if trimmed[0] == '-' then ParseUnsigned(trimmed[1..], true)
    else ParseUnsigned(trimmed, false)
  }

  /** The parser as the source runs it, reassigning its locals and padding in a loop. */
  method ParseAmountImpl(input: string) returns (result: Parsed)
    ensures result == ParseAmount(input)
  {
    var amount := TrimSpace(input);
    if amount == "" {
      return Invalid(Empty);
    }
    var negative := false;
    if amount[0] == '-' {
      negative := true;
      amount := amount[1..];
    }
    result := ParseUnsignedImpl(amount, negative);
  }

  lemma PadOnce(minor: string)
    requires Bytes(minor) < 2
    ensures PadMinor(minor + "0") == PadMinor(minor)
    ensures Bytes(minor + "0") == Bytes(minor) + 1
  {
    OneMoreZero(minor);
    if Bytes(minor) == 0 {
      assert minor == "";
      assert minor + "0" == "0" && "0" + "0" == "00";
    }
  }

  method Pad(input: string) returns (minor: string)
    ensures minor == PadMinor(input)
  {
    minor := input;
    var n := Bytes(minor);
    while n < 2
      invariant n == Bytes(minor) && PadMinor(minor) == PadMinor(input)
    {
      PadOnce(minor);
      minor, n := minor + "0", n + 1;
    }
  }

  method ParseUnsignedImpl(amount: string, negative: bool) returns (result: Parsed)
    ensures result == ParseUnsigned(amount, negative)
    ensures result.Value? ==> IsInt64(result.minorUnits)
  {
    var parts := Split(amount, '.');
    if |parts| > 2 {
      return Invalid(Format);
    }
    var major, minor := parts[0], "";
    if |parts| == 2 {
      minor := parts[1];
    }
    if major == "" {
      major := "0";
    }
    if Bytes(minor) > 2 {
      return Invalid(Precision);
    }
    assert ParseUnsigned(amount, negative) == ParseUnits(major, PadMinor(minor), negative);
    minor := Pad(minor);
    var majorUnits := ParseInt(major);
    if majorUnits.NotInt64? {
      return Invalid(MajorUnits);
    }
    var minorUnits := ParseInt(minor);
    if minorUnits.NotInt64? {
      return Invalid(MinorUnits);
    }
    var total := Wrap(Wrap(majorUnits.value * 100) + minorUnits.value);
    if negative {
      total := Wrap(-total);
    }
    return Value(total);
  }

  /* ---- printing and parsing are inverse ---- */

  lemma {:induction false} DigitsRoundTrip(n: nat)
    ensures DigitsValue(Digits(n)) == n
  {
    if n >= 10 {
      DigitsRoundTrip(n / 10);
      assert Digits(n)[..|Digits(n)| - 1] == Digits(n / 10);
    } else {
      assert Digits(n)[..0] == [];
    }
  }

  lemma ParseDecimal(x: int)
    requires IsInt64(x)
    ensures ParseInt(Decimal(x)) == Int64(x)
    ensures x >= 0 && x < 10 ==> ParseInt("0" + Digits(x)) == Int64(x)
  {
    var n: nat := if x < 0 then -x else x;
    DigitsRoundTrip(n);
    assert ("-" + Digits(n))[1..] == Digits(n);
    if 0 <= x < 10 {
      var s := "0" + Digits(x);
      assert s[..1] == "0" && s[..1][..0] == "";
      assert DigitsValue(s[..1]) == 0;
      assert s[1] == Digit(x);
    }
  }

  predicate Contains(s: string, c: char) {
    exists i :: 0 <= i < |s| && s[i] == c
  }

  lemma {:induction false} SplitPlain(s: string, sep: char)
    requires !Contains(s, sep)
    ensures Split(s, sep) == [s]
  {
    if s != [] {
      assert forall i :: 0 <= i < |s[1..]| ==> s[1..][i] == s[i + 1];
      assert s[0] != sep;
      SplitPlain(s[1..], sep);
      assert [s[0]] + s[1..] == s;
    }
  }

  lemma {:induction false} SplitOnce(a: string, sep: char, b: string)
    requires !Contains(a, sep) && !Contains(b, sep)
    ensures Split(a + [sep] + b, sep) == [a, b]
  {
    var s := a + [sep] + b;
    if a == [] {
      assert s[1..] == b;
      SplitPlain(b, sep);
    } else {
      assert s[1..] == a[1..] + [sep] + b;
      assert forall i :: 0 <= i < |a[1..]| ==> a[1..][i] == a[i + 1];
      assert a[0] != sep;
      SplitOnce(a[1..], sep, b);
      assert [a[0]] + a[1..] == a;
    }
  }

  lemma TrimNothing(s: string)
    requires s != [] && !IsSpace(s[0]) && !IsSpace(s[|s| - 1])
    ensures TrimSpace(s) == s
  {}

  lemma DecimalShape(x: int)
    ensures !Contains(Decimal(x), '.') && !Contains(Decimal02(x), '.')
    ensures !Contains(Decimal(x), '|')
    ensures forall i :: 0 <= i < |Decimal02(x)| ==> !IsSpace(Decimal02(x)[i])
    ensures Decimal(x)[0] == '-' <==> x < 0
    ensures !IsSpace(Decimal(x)[0])
  {
    var n: nat := if x < 0 then -x else x;
    assert AllDigits(Digits(n));
    assert Digits(n)[0] != '-';
  }

  lemma SmallDecimal02(x: int)
    requires -100 < x < 100
    requires x < 0 ==> -10 < x
    ensures Bytes(Decimal02(x)) == 2 && ParseInt(Decimal02(x)) == Int64(x)
  {
    ParseDecimal(x);
    if x >= 10 {
      assert Digits(x) == Digits(x / 10) + [Digit(x % 10)];
    }
    TwoBytes(Decimal02(x));
  }

  lemma ParseParts(major: string, minor: string, negative: bool, M: int, m: int)
    requires !Contains(major, '.') && !Contains(minor, '.')
    requires major != "" && Bytes(minor) == 2
    requires ParseInt(major) == Int64(M) && ParseInt(minor) == Int64(m)
    ensures ParseUnsigned(major + "." + minor, negative) == Value(Total(M, m, negative))
  {
    SplitOnce(major, '.', minor);
    assert major + "." + minor == major + ['.'] + minor;
  }

  lemma ParseSigned(input: string, body: string, negative: bool)
    requires TrimSpace(input) == (if negative then "-" else "") + body
    requires negative || (body != "" && body[0] != '-')
    ensures ParseAmount(input) == ParseUnsigned(body, negative)
  {
    if negative {
      assert TrimSpace(input)[1..] == body;
    } else {
      assert TrimSpace(input) == body;
    }
  }

  lemma PrintedParts(x: int)
    requires IsInt64(x)
    ensures var major, minor := Quo100(Magnitude(x)), Rem100(Magnitude(x));
            && IsInt64(major) && -10 < minor < 100
            && (x >= 0 ==> major >= 0)
            && Total(major, minor, x < 0) == x
  {
    var value := Magnitude(x);
    assert Quo100(value) * 100 + Rem100(value) == value;
    assert value < 0 ==> x == -TWO_63 && value == -TWO_63;
  }

  lemma SignedTrims(major: string, minor: string, negative: bool)
    requires major != "" && !IsSpace(major[0]) && minor != "" && !IsSpace(minor[|minor| - 1])
    ensures var text := (if negative then "-" else "") + (major + "." + minor); TrimSpace(text) == text
  {
    var text := (if negative then "-" else "") + (major + "." + minor);
    assert text[0] == if negative then '-' else major[0];
    assert text[|text| - 1] == minor[|minor| - 1];
    TrimNothing(text);
  }

  lemma PrintedBody(major: int, minor: int, negative: bool)
    requires IsInt64(major) && -10 < minor < 100 && (!negative ==> major >= 0)
    ensures var body := Decimal(major) + "." + Decimal02(minor);
            ParseAmount((if negative then "-" else "") + body) == Value(Total(major, minor, negative))
  {
    DecimalShape(major);
    DecimalShape(minor);
    SmallDecimal02(minor);
    ParseDecimal(major);
    ParseParts(Decimal(major), Decimal02(minor), negative, major, minor);
    SignedTrims(Decimal(major), Decimal02(minor), negative);
    var body := Decimal(major) + "." + Decimal02(minor);
    assert body[0] == Decimal(major)[0];
    ParseSigned((if negative then "-" else "") + body, body, negative);
  }

  /** Every 64-bit amount survives printing and parsing, -2^63 included: there the printer's
      negation and the parser's negation both wrap, and the two wraps cancel. */
  lemma RoundTrip(x: int)
    requires IsInt64(x)
    ensures ParseAmount(FormatAmount(x)) == Value(x)
  {
    PrintedParts(x);
    PrintedBody(Quo100(Magnitude(x)), Rem100(Magnitude(x)), x < 0);
  }

  lemma FormatInjective(x: int, y: int)
    requires IsInt64(x) && IsInt64(y) && FormatAmount(x) == FormatAmount(y)
    ensures x == y
  {
    RoundTrip(x);
    RoundTrip(y);
  }

  /* ---- what the parser accepts, against the value of a decimal numeral ---- */

  /** A plain decimal numeral: optional minus, digits, optionally a point and at most two digits. */
  datatype Numeral = Numeral(negative: bool, major: string, point: bool, minor: string) {
    predicate Valid() {
      AllDigits(major) && AllDigits(minor) && |minor| <= 2 && (!point ==> minor == "")
    }

    function Text(): string {
      (if negative then "-" else "") + major + if point then "." + minor else ""
    }

    // The value times one hundred.
    function Hundredths(): int
      requires Valid()
    {
      var m := DigitsValue(major) * 100 +
               DigitsValue(minor) * (if |minor| == 0 then 100 else if |minor| == 1 then 10 else 1);
      if negative then -m else m
    }
  }

  predicate Blank(s: string) {
    forall i :: 0 <= i < |s| ==> IsSpace(s[i])
  }

  lemma {:induction false} TrimBlanks(left: string, s: string, right: string)
    requires Blank(left) && Blank(right) && s != [] && !IsSpace(s[0]) && !IsSpace(s[|s| - 1])
    ensures TrimSpace(left + s + right) == s
  {
    if left != [] {
      assert (left + s + right)[1..] == left[1..] + s + right;
      TrimBlanks(left[1..], s, right);
    } else if right != [] {
      var t := s + right;
      assert left + s + right == t && t[0] == s[0];
      assert t[..|t| - 1] == left + s + right[..|right| - 1];
      TrimBlanks(left, s, right[..|right| - 1]);
      assert TrimLeft(t) == t && TrimLeft(t[..|t| - 1]) == t[..|t| - 1];
    } else {
      assert left + s + right == s;
    }
  }

  lemma PaddedMinor(minor: string)
    requires AllDigits(minor) && |minor| <= 2
    ensures AllDigits(PadMinor(minor)) && |PadMinor(minor)| == 2
    ensures DigitsValue(PadMinor(minor)) ==
            DigitsValue(minor) * (if |minor| == 0 then 100 else if |minor| == 1 then 10 else 1)
    ensures DigitsValue(PadMinor(minor)) < 100
  {
    DigitBytes(minor);
    if |minor| == 0 {
      assert "00"[..1] == "0" && "0"[..0] == "";
    } else if |minor| == 1 {
      assert (minor + "0")[..1] == minor;
      assert minor[..0] == "";
    } else {
      assert minor[..1][..0] == "";
      assert DigitsValue(minor[..1]) == (minor[0] - '0') as nat;
    }
  }

  function Body(numeral: Numeral): string {
    numeral.major + if numeral.point then "." + numeral.minor else ""
  }

  lemma SplitNumeral(numeral: Numeral)
    requires numeral.Valid()
    ensures Split(Body(numeral), '.') ==
            if numeral.point then [numeral.major, numeral.minor] else [numeral.major]
  {
    if numeral.point {
      assert Body(numeral) == numeral.major + ['.'] + numeral.minor;
      SplitOnce(numeral.major, '.', numeral.minor);
    } else {
      assert Body(numeral) == numeral.major;
      SplitPlain(numeral.major, '.');
    }
  }

  lemma ParseDigitString(s: string)
    requires s != "" && AllDigits(s)
    ensures ParseInt(s) == if IsInt64(DigitsValue(s)) then Int64(DigitsValue(s)) else NotInt64
  {
    assert IsDigit(s[0]);
  }

  function Exact(major: nat, minor: nat, negative: bool): int {
    if negative then 0 - (major * 100 + minor) else major * 100 + minor
  }

  lemma ExactTotal(M: nat, m: nat, negative: bool)
    requires IsInt64(M) && m < 100
    ensures Total(M, m, negative) == Exact(M, m, negative) <==> IsInt64(Exact(M, m, negative))
  {}

  function MajorPart(numeral: Numeral): string {
    if numeral.major == "" then "0" else numeral.major
  }

  lemma BodyParts(numeral: Numeral)
    requires numeral.Valid()
    ensures ParseUnsigned(Body(numeral), numeral.negative)
            == ParseUnits(MajorPart(numeral), PadMinor(numeral.minor), numeral.negative)
  {
    SplitNumeral(numeral);
    DigitBytes(numeral.minor);
  }

  lemma NumeralParts(numeral: Numeral)
    requires numeral.Valid()
    ensures AllDigits(MajorPart(numeral)) && AllDigits(PadMinor(numeral.minor)) && PadMinor(numeral.minor) != ""
    ensures DigitsValue(PadMinor(numeral.minor)) < 100
    ensures numeral.Hundredths()
            == Exact(DigitsValue(MajorPart(numeral)), DigitsValue(PadMinor(numeral.minor)), numeral.negative)
  {
    PaddedMinor(numeral.minor);
    assert DigitsValue("0") == 0 by { assert "0"[..0] == ""; }
  }

  lemma UnitsExactly(major: string, minor: string, negative: bool)
    requires AllDigits(major) && major != "" && AllDigits(minor) && minor != "" && DigitsValue(minor) < 100
    ensures var exact := Exact(DigitsValue(major), DigitsValue(minor), negative);
            ParseUnits(major, minor, negative) == Value(exact) <==> IsInt64(exact)
  {
    ParseDigitString(major);
    ParseDigitString(minor);
    if IsInt64(DigitsValue(major)) {
      ExactTotal(DigitsValue(major), DigitsValue(minor), negative);
    }
  }

  lemma ParsesBody(numeral: Numeral)
    requires numeral.Valid()
    ensures ParseUnsigned(Body(numeral), numeral.negative) == Value(numeral.Hundredths())
            <==> IsInt64(numeral.Hundredths())
  {
    BodyParts(numeral);
    NumeralParts(numeral);
    UnitsExactly(MajorPart(numeral), PadMinor(numeral.minor), numeral.negative);
  }

  lemma NumeralText(numeral: Numeral)
    requires numeral.Valid() && numeral.Text() != ""
    ensures var text := numeral.Text();
            && !IsSpace(text[0]) && !IsSpace(text[|text| - 1])
            && text == (if numeral.negative then "-" else "") + Body(numeral)
            && (numeral.negative || text[0] != '-')
  {
    var text := numeral.Text();
    assert forall i :: 0 <= i < |text| ==> !IsSpace(text[i]);
  }

  /** On a plain numeral (surrounding blanks allowed) the parser returns the exact number of
      hundredths when, and only when, that number is a 64-bit integer. */
  lemma ParsesExactly(left: string, numeral: Numeral, right: string)
    requires Blank(left) && Blank(right) && numeral.Valid() && numeral.Text() != ""
    ensures ParseAmount(left + numeral.Text() + right) == Value(numeral.Hundredths())
            <==> IsInt64(numeral.Hundredths())
  {
    var text := numeral.Text();
    NumeralText(numeral);
    TrimBlanks(left, text, right);
    ParsesBody(numeral);
    ParseSigned(left + text + right, Body(numeral), numeral.negative);
  }

  /* ---- what the parser rejects, and why ---- */

  function Points(s: string): nat {
    if s == "" then 0 else (if s[0] == '.' then 1 else 0) + Points(s[1..])
  }

  lemma {:induction false} SplitCounts(s: string)
    ensures |Split(s, '.')| == Points(s) + 1
  {
    if s != "" {
      SplitCounts(s[1..]);
    }
  }

  lemma {:induction false} NoPoints(s: string)
    ensures Points(s) == 0 <==> !Contains(s, '.')
  {
    if s != "" {
      NoPoints(s[1..]);
      assert forall i :: 0 <= i < |s[1..]| ==> s[1..][i] == s[i + 1];
      if Contains(s, '.') && s[0] != '.' {
        var i :| 0 <= i < |s| && s[i] == '.';
        assert s[1..][i - 1] == '.';
      }
    }
  }

  lemma {:induction false} PointsAppend(a: string, b: string)
    ensures Points(a + b) == Points(a) + Points(b)
  {
    if a == "" {
      assert a + b == b;
    } else {
      assert (a + b)[1..] == a[1..] + b;
      PointsAppend(a[1..], b);
    }
  }

  // A text with visible ends, after its sign.
  predicate Visible(text: string) {
    text != "" && !IsSpace(text[0]) && !IsSpace(text[|text| - 1])
  }

  lemma ParsesInside(left: string, body: string, negative: bool, right: string)
    requires Blank(left) && Blank(right) && Visible((if negative then "-" else "") + body)
    requires negative || body[0] != '-'
    ensures ParseAmount(left + ((if negative then "-" else "") + body) + right) == ParseUnsigned(body, negative)
  {
    var text := (if negative then "-" else "") + body;
    TrimBlanks(left, text, right);
    ParseSigned(left + text + right, body, negative);
  }

  lemma {:induction false} BlankTrims(s: string)
    requires Blank(s)
    ensures TrimLeft(s) == ""
  {
    if s != "" {
      BlankTrims(s[1..]);
    }
  }

  lemma {:induction false} TrimLeftKeeps(s: string)
    ensures !Blank(s) ==> TrimLeft(s) != "" && !IsSpace(TrimLeft(s)[0])
  {
    if s != "" && IsSpace(s[0]) {
      if !Blank(s) {
        var i :| 0 <= i < |s| && !IsSpace(s[i]);
        assert s[1..][i - 1] == s[i];
      }
      TrimLeftKeeps(s[1..]);
    }
  }

  lemma {:induction false} TrimRightKeeps(s: string)
    requires s != "" && !IsSpace(s[0])
    ensures TrimRight(s) != ""
  {
    if IsSpace(s[|s| - 1]) {
      TrimRightKeeps(s[..|s| - 1]);
    }
  }

  /** Only blank text is rejected as empty. */
  lemma RejectsBlank(s: string)
    ensures ParseAmount(s) == Invalid(Empty) <==> Blank(s)
  {
    if Blank(s) {
      BlankTrims(s);
    } else {
      TrimLeftKeeps(s);
      TrimRightKeeps(TrimLeft(s));
      assert TrimSpace(s) != "";
    }
  }

  /** With two or more points the amount is rejected for its format. */
  lemma RejectsTwoPoints(left: string, body: string, negative: bool, right: string)
    requires Blank(left) && Blank(right) && Visible((if negative then "-" else "") + body)
    requires negative || body[0] != '-'
    ensures ParseAmount(left + ((if negative then "-" else "") + body) + right) == Invalid(Format)
            <==> Points(body) >= 2
  {
    ParsesInside(left, body, negative, right);
    SplitCounts(body);
  }

  function MajorOrZero(major: string): string {
    if major == "" then "0" else major
  }

  lemma PointedBody(major: string, minor: string, negative: bool)
    requires !Contains(major, '.') && !Contains(minor, '.')
    ensures ParseUnsigned(major + "." + minor, negative)
            == if Bytes(minor) > 2 then Invalid(Precision)
               else ParseUnits(MajorOrZero(major), PadMinor(minor), negative)
  {
    SplitOnce(major, '.', minor);
    assert major + "." + minor == major + ['.'] + minor;
  }

  // Text with one point and visible ends.
  predicate Pointed(major: string, minor: string, negative: bool) {
    && !Contains(major, '.') && !Contains(minor, '.')
    && Visible((if negative then "-" else "") + (major + "." + minor))
    && (negative || major == "" || major[0] != '-')
  }

  lemma ParsesPointed(left: string, major: string, minor: string, negative: bool, right: string)
    requires Blank(left) && Blank(right) && Pointed(major, minor, negative)
    ensures ParseAmount(left + ((if negative then "-" else "") + (major + "." + minor)) + right)
            == if Bytes(minor) > 2 then Invalid(Precision)
               else ParseUnits(MajorOrZero(major), PadMinor(minor), negative)
  {
    var body := major + "." + minor;
    assert body[0] == if major == "" then '.' else major[0];
    ParsesInside(left, body, negative, right);
    PointedBody(major, minor, negative);
  }

  /** With one point, more than two bytes after it are rejected for their precision, whatever they are. */
  lemma RejectsPrecision(left: string, major: string, minor: string, negative: bool, right: string)
    requires Blank(left) && Blank(right) && Pointed(major, minor, negative)
    ensures ParseAmount(left + ((if negative then "-" else "") + (major + "." + minor)) + right) == Invalid(Precision)
            <==> Bytes(minor) > 2
  {
    ParsesPointed(left, major, minor, negative, right);
  }

  // An optional sign and digits of a 64-bit value.
  predicate Integer64(s: string) {
    var digits := if s != "" && (s[0] == '+' || s[0] == '-') then s[1..] else s;
    digits != "" && AllDigits(digits)
    && if s[0] == '-' then DigitsValue(digits) <= TWO_63 else DigitsValue(digits) < TWO_63
  }

  lemma ParsesInteger(s: string)
    ensures ParseInt(s).Int64? <==> Integer64(s)
  {}

  lemma ZeroIsInteger()
    ensures Integer64("0") && Integer64("00")
  {
    assert "0"[..0] == "" && "00"[..1] == "0";
  }

  lemma PaddedText(minor: string)
    requires Bytes(minor) <= 2
    ensures PadMinor(minor) == minor + if Bytes(minor) == 0 then "00" else if Bytes(minor) == 1 then "0" else ""
  {
    if Bytes(minor) == 0 {
      assert minor == "" && minor + "00" == "00";
    }
  }

  /** Otherwise it is rejected exactly when the part before the point, or the part after it padded to two
      digits, is not a 64-bit integer; the first is reported first. */
  lemma RejectsUnits(left: string, major: string, minor: string, negative: bool, right: string)
    requires Blank(left) && Blank(right) && Pointed(major, minor, negative) && Bytes(minor) <= 2
    ensures var parsed := ParseAmount(left + ((if negative then "-" else "") + (major + "." + minor)) + right);
            var units := minor + if Bytes(minor) == 0 then "00" else if Bytes(minor) == 1 then "0" else "";
            && (parsed == Invalid(MajorUnits) <==> major != "" && !Integer64(major))
            && (parsed == Invalid(MinorUnits) <==> (major == "" || Integer64(major)) && !Integer64(units))
  {
    ParsesPointed(left, major, minor, negative, right);
    PaddedText(minor);
    ZeroIsInteger();
    ParsesInteger(MajorOrZero(major));
    ParsesInteger(PadMinor(minor));
  }

  /** Without a point the whole text is the major part. */
  lemma RejectsWhole(left: string, major: string, negative: bool, right: string)
    requires Blank(left) && Blank(right) && !Contains(major, '.') && major != ""
    requires Visible((if negative then "-" else "") + major) && (negative || major[0] != '-')
    ensures var parsed := ParseAmount(left + ((if negative then "-" else "") + major) + right);
            if Integer64(major) then parsed.Value? else parsed == Invalid(MajorUnits)
  {
    ParsesInside(left, major, negative, right);
    SplitPlain(major, '.');
    ParsesInteger(major);
    ParsesInteger("00");
    ZeroIsInteger();
  }

  /** What is blank, by code point. */
  lemma BlanksExactly(c: char)
    ensures IsSpace(c) <==>
            var p := c as int;
            || 9 <= p <= 13 || p == 32 || p == 0x85 || p == 0xA0 || p == 0x1680
            || 0x2000 <= p <= 0x200A || p == 0x2028 || p == 0x2029 || p == 0x202F || p == 0x205F || p == 0x3000
  {}

  // The numeral with the given absolute value in hundredths.
  function Plain(negative: bool, v: nat): Numeral {
    Numeral(negative, Digits(v / 100), true, Decimal02(v % 100))
  }

  lemma PlainWorth(negative: bool, v: nat)
    ensures Plain(negative, v).Valid() && Plain(negative, v).Hundredths() == if negative then 0 - v else v
    ensures |Plain(negative, v).minor| == 2
  {
    SmallDigits(v % 100);
    DigitsRoundTrip(v / 100);
  }

  lemma PlainText(x: int)
    requires -TWO_63 < x < TWO_63
    ensures var v: nat := if x < 0 then -x else x; Plain(x < 0, v).Text() == FormatAmount(x)
  {
    var v: nat := if x < 0 then -x else x;
    assert Magnitude(x) == v;
    var sign, major, minor := if x < 0 then "-" else "", Digits(v / 100), Decimal02(v % 100);
    assert sign + major + ("." + minor) == sign + (major + "." + minor);
  }

  /** The printer writes a plain numeral of exactly the amount's value: a minus for negative amounts, the units,
      a point and two decimals. */
  lemma PrintsNumeral(x: int) returns (n: Numeral)
    requires -TWO_63 < x < TWO_63
    ensures n.Valid() && n.Text() == FormatAmount(x) && n.Hundredths() == x
    ensures n.negative == (x < 0) && n.point && |n.minor| == 2 && n.major != ""
  {
    var v: nat := if x < 0 then -x else x;
    PlainWorth(x < 0, v);
    PlainText(x);
    n := Plain(x < 0, v);
  }

  lemma SmallDigits(m: nat)
    requires m < 100
    ensures |Decimal02(m)| == 2 && AllDigits(Decimal02(m)) && DigitsValue(Decimal02(m)) == m
  {
    DigitsRoundTrip(m);
    if m < 10 {
      var s := "0" + Digits(m);
      assert s[..1] == "0" && s[..1][..0] == "" && s[1] == Digit(m);
    } else {
      assert Digits(m) == Digits(m / 10) + [Digit(m % 10)];
    }
  }

  lemma DigitsStep(n: nat, d: nat, s: string)
    requires d < 10 && n > 0 && Digits(n) == s
    ensures Digits(n * 10 + d) == s + [Digit(d)]
  {
    assert (n * 10 + d) / 10 == n && (n * 10 + d) % 10 == d;
  }

  lemma NineDigits()
    ensures Digits(922337203) == "922337203"
  {
    assert Digits(92) == "92";
    DigitsStep(92, 2, "92");
    DigitsStep(922, 3, "922");
    DigitsStep(9223, 3, "9223");
    DigitsStep(92233, 7, "92233");
    DigitsStep(922337, 2, "922337");
    DigitsStep(9223372, 0, "9223372");
    DigitsStep(92233720, 3, "92233720");
  }

  lemma SeventeenDigits()
    ensures Digits(92233720368547758) == "92233720368547758"
  {
    NineDigits();
    DigitsStep(922337203, 6, "922337203");
    DigitsStep(9223372036, 8, "9223372036");
    DigitsStep(92233720368, 5, "92233720368");
    DigitsStep(922337203685, 4, "922337203685");
    DigitsStep(9223372036854, 7, "9223372036854");
    DigitsStep(92233720368547, 7, "92233720368547");
    DigitsStep(922337203685477, 5, "922337203685477");
    DigitsStep(9223372036854775, 8, "9223372036854775");
  }

  lemma NegativeParts(x: int, major: nat, minor: nat)
    requires IsInt64(x) && x < 0 && Magnitude(x) == -(major * 100 + minor)
    requires major > 0 && 0 < minor < 10
    ensures FormatAmount(x) == "-" + (("-" + Digits(major)) + "." + ("-" + Digits(minor)))
  {
    assert Quo100(Magnitude(x)) == 0 - major && Rem100(Magnitude(x)) == 0 - minor;
  }

  /** The one amount whose text is no plain numeral: its negation wraps, so that both parts carry a sign. */
  lemma SmallestPrinted(x: int)
    requires x == -TWO_63
    ensures FormatAmount(x) == "-" + (("-" + "92233720368547758") + "." + ("-" + "8"))
  {
    NegativeParts(x, 92233720368547758, 8);
    SeventeenDigits();
    assert Digits(8) == "8";
  }
}
