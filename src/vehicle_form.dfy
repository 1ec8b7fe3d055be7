/** `vehicleSchema` of components/custom/vehicle-info-form.tsx: the zod
    object schema the vehicle form is resolved with, as a function from
    the form values to the issues it reports (valid when there are none).

    As zod does for string checks, every check of a field runs and each
    failing one adds its message; the year refinement runs on the text
    whatever the earlier checks said. The current year is a parameter. */
module VehicleForm {
  import opened Basics
  import Json

  /** `VehicleInfo`: the three text inputs. */
  datatype VehicleInfo = VehicleInfo(brand: string, model: string, year: string)

  /** One zod issue: the field it is about and its message. */
  datatype Issue = Issue(path: string, message: string)

  /** The form's default values. */
  const Defaults := VehicleInfo("", "", "")

  /** `/^\d+$/`: one or more digits and nothing else. */
  predicate AllDigits(s: string)
  {
    |s| >= 1 && forall i | 0 <= i < |s| :: IsDigit(s[i])
  }

  /** The decimal value of a digit string. */
  function DigitsValue(s: string): (n: nat)
    requires forall i | 0 <= i < |s| :: IsDigit(s[i])
    ensures n < Pow10(|s|)
    decreases |s|
  {
    if s == [] then 0
    else
      var init := s[..|s| - 1];
      assert forall i | 0 <= i < |init| :: init[i] == s[i];
      var high := DigitsValue(init);
      assert IsDigit(s[|s| - 1]);
      var digit := s[|s| - 1] as int - '0' as int;
      assert 0 <= digit <= 9;
      assert high + 1 <= Pow10(|init|);
      assert 10 * (high + 1) <= 10 * Pow10(|init|);
      10 * high + digit
  }

  function Pow10(k: nat): (p: nat)
    ensures p >= 1
  {
    if k == 0 then 1 else 10 * Pow10(k - 1)
  }

  /** The run of digits at the front of `s`. */
  function LeadingDigits(s: string): (d: string)
    ensures |d| <= |s| && d == s[..|d|]
    ensures forall i | 0 <= i < |d| :: IsDigit(d[i])
    ensures |d| < |s| ==> !IsDigit(s[|d|])
  {
    if s == [] || !IsDigit(s[0]) then [] else [s[0]] + LeadingDigits(s[1..])
  }

  /** The characters `parseInt` skips at the front: ECMAScript's white
      space (tab, vertical tab, form feed, space, no-break space, the byte
      order mark and the other space separators) and line terminators. */
  predicate IsStrWhiteSpace(c: char)
  {
    c == '\t' || c == '\U{B}' || c == '\U{C}' || c == ' ' || c == '\U{A0}' || c == '\U{FEFF}'
    || c == '\U{1680}' || ('\U{2000}' <= c <= '\U{200A}') || c == '\U{202F}' || c == '\U{205F}'
    || c == '\U{3000}' || c == '\n' || c == '\r' || c == '\U{2028}' || c == '\U{2029}'
  }

  /** What follows the white space at the front of `s`. */
  function TrimStart(s: string): (t: string)
    ensures |t| <= |s|
    ensures t == [] || !IsStrWhiteSpace(t[0])
    ensures s == [] || !IsStrWhiteSpace(s[0]) ==> t == s
  {
    if s != [] && IsStrWhiteSpace(s[0]) then TrimStart(s[1..]) else s
  }

  /** The run of hexadecimal digits at the front of `s`. */
  function LeadingHex(s: string): (d: string)
    ensures |d| <= |s| && d == s[..|d|]
    ensures forall i | 0 <= i < |d| :: Json.IsHex(d[i])
    ensures |d| < |s| ==> !Json.IsHex(s[|d|])
  {
    if s == [] || !Json.IsHex(s[0]) then [] else [s[0]] + LeadingHex(s[1..])
  }

  /** The value of a hexadecimal digit string. */
  function HexDigitsValue(s: string): (n: nat)
    requires forall i | 0 <= i < |s| :: Json.IsHex(s[i])
    decreases |s|
  {
    if s == [] then 0
    else
      var init := s[..|s| - 1];
      assert forall i | 0 <= i < |init| :: init[i] == s[i];
      16 * HexDigitsValue(init) + Json.HexValue(s[|s| - 1])
  }

  /** The text after the blanks and the sign. */
  function Unsigned(s: string): string
  {
    var t := TrimStart(s);
    if t != [] && (t[0] == '-' || t[0] == '+') then t[1..] else t
  }

  /** `0x` or `0X` at the front: `parseInt` without a radix reads hexadecimal. */
  predicate HexPrefixed(u: string)
  {
    |u| >= 2 && u[0] == '0' && (u[1] == 'x' || u[1] == 'X')
  }

  /** `parseInt(s)` with no radix: blanks and one sign are skipped, a
      `0x` prefix selects base 16, and the value is that of the longest
      run of digits that follows; None (`NaN`) when that run is empty. */
  function ParseInt(s: string): (r: Option<int>)
    ensures r.None? <==> if HexPrefixed(Unsigned(s)) then LeadingHex(Unsigned(s)[2..]) == []
                         else LeadingDigits(Unsigned(s)) == []
    ensures r.Some? && r.value < 0 ==> TrimStart(s)[0] == '-'
  {
    var t := TrimStart(s);
    var negative := t != [] && t[0] == '-';
    var u := Unsigned(s);
    var magnitude: Option<nat> :=
      if HexPrefixed(u) then
        var d := LeadingHex(u[2..]);
        if d == [] then None else Some(HexDigitsValue(d))
      else
        var d := LeadingDigits(u);
        if d == [] then None else Some(DigitsValue(d));
    match magnitude
    case None => None
    case Some(m) =>
      var value: int := m;
      Some(if negative then -value else value)
  }

  /** A digit string is read whole by `parseInt`. */
  lemma {:induction false} ParseIntDigits(s: string)
    requires AllDigits(s)
    ensures ParseInt(s) == Some(DigitsValue(s))
  {
    assert IsDigit(s[0]);
    assert Unsigned(s) == s;
    LeadingAllDigits(s);
  }

  /** `parseInt("0x7E4")` is 2020: the prefix selects base 16. */
  lemma HexYearValue()
    ensures ParseInt("0x7E4") == Some(2020)
  {
    var u := "0x7E4";
    assert Unsigned(u) == u && HexPrefixed(u);
    var h := u[2..];
    assert h == "7E4";
    assert LeadingHex(h[3..]) == [];
    assert LeadingHex(h) == h;
    assert h[..2] == "7E" && h[..2][..1] == "7" && "7"[..0] == [];
    assert HexDigitsValue("7") == 7;
    assert HexDigitsValue("7E") == 7 * 16 + 14;
    assert HexDigitsValue(h) == 2020;
  }

  /** `parseInt("0x")` is `NaN`: no hexadecimal digit follows the prefix. */
  lemma HexPrefixAloneIsNaN()
    ensures ParseInt("0x") == None
  {
    assert Unsigned("0x") == "0x";
    assert "0x"[2..] == [];
  }

  lemma {:induction false} LeadingAllDigits(s: string)
    requires forall i | 0 <= i < |s| :: IsDigit(s[i])
    ensures LeadingDigits(s) == s
    decreases |s|
  {
    if s != [] {
      LeadingAllDigits(s[1..]);
      assert [s[0]] + s[1..] == s;
    }
  }

  /** The year refinement: `parseInt` gives a number in [1900, currentYear + 1].
      A value past 2^53 is rounded by JavaScript, which cannot bring it
      into that range, so the exact value decides the same way. */
  predicate YearInRange(year: string, currentYear: int)
  {
    var n := ParseInt(year);
    n.Some? && 1900 <= n.value <= currentYear + 1
  }

  /** JavaScript's `length`, which zod's `min` and `max` compare: UTF-16
      code units, two for a character past U+FFFF. */
  function Utf16Length(s: string): (n: nat)
    ensures |s| <= n <= 2 * |s|
    ensures (forall i | 0 <= i < |s| :: IsDigit(s[i])) ==> n == |s|
  {
    if s == [] then 0 else (if s[0] as int >= 0x10000 then 2 else 1) + Utf16Length(s[1..])
  }

  /** The issues of the year field, in check order. */
  function YearIssues(year: string, currentYear: int): seq<string>
  {
    (if Utf16Length(year) < 4 then ["Year must be 4 digits"] else [])
    + (if Utf16Length(year) > 4 then ["Year must be 4 digits"] else [])
    + (if !AllDigits(year) then ["Year must be a number"] else [])
    + (if !YearInRange(year, currentYear) then ["Invalid year"] else [])
  }

  function FieldIssues(path: string, messages: seq<string>): (r: seq<Issue>)
    ensures |r| == |messages|
    ensures forall i | 0 <= i < |r| :: r[i] == Issue(path, messages[i])
  {
    seq(|messages|, i requires 0 <= i < |messages| => Issue(path, messages[i]))
  }

  /** `vehicleSchema.safeParse(v)`: the issues found, field by field. */
  function Validate(v: VehicleInfo, currentYear: int): seq<Issue>
  {
    FieldIssues("brand", if Utf16Length(v.brand) < 1 then ["Brand is required"] else [])
    + FieldIssues("model", if Utf16Length(v.model) < 1 then ["Model is required"] else [])
    + FieldIssues("year", YearIssues(v.year, currentYear))
  }

  /** The schema accepts exactly a non-empty brand and model and a year of
      four digits whose value lies in [1900, currentYear + 1]. */
  lemma ValidIff(v: VehicleInfo, currentYear: int)
    ensures Validate(v, currentYear) == []
            <==> v.brand != [] && v.model != [] && |v.year| == 4 && AllDigits(v.year)
                 && 1900 <= DigitsValue(v.year) <= currentYear + 1
  {
    if AllDigits(v.year) {
      ParseIntDigits(v.year);
    }
  }

  /** The defaults are rejected on all three fields. */
  lemma DefaultsRejected(currentYear: int)
    ensures var issues := Validate(Defaults, currentYear);
            issues[0] == Issue("brand", "Brand is required")
            && issues[1] == Issue("model", "Model is required")
            && issues[2..] == FieldIssues("year", ["Year must be 4 digits", "Year must be a number", "Invalid year"])
  {
  }

  /** "0999" passes the length and digit checks and fails only the range. */
  lemma LeadingZeroYear(currentYear: int)
    ensures YearIssues("0999", currentYear) == ["Invalid year"]
  {
    ParseIntDigits("0999");
    assert DigitsValue("0999") == 999 by {
      assert "0999"[..3] == "099" && "099"[..2] == "09" && "09"[..1] == "0" && "0"[..0] == "";
    }
  }

  /** "0x7E4" fails the length and digit checks but not the range: its
      `parseInt` value is 2020. */
  lemma HexYearIssues(currentYear: int)
    requires currentYear >= 2019
    ensures YearIssues("0x7E4", currentYear) == ["Year must be 4 digits", "Year must be a number"]
  {
    HexYearValue();
    HexYearShape();
    assert YearInRange("0x7E4", currentYear);
  }

  /** "0x7E4" is five code units long and not all digits. */
  lemma HexYearShape()
    ensures Utf16Length("0x7E4") == 5 && !AllDigits("0x7E4")
  {
    var y := "0x7E4";
    assert !IsDigit(y[1]);
    assert y[1..] == "x7E4" && y[2..] == "7E4" && y[3..] == "E4" && y[4..] == "4" && y[5..] == [];
  }

  /** A character past U+FFFF counts twice toward the length: a text of
      three characters can pass the four-character checks. */
  lemma SurrogatePairCountsTwo(currentYear: int)
    ensures YearIssues("\U{1F600}12", currentYear) == ["Year must be a number", "Invalid year"]
  {
    var s := "\U{1F600}12";
    assert s[1..] == "12" && "12"[1..] == "2" && "2"[1..] == [];
    assert Utf16Length(s) == 4;
    assert !IsStrWhiteSpace(s[0]) && !IsDigit(s[0]);
    assert Unsigned(s) == s && !HexPrefixed(s);
    assert ParseInt(s) == None;
  }

  /** A year accepted by the schema is a four-digit number below 10000. */
  lemma AcceptedYearBound(v: VehicleInfo, currentYear: int)
    requires Validate(v, currentYear) == []
    ensures 1900 <= ParseInt(v.year).value <= currentYear + 1 && ParseInt(v.year).value < 10000
  {
    ValidIff(v, currentYear);
    ParseIntDigits(v.year);
  }
}
