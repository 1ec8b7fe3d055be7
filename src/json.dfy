/** JSON values and their text, as `JSON.stringify` writes and `JSON.parse`
    reads them (RFC 8259).

    `Stringify` writes the compact form `JSON.stringify` produces: no
    whitespace, `"` and `\` escaped, the control characters below U+0020
    written as `\b`, `\t`, `\n`, `\f`, `\r` or `\u00xx`. `ParseValue`
    reads the full syntax: whitespace between tokens, every escape
    (`\uXXXX` included, surrogate pairs joined), numbers. `Parse` is the
    whole-text reader: a text is JSON exactly when it is one value with
    nothing but whitespace after it.

    A number is kept as the text it was written with (sign, integer
    digits, fraction digits, exponent), not as the double JavaScript
    turns it into. */
module Json {
  import opened Basics

  datatype Json =
    | JNull
    | JBool(b: bool)
    | JNum(n: Number)
    | JStr(s: string)
    | JArr(items: seq<Json>)
    | JObj(fields: seq<Field>)

  /** One `"key":value` member of an object, in insertion order. */
  datatype Field = Field(key: string, value: Json)

  /** The parts of a number's text: `-`, the integer digits, the fraction
      digits (empty when there is no fraction) and the exponent as written
      (empty, or `e`/`E`, an optional sign and digits). */
  datatype Numeral = Numeral(negative: bool, whole: string, frac: string, exp: string)

  /** The numerals the grammar of section 6 of RFC 8259 admits. */
  type Number = n: Numeral | WellFormed(n) witness Numeral(false, "0", "", "")

  predicate Digits(s: string)
  {
    forall i | 0 <= i < |s| :: IsDigit(s[i])
  }

  /** `0`, or a digit other than `0` followed by digits. */
  predicate IntPart(s: string)
  {
    s == "0" || (|s| >= 1 && '1' <= s[0] <= '9' && Digits(s))
  }

  /** The digits after the optional sign of an exponent. */
  function ExpDigits(e: string): string
    requires |e| >= 2
  {
    if e[1] == '+' || e[1] == '-' then e[2..] else e[1..]
  }

  predicate ExpPart(e: string)
  {
    e == [] || (|e| >= 2 && (e[0] == 'e' || e[0] == 'E') && ExpDigits(e) != [] && Digits(ExpDigits(e)))
  }

  predicate WellFormed(n: Numeral)
  {
    IntPart(n.whole) && Digits(n.frac) && ExpPart(n.exp)
  }

  /** JSON's insignificant whitespace. */
  predicate IsWs(c: char)
  {
    c == ' ' || c == '\t' || c == '\n' || c == '\r'
  }

  predicate IsHex(c: char)
  {
    IsDigit(c) || 'a' <= c <= 'f' || 'A' <= c <= 'F'
  }

  function HexValue(c: char): (n: int)
    requires IsHex(c)
    ensures 0 <= n < 16
  {
    if IsDigit(c) then c as int - '0' as int
    else if 'a' <= c <= 'f' then c as int - 'a' as int + 10
    else c as int - 'A' as int + 10
  }

  /** The lower-case hexadecimal digit `JSON.stringify` writes for `d`. */
  function HexDigit(d: int): (c: char)
    requires 0 <= d < 16
    ensures IsHex(c) && HexValue(c) == d
  {
    if d < 10 then ('0' as int + d) as char else ('a' as int + d - 10) as char
  }

  // ---------------------------------------------------------------- writer

  function Stringify(v: Json): string
    decreases v
  {
    match v
    case JNull => "null"
    case JBool(b) => if b then "true" else "false"
    case JNum(n) => NumberText(n)
    case JStr(s) => Quote(s)
    case JArr(items) => "[" + Items(items) + "]"
    case JObj(fields) => "{" + Members(fields) + "}"
  }

  function NumberText(n: Numeral): string
  {
    SignText(n.negative) + n.whole + FracText(n.frac) + n.exp
  }

  function SignText(negative: bool): string
  {
    if negative then "-" else ""
  }

  /** The text of a fraction: empty, or `.` and the digits. */
  function FracText(f: string): string
  {
    if f == [] then "" else "." + f
  }

  function Quote(s: string): string
  {
    "\"" + Escape(s) + "\""
  }

  function Escape(s: string): string
  {
    if s == [] then [] else EscapeChar(s[0]) + Escape(s[1..])
  }

  /** How `JSON.stringify` writes one character of a string. */
  function EscapeChar(c: char): string
  {
    if c == '"' || c == '\\' then ['\\', c]
    else if c == '\U{8}' then "\\b"
    else if c == '\t' then "\\t"
    else if c == '\n' then "\\n"
    else if c == '\U{C}' then "\\f"
    else if c == '\r' then "\\r"
    else if (c as int) < 0x20 then "\\u00" + [HexDigit(c as int / 16), HexDigit(c as int % 16)]
    else [c]
  }

  /** Comma-separated array elements. */
  function Items(items: seq<Json>): string
    decreases items
  {
    if items == [] then []
    else Stringify(items[0]) + (if |items| == 1 then [] else "," + Items(items[1..]))
  }

  /** Comma-separated object members. */
  function Members(fields: seq<Field>): string
    decreases fields
  {
    if fields == [] then []
    else Quote(fields[0].key) + ":" + Stringify(fields[0].value)
         + (if |fields| == 1 then [] else "," + Members(fields[1..]))
  }

  // ---------------------------------------------------------------- reader

  /** What follows the whitespace at the front of `s`. */
  function SkipWs(s: string): (t: string)
    ensures |t| <= |s|
    ensures t == [] || !IsWs(t[0])
    ensures s == [] || !IsWs(s[0]) ==> t == s
  {
    if s != [] && IsWs(s[0]) then SkipWs(s[1..]) else s
  }

  /** Reads one value at the front of `s`, after any whitespace; returns
      it and what follows. */
  function ParseValue(s: string): (r: Option<(Json, string)>)
    ensures r.Some? ==> |r.value.1| < |s|
    decreases |s|, 2
  {
    ParseToken(SkipWs(s))
  }

  /** Reads the value whose first character starts `t`. */
  function ParseToken(t: string): (r: Option<(Json, string)>)
    ensures r.Some? ==> |r.value.1| < |t|
    decreases |t|, 1
  {
    if t == [] then None
    else if t[0] == 'n' then
      if StartsWith(t, "null") then Some((JNull, t[4..])) else None
    else if t[0] == 't' then
      if StartsWith(t, "true") then Some((JBool(true), t[4..])) else None
    else if t[0] == 'f' then
      if StartsWith(t, "false") then Some((JBool(false), t[5..])) else None
    else if t[0] == '-' || IsDigit(t[0]) then ParseNumberValue(t)
    else if t[0] == '"' then
      match ParseStringBody(t[1..])
      case None => None
      case Some((str, rest)) => Some((JStr(str), rest))
    else if t[0] == '[' then ParseArray(t)
    else if t[0] == '{' then ParseObject(t)
    else None
  }

  function ParseNumberValue(t: string): (r: Option<(Json, string)>)
    ensures r.Some? ==> |r.value.1| < |t|
  {
    match ParseNumber(t)
    case None => None
    case Some((n, rest)) => Some((JNum(n), rest))
  }

  /** Reads an array from its `[`. */
  function ParseArray(t: string): (r: Option<(Json, string)>)
    requires t != []
    ensures r.Some? ==> |r.value.1| < |t|
    decreases |t|, 0
  {
    var u := SkipWs(t[1..]);
    if u != [] && u[0] == ']' then Some((JArr([]), u[1..]))
    else
      match ParseItems(t[1..])
      case None => None
      case Some((items, rest)) => Some((JArr(items), rest))
  }

  /** Reads an object from its `{`. */
  function ParseObject(t: string): (r: Option<(Json, string)>)
    requires t != []
    ensures r.Some? ==> |r.value.1| < |t|
    decreases |t|, 0
  {
    var u := SkipWs(t[1..]);
    if u != [] && u[0] == '}' then Some((JObj([]), u[1..]))
    else
      match ParseMembers(t[1..])
      case None => None
      case Some((fields, rest)) => Some((JObj(fields), rest))
  }

  /** The number of digits at the front of `s`. */
  function LeadDigits(s: string): (n: nat)
    ensures n <= |s| && Digits(s[..n])
    ensures n < |s| ==> !IsDigit(s[n])
  {
    if s == [] || !IsDigit(s[0]) then 0
    else
      var k := LeadDigits(s[1..]);
      assert s[..k + 1] == [s[0]] + s[1..][..k];
      k + 1
  }

  /** The integer part at the front of `a`: `0`, or digits not starting with `0`. */
  function ScanWhole(a: string): (r: Option<(string, string)>)
    ensures r.Some? ==> IntPart(r.value.0) && a == r.value.0 + r.value.1
  {
    if a == [] || !IsDigit(a[0]) then None
    else if a[0] == '0' then
      assert [a[0]] + a[1..] == a;
      Some(("0", a[1..]))
    else
      var i := LeadDigits(a);
      assert a[..i] + a[i..] == a;
      Some((a[..i], a[i..]))
  }

  /** The fraction digits after a `.` at the front of `b`, if there is one. */
  function ScanFrac(b: string): (r: Option<(string, string)>)
    ensures r.Some? ==> Digits(r.value.0)
    ensures r.Some? && r.value.0 == [] ==> r.value.1 == b
    ensures r.Some? && r.value.0 != [] ==> b == "." + r.value.0 + r.value.1
  {
    if b == [] || b[0] != '.' then Some(([], b))
    else
      var f := LeadDigits(b[1..]);
      if f == 0 then None
      else
        assert b == "." + b[1..][..f] + b[1..][f..];
        Some((b[1..][..f], b[1..][f..]))
  }

  /** The exponent at the front of `c`, if it starts with `e` or `E`. */
  function ScanExp(c: string): (r: Option<(string, string)>)
    ensures r.Some? ==> ExpPart(r.value.0) && c == r.value.0 + r.value.1
  {
    if c == [] || (c[0] != 'e' && c[0] != 'E') then Some(([], c))
    else
      var sg := if |c| > 1 && (c[1] == '+' || c[1] == '-') then 1 else 0;
      var d := LeadDigits(c[1 + sg..]);
      if d == 0 then None
      else
        assert ExpDigits(c[..1 + sg + d]) == c[1 + sg..][..d];
        assert c[..1 + sg + d] + c[1 + sg + d..] == c;
        Some((c[..1 + sg + d], c[1 + sg + d..]))
  }

  /** Reads a number: `-`? (`0` | [1-9][0-9]*) (`.` [0-9]+)? ([eE] [+-]? [0-9]+)?. */
  function ParseNumber(s: string): (r: Option<(Number, string)>)
    ensures r.Some? ==> |r.value.1| < |s|
  {
    var neg := s != [] && s[0] == '-';
    var a := if neg then s[1..] else s;
    match ScanWhole(a)
    case None => None
    case Some((w, b)) =>
      match ScanFrac(b)
      case None => None
      case Some((f, c)) =>
        match ScanExp(c)
        case None => None
        case Some((e, rest)) => Some((Numeral(neg, w, f, e), rest))
  }

  /** Reads the escape after a backslash: the character it stands for and
      what follows. A `\u` escape of a high surrogate must be followed by
      one of a low surrogate; the pair stands for one character. */
  function ParseEscape(s: string): (r: Option<(char, string)>)
    ensures r.Some? ==> |r.value.1| < |s|
  {
    if s == [] then None
    else if s[0] == '"' || s[0] == '\\' || s[0] == '/' then Some((s[0], s[1..]))
    else if s[0] == 'b' then Some(('\U{8}', s[1..]))
    else if s[0] == 'f' then Some(('\U{C}', s[1..]))
    else if s[0] == 'n' then Some(('\n', s[1..]))
    else if s[0] == 'r' then Some(('\r', s[1..]))
    else if s[0] == 't' then Some(('\t', s[1..]))
    else if s[0] == 'u' && |s| >= 5 && Hex4(s[1..5]) then
      var n := Hex4Value(s[1..5]);
      if n < 0xD800 || 0xE000 <= n then Some((n as char, s[5..]))
      else if n < 0xDC00 && |s| >= 11 && s[5] == '\\' && s[6] == 'u' && Hex4(s[7..11])
              && 0xDC00 <= Hex4Value(s[7..11]) < 0xE000 then
        Some(((0x10000 + (n - 0xD800) * 0x400 + (Hex4Value(s[7..11]) - 0xDC00)) as char, s[11..]))
      else None
    else None
  }

  predicate Hex4(s: string)
  {
    |s| == 4 && IsHex(s[0]) && IsHex(s[1]) && IsHex(s[2]) && IsHex(s[3])
  }

  function Hex4Value(s: string): (n: int)
    requires Hex4(s)
    ensures 0 <= n < 0x10000
  {
    HexValue(s[0]) * 0x1000 + HexValue(s[1]) * 0x100 + HexValue(s[2]) * 0x10 + HexValue(s[3])
  }

  /** Reads the characters of a string literal up to its closing quote;
      a raw control character is an error. */
  function ParseStringBody(s: string): (r: Option<(string, string)>)
    ensures r.Some? ==> |r.value.1| < |s|
    decreases |s|
  {
    if s == [] then None
    else if s[0] == '"' then Some(([], s[1..]))
    else if s[0] == '\\' then
      match ParseEscape(s[1..])
      case None => None
      case Some((c, tail)) =>
        match ParseStringBody(tail)
        case None => None
        case Some((t, rest)) => Some(([c] + t, rest))
    else if (s[0] as int) < 0x20 then None
    else
      match ParseStringBody(s[1..])
      case None => None
      case Some((t, rest)) => Some(([s[0]] + t, rest))
  }

  /** Reads `value (',' value)* ']'`. */
  function ParseItems(s: string): (r: Option<(seq<Json>, string)>)
    ensures r.Some? ==> |r.value.1| < |s|
    decreases |s|, 3
  {
    match ParseValue(s)
    case None => None
    case Some((v, r)) =>
      var rest := SkipWs(r);
      if rest == [] then None
      else if rest[0] == ']' then Some(([v], rest[1..]))
      else if rest[0] == ',' then
        match ParseItems(rest[1..])
        case None => None
        case Some((vs, rest')) => Some(([v] + vs, rest'))
      else None
  }

  /** Reads `"key":value (',' "key":value)* '}'`. */
  function ParseMembers(s: string): (r: Option<(seq<Field>, string)>)
    ensures r.Some? ==> |r.value.1| < |s|
    decreases |s|, 3
  {
    var t := SkipWs(s);
    if t == [] || t[0] != '"' then None
    else
      match ParseStringBody(t[1..])
      case None => None
      case Some((k, r1)) =>
        var c := SkipWs(r1);
        if c == [] || c[0] != ':' then None
        else
          match ParseValue(c[1..])
          case None => None
          case Some((v, r2)) =>
            var d := SkipWs(r2);
            if d == [] then None
            else if d[0] == '}' then Some(([Field(k, v)], d[1..]))
            else if d[0] == ',' then
              match ParseMembers(d[1..])
              case None => None
              case Some((fs, r3)) => Some(([Field(k, v)] + fs, r3))
            else None
  }

  /** `JSON.parse(s)`: None where it throws. */
  function Parse(s: string): (r: Option<Json>)
  {
    match ParseValue(s)
    case None => None
    case Some((v, rest)) => if SkipWs(rest) == [] then Some(v) else None
  }

  // ---------------------------------------------------------------- objects

  /** `obj[key]` on a parsed object: the last member with that key wins. */
  function Get(fields: seq<Field>, key: string): (r: Option<Json>)
    ensures r.None? <==> forall i | 0 <= i < |fields| :: fields[i].key != key
    ensures r.Some? ==> exists i :: LastWith(fields, key, i) && fields[i].value == r.value
    decreases |fields|
  {
    if fields == [] then None
    else if fields[|fields| - 1].key == key then
      assert LastWith(fields, key, |fields| - 1);
      Some(fields[|fields| - 1].value)
    else
      InitKeys(fields, key);
      Get(fields[..|fields| - 1], key)
  }

  /** Member `i` is the last one with `key`. */
  predicate LastWith(fields: seq<Field>, key: string, i: int)
  {
    0 <= i < |fields| && fields[i].key == key && forall j | i < j < |fields| :: fields[j].key != key
  }

  /** Dropping a last member that has another key keeps the other
      members, and which of them is the last with `key`. */
  lemma InitKeys(fields: seq<Field>, key: string)
    requires fields != [] && fields[|fields| - 1].key != key
    ensures forall i | 0 <= i < |fields| - 1 :: fields[..|fields| - 1][i] == fields[i]
    ensures forall i :: LastWith(fields[..|fields| - 1], key, i) ==> LastWith(fields, key, i)
  {
  }

  /** `key in obj`. */
  predicate HasKey(fields: seq<Field>, key: string)
  {
    exists i | 0 <= i < |fields| :: fields[i].key == key
  }

  /** Members appended later override earlier ones with the same key and
      leave every other key as it was. */
  lemma {:induction false} GetAppend(fields: seq<Field>, extra: seq<Field>, key: string)
    ensures Get(fields + extra, key) == if HasKey(extra, key) then Get(extra, key) else Get(fields, key)
    decreases |extra|
  {
    if extra == [] {
      assert fields + extra == fields;
      assert !HasKey(extra, key);
    } else {
      var init := extra[..|extra| - 1];
      var last := extra[|extra| - 1];
      var all := fields + extra;
      assert all[..|all| - 1] == fields + init;
      assert all[|all| - 1] == last;
      GetStep(all, key);
      GetStep(extra, key);
      if last.key != key {
        GetAppend(fields, init, key);
        HasKeyInit(extra, key);
      } else {
        assert HasKey(extra, key) by {
          assert extra[|extra| - 1].key == key;
        }
      }
    }
  }

  /** One step of `Get`, from the back. */
  lemma GetStep(fields: seq<Field>, key: string)
    requires fields != []
    ensures Get(fields, key) == if fields[|fields| - 1].key == key then Some(fields[|fields| - 1].value)
                                else Get(fields[..|fields| - 1], key)
  {
  }

  /** A key whose last member does not carry it occurs in the members
      before that one exactly when it occurs at all. */
  lemma HasKeyInit(fields: seq<Field>, key: string)
    requires fields != [] && fields[|fields| - 1].key != key
    ensures HasKey(fields, key) <==> HasKey(fields[..|fields| - 1], key)
  {
    var init := fields[..|fields| - 1];
    if HasKey(fields, key) {
      var i :| 0 <= i < |fields| && fields[i].key == key;
      assert init[i].key == key;
    }
    if HasKey(init, key) {
      var i :| 0 <= i < |init| && init[i].key == key;
      assert fields[i].key == key;
    }
  }

  // ---------------------------------------------------------------- laws

  /** Every written text starts with the character that announces its
      kind, never with whitespace. */
  lemma StringifyLead(v: Json)
    ensures Stringify(v) != [] && !IsWs(Stringify(v)[0])
    ensures v.JNull? ==> Stringify(v)[0] == 'n'
    ensures v.JBool? ==> Stringify(v)[0] == if v.b then 't' else 'f'
    ensures v.JNum? ==> Stringify(v)[0] == '-' || IsDigit(Stringify(v)[0])
    ensures v.JStr? ==> Stringify(v)[0] == '"'
    ensures v.JArr? ==> Stringify(v)[0] == '['
    ensures v.JObj? ==> Stringify(v)[0] == '{'
  {
    match v
    case JNum(n) => NumberLead(n);
    case JStr(s) => assert Stringify(v) == "\"" + Escape(s) + "\"";
    case JArr(items) => assert Stringify(v) == "[" + Items(items) + "]";
    case JObj(fields) => assert Stringify(v) == "{" + Members(fields) + "}";
    case _ =>
  }

  lemma NumberLead(n: Number)
    ensures NumberText(n) != []
    ensures NumberText(n)[0] == if n.negative then '-' else n.whole[0]
    ensures n.negative || IsDigit(NumberText(n)[0])
  {
    var sign := SignText(n.negative);
    Regroup4(sign, n.whole, FracText(n.frac), n.exp);
    assert n.whole != [] && IsDigit(n.whole[0]);
    if !n.negative {
      assert sign == [];
    }
  }

  // Regrouping of concatenations, stated over plain texts so that the
  // solver proves each one without the writer's definitions in view.

  lemma Regroup(a: string, b: string, c: string)
    ensures a + b + c == a + (b + c)
  {
  }

  lemma Regroup4(a: string, b: string, c: string, d: string)
    ensures a + b + c + d == a + (b + c + d)
  {
  }

  lemma RegroupMember(q: string, v: string, x: string, rest: string)
    ensures q + ":" + v + x + "}" + rest == q + (":" + (v + (x + "}" + rest)))
  {
  }

  lemma DropFront(a: string, b: string)
    ensures (a + b)[|a|..] == b
  {
  }

  // Numbers.

  /** What may follow a written value: the end, or a character that
      cannot continue a number. */
  predicate Delimited(rest: string)
  {
    rest == [] || !(IsDigit(rest[0]) || rest[0] == '.' || rest[0] == 'e' || rest[0] == 'E')
  }

  lemma {:induction false} LeadDigitsOf(ds: string, tail: string)
    requires Digits(ds) && (tail == [] || !IsDigit(tail[0]))
    ensures LeadDigits(ds + tail) == |ds|
    decreases |ds|
  {
    if ds != [] {
      assert (ds + tail)[1..] == ds[1..] + tail;
      LeadDigitsOf(ds[1..], tail);
    } else {
      assert ds + tail == tail;
    }
  }

  lemma ScanWholeOf(w: string, tail: string)
    requires IntPart(w) && (tail == [] || !IsDigit(tail[0]))
    ensures ScanWhole(w + tail) == Some((w, tail))
  {
    var a := w + tail;
    if w == "0" {
      assert a[1..] == tail;
    } else {
      LeadDigitsOf(w, tail);
      assert a[..|w|] == w && a[|w|..] == tail;
    }
  }

  lemma ScanFracOf(f: string, tail: string)
    requires Digits(f) && (tail == [] || !IsDigit(tail[0]))
    requires f == [] ==> tail == [] || tail[0] != '.'
    ensures ScanFrac(FracText(f) + tail) == Some((f, tail))
  {
    if f != [] {
      var b := "." + f + tail;
      assert b[1..] == f + tail;
      LeadDigitsOf(f, tail);
      assert b[1..][..|f|] == f && b[1..][|f|..] == tail;
    } else {
      assert FracText(f) + tail == tail;
    }
  }

  lemma ScanExpOf(e: string, tail: string)
    requires ExpPart(e) && (tail == [] || !IsDigit(tail[0]))
    requires e == [] ==> tail == [] || (tail[0] != 'e' && tail[0] != 'E')
    ensures ScanExp(e + tail) == Some((e, tail))
  {
    if e == [] {
      assert e + tail == tail;
    } else {
      var c := e + tail;
      var sg := if e[1] == '+' || e[1] == '-' then 1 else 0;
      var ds := ExpDigits(e);
      assert e == e[..1 + sg] + ds;
      assert c[1 + sg..] == ds + tail;
      LeadDigitsOf(ds, tail);
      assert c[..1 + sg + |ds|] == e && c[1 + sg + |ds|..] == tail;
    }
  }

  /** A written number is read back up to its last character. */
  lemma ParseNumberOf(n: Number, rest: string)
    requires Delimited(rest)
    ensures ParseNumber(NumberText(n) + rest) == Some((n, rest))
  {
    var sign := SignText(n.negative);
    var fr := FracText(n.frac);
    var c := n.exp + rest;
    var b := fr + c;
    var a := n.whole + b;
    Regroup5(sign, n.whole, fr, n.exp, rest);
    ScanExpOf(n.exp, rest);
    ScanFracOf(n.frac, c);
    ScanWholeOf(n.whole, b);
    if n.negative {
      DropFront(sign, a);
    } else {
      assert sign + a == a;
    }
    ParseNumberSteps(sign + a, n.negative, a, n.whole, b, n.frac, c, n.exp, rest);
  }

  lemma Regroup5(a: string, b: string, c: string, d: string, e: string)
    ensures a + b + c + d + e == a + (b + (c + (d + e)))
  {
  }

  /** `ParseNumber` through its three scanners. */
  lemma ParseNumberSteps(s: string, neg: bool, a: string, w: string, b: string, f: string,
                         c: string, e: string, rest: string)
    requires neg <==> s != [] && s[0] == '-'
    requires a == if neg then s[1..] else s
    requires ScanWhole(a) == Some((w, b)) && ScanFrac(b) == Some((f, c)) && ScanExp(c) == Some((e, rest))
    ensures ParseNumber(s) == Some((Numeral(neg, w, f, e), rest))
  {
  }

  // Strings.

  /** The reader takes back each escape the writer makes. */
  lemma ParseEscapeOf(c: char, tail: string)
    requires EscapeChar(c) != [c]
    ensures |EscapeChar(c)| >= 2 && EscapeChar(c)[0] == '\\'
    ensures ParseEscape(EscapeChar(c)[1..] + tail) == Some((c, tail))
  {
    var e := EscapeChar(c);
    var h := e[1..] + tail;
    if |e| == 2 {
      assert h[0] == e[1] && h[1..] == tail;
    } else {
      var hi, lo := HexDigit(c as int / 16), HexDigit(c as int % 16);
      assert e == "\\u00" + [hi, lo];
      assert h[0] == 'u' && h[1..5] == ['0', '0', hi, lo] && h[5..] == tail;
      assert Hex4Value(h[1..5]) == c as int;
    }
  }

  /** The reader over one written character. */
  lemma ReadChar(c: char, tail: string)
    ensures ParseStringBody(EscapeChar(c) + tail)
            == match ParseStringBody(tail)
               case None => None
               case Some((t, r)) => Some(([c] + t, r))
  {
    var e := EscapeChar(c);
    if e == [c] {
      assert (e + tail)[1..] == tail;
    } else {
      ParseEscapeOf(c, tail);
      assert (e + tail)[0] == '\\' && (e + tail)[1..] == e[1..] + tail;
    }
  }

  lemma {:induction false} ParseEscaped(s: string, rest: string)
    ensures ParseStringBody(Escape(s) + "\"" + rest) == Some((s, rest))
    decreases s
  {
    if s == [] {
      assert Escape(s) + "\"" + rest == "\"" + rest;
    } else {
      var e := EscapeChar(s[0]);
      var tail := Escape(s[1..]) + "\"" + rest;
      ParseEscaped(s[1..], rest);
      assert Escape(s) == e + Escape(s[1..]);
      Regroup4(e, Escape(s[1..]), "\"", rest);
      ReadChar(s[0], tail);
      assert [s[0]] + s[1..] == s;
    }
  }

  /** A quoted key is read back up to its closing quote. */
  lemma ParseKey(k: string, r1: string)
    ensures (Quote(k) + r1)[0] == '"'
    ensures ParseStringBody((Quote(k) + r1)[1..]) == Some((k, r1))
  {
    Regroup4("\"", Escape(k), "\"", r1);
    DropFront("\"", Escape(k) + "\"" + r1);
    ParseEscaped(k, r1);
  }

  // One step of the reader each, at a given first character.

  lemma ValueIsToken(t: string)
    requires t != [] && !IsWs(t[0])
    ensures ParseValue(t) == ParseToken(t)
  {
  }

  lemma TokenNumber(t: string, n: Number, rest: string)
    requires t != [] && (t[0] == '-' || IsDigit(t[0]))
    requires ParseNumber(t) == Some((n, rest))
    ensures ParseToken(t) == Some((JNum(n), rest))
  {
    assert t[0] != 'n' && t[0] != 't' && t[0] != 'f';
    assert ParseNumberValue(t) == Some((JNum(n), rest));
  }

  lemma TokenString(t: string, str: string, rest: string)
    requires t != [] && t[0] == '"'
    requires ParseStringBody(t[1..]) == Some((str, rest))
    ensures ParseToken(t) == Some((JStr(str), rest))
  {
  }

  lemma TokenArray(t: string, items: seq<Json>, rest: string)
    requires |t| > 1 && t[0] == '[' && !IsWs(t[1]) && t[1] != ']'
    requires ParseItems(t[1..]) == Some((items, rest))
    ensures ParseToken(t) == Some((JArr(items), rest))
  {
    assert ParseArray(t) == Some((JArr(items), rest));
  }

  lemma TokenObject(t: string, fields: seq<Field>, rest: string)
    requires |t| > 1 && t[0] == '{' && !IsWs(t[1]) && t[1] != '}'
    requires ParseMembers(t[1..]) == Some((fields, rest))
    ensures ParseToken(t) == Some((JObj(fields), rest))
  {
    assert ParseObject(t) == Some((JObj(fields), rest));
  }

  /** Reading what was written gives back the value and leaves the rest. */
  lemma {:induction false} ParseStringified(v: Json, rest: string)
    requires Delimited(rest)
    ensures ParseValue(Stringify(v) + rest) == Some((v, rest))
    decreases v, 2
  {
    var t := Stringify(v) + rest;
    StringifyLead(v);
    ValueIsToken(t);
    match v
    case JNull =>
      assert t[..4] == "null" && t[4..] == rest;
    case JBool(b) =>
      if b { assert t[..4] == "true" && t[4..] == rest; }
      else { assert t[..5] == "false" && t[5..] == rest; }
    case JNum(n) =>
      ParseNumberOf(n, rest);
      TokenNumber(t, n, rest);
    case JStr(s) =>
      Regroup4("\"", Escape(s), "\"", rest);
      DropFront("\"", Escape(s) + "\"" + rest);
      ParseEscaped(s, rest);
      TokenString(t, s, rest);
    case JArr(items) =>
      ParseArrStringified(items, rest);
    case JObj(fields) =>
      ParseObjStringified(fields, rest);
  }

  lemma {:induction false} ParseArrStringified(items: seq<Json>, rest: string)
    requires Delimited(rest)
    ensures ParseToken(Stringify(JArr(items)) + rest) == Some((JArr(items), rest))
    decreases items, 1
  {
    var t := Stringify(JArr(items)) + rest;
    if items == [] {
      assert t == "[]" + rest;
      assert t[1..] == "]" + rest;
      assert ParseArray(t) == Some((JArr([]), rest));
    } else {
      Regroup4("[", Items(items), "]", rest);
      DropFront("[", Items(items) + "]" + rest);
      var after := ItemsAfterFirst(items, rest);
      StringifyLead(items[0]);
      DropFront("[", Stringify(items[0]) + after);
      assert t[1] == Stringify(items[0])[0];
      ParseItemsStringified(items, rest);
      TokenArray(t, items, rest);
    }
  }

  lemma {:induction false} ParseObjStringified(fields: seq<Field>, rest: string)
    requires Delimited(rest)
    ensures ParseToken(Stringify(JObj(fields)) + rest) == Some((JObj(fields), rest))
    decreases fields, 1
  {
    var t := Stringify(JObj(fields)) + rest;
    if fields == [] {
      assert t == "{}" + rest;
      assert t[1..] == "}" + rest;
      assert ParseObject(t) == Some((JObj([]), rest));
    } else {
      Regroup4("{", Members(fields), "}", rest);
      DropFront("{", Members(fields) + "}" + rest);
      var after := MembersAfterFirst(fields, rest);
      ParseKey(fields[0].key, ":" + (Stringify(fields[0].value) + after));
      assert t[1] == '"';
      ParseMembersStringified(fields, rest);
      TokenObject(t, fields, rest);
    }
  }

  lemma {:induction false} ParseItemsStringified(items: seq<Json>, rest: string)
    requires items != [] && Delimited(rest)
    ensures ParseItems(Items(items) + "]" + rest) == Some((items, rest))
    decreases items, 0
  {
    var t := Items(items) + "]" + rest;
    var after := ItemsAfterFirst(items, rest);
    ParseStringified(items[0], after);
    if |items| == 1 {
      ParseItemsLast(t, items[0], after);
      assert [items[0]] == items;
    } else {
      ParseItemsStringified(items[1..], rest);
      ParseItemsMore(t, items[0], after, items[1..], rest);
      assert [items[0]] + items[1..] == items;
    }
  }

  /** How written array elements split after the first one. */
  lemma ItemsAfterFirst(items: seq<Json>, rest: string) returns (after: string)
    requires items != []
    ensures Items(items) + "]" + rest == Stringify(items[0]) + after
    ensures |items| == 1 ==> after != [] && after[0] == ']' && after[1..] == rest
    ensures |items| > 1 ==> after != [] && after[0] == ',' && after[1..] == Items(items[1..]) + "]" + rest
    ensures Delimited(after) && !IsWs(after[0])
  {
    var x := if |items| == 1 then [] else "," + Items(items[1..]);
    assert Items(items) == Stringify(items[0]) + x;
    Regroup(Stringify(items[0]), x, "]");
    Regroup(Stringify(items[0]), x + "]", rest);
    after := x + "]" + rest;
    if |items| > 1 {
      Regroup4(",", Items(items[1..]), "]", rest);
      DropFront(",", Items(items[1..]) + "]" + rest);
    }
  }

  /** `ParseItems` after the last element. */
  lemma ParseItemsLast(s: string, v: Json, r: string)
    requires ParseValue(s) == Some((v, r)) && r != [] && r[0] == ']'
    ensures ParseItems(s) == Some(([v], r[1..]))
  {
  }

  /** `ParseItems` after an element followed by a comma. */
  lemma ParseItemsMore(s: string, v: Json, r: string, vs: seq<Json>, r3: string)
    requires ParseValue(s) == Some((v, r)) && r != [] && r[0] == ','
    requires ParseItems(r[1..]) == Some((vs, r3))
    ensures ParseItems(s) == Some(([v] + vs, r3))
  {
  }

  lemma {:induction false} ParseMembersStringified(fields: seq<Field>, rest: string)
    requires fields != [] && Delimited(rest)
    ensures ParseMembers(Members(fields) + "}" + rest) == Some((fields, rest))
    decreases fields, 0
  {
    var f := fields[0];
    var after := MembersAfterFirst(fields, rest);
    var t := Quote(f.key) + (":" + (Stringify(f.value) + after));
    assert Members(fields) + "}" + rest == t;
    ParseStringified(f.value, after);
    if |fields| == 1 {
      ReadLastMember(t, f, after);
      assert [f] == fields;
    } else {
      ParseMembersStringified(fields[1..], rest);
      ReadMoreMembers(t, f, after, fields[1..], rest);
      assert [f] + fields[1..] == fields;
    }
  }

  /** `ParseMembers` over a written last member whose value reads back. */
  lemma ReadLastMember(t: string, f: Field, after: string)
    requires t == Quote(f.key) + (":" + (Stringify(f.value) + after))
    requires ParseValue(Stringify(f.value) + after) == Some((f.value, after))
    requires after != [] && after[0] == '}'
    ensures ParseMembers(t) == Some(([f], after[1..]))
  {
    var r1 := ":" + (Stringify(f.value) + after);
    ParseKey(f.key, r1);
    DropFront(":", Stringify(f.value) + after);
    ParseMembersLast(t, f.key, r1, f.value, after);
  }

  /** `ParseMembers` over a written member followed by more members. */
  lemma ReadMoreMembers(t: string, f: Field, after: string, fs: seq<Field>, r3: string)
    requires t == Quote(f.key) + (":" + (Stringify(f.value) + after))
    requires ParseValue(Stringify(f.value) + after) == Some((f.value, after))
    requires after != [] && after[0] == ',' && ParseMembers(after[1..]) == Some((fs, r3))
    ensures ParseMembers(t) == Some(([f] + fs, r3))
  {
    var r1 := ":" + (Stringify(f.value) + after);
    ParseKey(f.key, r1);
    DropFront(":", Stringify(f.value) + after);
    ParseMembersMore(t, f.key, r1, f.value, after, fs, r3);
  }

  /** How a written member list splits after its first member. */
  lemma MembersAfterFirst(fields: seq<Field>, rest: string) returns (after: string)
    requires fields != []
    ensures Members(fields) + "}" + rest
            == Quote(fields[0].key) + (":" + (Stringify(fields[0].value) + after))
    ensures |fields| == 1 ==> after != [] && after[0] == '}' && after[1..] == rest
    ensures |fields| > 1 ==> after != [] && after[0] == ',' && after[1..] == Members(fields[1..]) + "}" + rest
    ensures Delimited(after) && !IsWs(after[0])
  {
    var q, v := Quote(fields[0].key), Stringify(fields[0].value);
    var x := if |fields| == 1 then [] else "," + Members(fields[1..]);
    assert Members(fields) == q + ":" + v + x;
    RegroupMember(q, v, x, rest);
    after := x + "}" + rest;
    if |fields| > 1 {
      Regroup4(",", Members(fields[1..]), "}", rest);
      DropFront(",", Members(fields[1..]) + "}" + rest);
    }
  }

  /** `ParseMembers` over a last member. */
  lemma ParseMembersLast(t: string, k: string, r1: string, v: Json, r2: string)
    requires t != [] && t[0] == '"' && ParseStringBody(t[1..]) == Some((k, r1))
    requires r1 != [] && r1[0] == ':' && ParseValue(r1[1..]) == Some((v, r2))
    requires r2 != [] && r2[0] == '}'
    ensures ParseMembers(t) == Some(([Field(k, v)], r2[1..]))
  {
  }

  /** `ParseMembers` over a member followed by a comma. */
  lemma ParseMembersMore(t: string, k: string, r1: string, v: Json, r2: string,
                         fs: seq<Field>, r3: string)
    requires t != [] && t[0] == '"' && ParseStringBody(t[1..]) == Some((k, r1))
    requires r1 != [] && r1[0] == ':' && ParseValue(r1[1..]) == Some((v, r2))
    requires r2 != [] && r2[0] == ',' && ParseMembers(r2[1..]) == Some((fs, r3))
    ensures ParseMembers(t) == Some(([Field(k, v)] + fs, r3))
  {
  }

  /** A line feed inside a string is written as the escape `\n`, and read
      back from it. */
  lemma LineFeedEscaped()
    ensures Stringify(JStr("a\nb")) == "\"a\\nb\""
    ensures Parse("\"a\\nb\"") == Some(JStr("a\nb"))
  {
    ParseStringify(JStr("a\nb"));
  }

  /** A raw line feed inside a string literal is an error. */
  lemma RawLineFeedRejected()
    ensures Parse("\"a\nb\"") == None
  {
    var body := "a\nb\"";
    assert body[1..] == "\nb\"";
    assert ParseStringBody(body[1..]) == None;
    assert ParseStringBody(body) == None;
    assert "\"a\nb\""[1..] == body;
  }

  /** `JSON.parse(JSON.stringify(v))` gives back `v`. */
  lemma ParseStringify(v: Json)
    ensures Parse(Stringify(v)) == Some(v)
  {
    ParseStringified(v, []);
    assert Stringify(v) + [] == Stringify(v);
  }
}
