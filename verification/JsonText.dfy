/** The lexical part of canonical JSON: strings (RFC 8259 section 7) and integers (section 6). */
module JsonText {

  /** What a parser found at the start of a text, and the text behind it. */
  datatype Parse<+T> = Bad | Good(value: T, rest: string)

  // ----- Hexadecimal -----

  function HexDigit(n: nat): (c: char)
    requires n < 16
    ensures HexValue(c) == Good(n, "")
  {
    if n < 10 then '0' + n as char else 'a' + (n - 10) as char
  }

  function HexValue(c: char): Parse<nat> {
    if '0' <= c <= '9' then Good(c as int - '0' as int, "")
    else if 'a' <= c <= 'f' then Good(c as int - 'a' as int + 10, "")
    else if 'A' <= c <= 'F' then Good(c as int - 'A' as int + 10, "")
    else Bad
  }

  function Hex4(n: nat): (s: string)
    requires n < 0x1_0000
    ensures |s| == 4
  {
    [HexDigit(n / 16 / 16 / 16), HexDigit(n / 16 / 16 % 16), HexDigit(n / 16 % 16), HexDigit(n % 16)]
  }

  function ReadHex4(t: string): (r: Parse<nat>)
    ensures r.Good? ==> r.value < 0x1_0000 && |t| >= 4 && r.rest == t[4..]
  {
    if |t| < 4 then Bad
    else
      var a, b, c, d := HexValue(t[0]), HexValue(t[1]), HexValue(t[2]), HexValue(t[3]);
      if a.Bad? || b.Bad? || c.Bad? || d.Bad? then Bad
      else Good(((a.value * 16 + b.value) * 16 + c.value) * 16 + d.value, t[4..])
  }

  lemma HexRoundTrip(n: nat, rest: string)
    requires n < 0x1_0000
    ensures ReadHex4(Hex4(n) + rest) == Good(n, rest)
  {
    var t := Hex4(n) + rest;
    assert t[4..] == rest;
    var m := n / 16;
    assert n == m * 16 + n % 16 && m == m / 16 * 16 + m % 16;
    assert m / 16 == m / 16 / 16 * 16 + m / 16 % 16;
  }

  // ----- Characters -----

  function Short(c: char): string {
    if c == '"' then "\""
    else if c == '\\' then "\\"
    else if c == '\n' then "n"
    else if c == '\r' then "r"
    else if c == '\t' then "t"
    else if c == '\U{0008}' then "b"
    else if c == '\U{000C}' then "f"
    else ""
  }

  /** One character as the printer writes it: ASCII only, lower-case escapes, surrogate pairs above the basic plane. */
  function EscapeChar(c: char): (s: string)
    ensures s != [] && s[0] != '"'
  {
    if Short(c) != "" then "\\" + Short(c)
    else if ' ' <= c <= '~' then [c]
    else if c as int < 0x1_0000 then "\\u" + Hex4(c as int)
    else "\\u" + (Hex4(High(c)) + ("\\u" + Hex4(Low(c))))
  }

  function High(c: char): nat
    requires c as int >= 0x1_0000
  {
    0xD800 + (c as int - 0x1_0000) / 0x400
  }

  function Low(c: char): nat
    requires c as int >= 0x1_0000
  {
    0xDC00 + (c as int - 0x1_0000) % 0x400
  }

  /** What follows a backslash. */
  function ReadEscape(t: string): (r: Parse<char>)
    ensures r.Good? ==> |r.rest| < |t|
  {
    if t == [] then Bad
    else match t[0]
         case '"' => Good('"', t[1..])
         case '\\' => Good('\\', t[1..])
         case '/' => Good('/', t[1..])
         case 'b' => Good('\U{0008}', t[1..])
         case 'f' => Good('\U{000C}', t[1..])
         case 'n' => Good('\n', t[1..])
         case 'r' => Good('\r', t[1..])
         case 't' => Good('\t', t[1..])
         case 'u' => ReadUnicode(t[1..])
         case _ => Bad
  }

  /** A code unit, or a pair of surrogates. */
  function ReadUnicode(t: string): (r: Parse<char>)
    ensures r.Good? ==> |r.rest| < |t|
  {
    var unit := ReadHex4(t);
    if unit.Bad? then Bad
    else if unit.value < 0xD800 || 0xE000 <= unit.value then Good(unit.value as char, unit.rest)
    else if unit.value >= 0xDC00 || |unit.rest| < 2 || unit.rest[..2] != "\\u" then Bad
    else
      var second := ReadHex4(unit.rest[2..]);
      if second.Bad? || second.value < 0xDC00 || 0xE000 <= second.value then Bad
      else Good((0x1_0000 + (unit.value - 0xD800) * 0x400 + (second.value - 0xDC00)) as char, second.rest)
  }

  /** One character of a string, plain or escaped; control characters have to be escaped. */
  function ReadChar(t: string): (r: Parse<char>)
    ensures r.Good? ==> |r.rest| < |t|
  {
    if t == [] then Bad
    else if t[0] == '\\' then ReadEscape(t[1..])
    else if t[0] < ' ' then Bad
    else Good(t[0], t[1..])
  }

  lemma ReadAfterU(x: string, rest: string)
    ensures ReadChar("\\u" + x + rest) == ReadUnicode(x + rest)
  {
    var t := "\\u" + x + rest;
    assert t[1..][0] == 'u' && t[1..][1..] == x + rest;
  }

  lemma UnitRoundTrip(c: char, rest: string)
    requires c as int < 0x1_0000
    ensures ReadChar("\\u" + Hex4(c as int) + rest) == Good(c, rest)
  {
    ReadAfterU(Hex4(c as int), rest);
    HexRoundTrip(c as int, rest);
  }

  lemma SecondOfPair(first: string, second: string, rest: string)
    ensures first + ("\\u" + second) + rest == first + ("\\u" + second + rest)
    ensures ("\\u" + second + rest)[..2] == "\\u" && ("\\u" + second + rest)[2..] == second + rest
  {
  }

  lemma PairRoundTrip(c: char, rest: string)
    requires c as int >= 0x1_0000
    ensures ReadChar("\\u" + (Hex4(High(c)) + ("\\u" + Hex4(Low(c)))) + rest) == Good(c, rest)
  {
    var tail := "\\u" + Hex4(Low(c)) + rest;
    ReadAfterU(Hex4(High(c)) + ("\\u" + Hex4(Low(c))), rest);
    SecondOfPair(Hex4(High(c)), Hex4(Low(c)), rest);
    HexRoundTrip(High(c), tail);
    HexRoundTrip(Low(c), rest);
  }

  lemma ShortRoundTrip(c: char, rest: string)
    requires Short(c) != ""
    ensures ReadChar("\\" + Short(c) + rest) == Good(c, rest)
  {
    var t := "\\" + Short(c) + rest;
    assert t[1..][0] == Short(c)[0] && t[1..][1..] == rest;
  }

  lemma CharRoundTrip(c: char, rest: string)
    ensures ReadChar(EscapeChar(c) + rest) == Good(c, rest)
  {
    if Short(c) != "" {
      ShortRoundTrip(c, rest);
    } else if ' ' <= c <= '~' {
      assert ([c] + rest)[1..] == rest;
    } else if c as int < 0x1_0000 {
      UnitRoundTrip(c, rest);
    } else {
      PairRoundTrip(c, rest);
    }
  }

  // ----- Strings -----

  function Escape(s: string): string {
    if s == [] then [] else EscapeChar(s[0]) + Escape(s[1..])
  }

  /** The rest of a string after its opening quote. */
  function ReadString(t: string): (r: Parse<string>)
    ensures r.Good? ==> |r.rest| < |t|
    decreases |t|
  {
    if t == [] then Bad
    else if t[0] == '"' then Good("", t[1..])
    else
      var first := ReadChar(t);
      if first.Bad? then Bad
      else
        var others := ReadString(first.rest);
        if others.Bad? then Bad else Good([first.value] + others.value, others.rest)
  }

  lemma {:induction false} StringRoundTrip(s: string, rest: string)
    ensures ReadString(Escape(s) + "\"" + rest) == Good(s, rest)
  {
    var t := Escape(s) + "\"" + rest;
    if s == [] {
      assert t[1..] == rest;
    } else {
      var tail := Escape(s[1..]) + "\"" + rest;
      assert t == EscapeChar(s[0]) + tail;
      CharRoundTrip(s[0], tail);
      StringRoundTrip(s[1..], rest);
      assert [s[0]] + s[1..] == s;
    }
  }

  // ----- Integers -----

  predicate Digit(c: char) {
    '0' <= c <= '9'
  }

  predicate AllDigits(s: string) {
    forall i :: 0 <= i < |s| ==> Digit(s[i])
  }

  function DigitOf(n: nat): (c: char)
    requires n < 10
    ensures Digit(c) && c as int - '0' as int == n
  {
    '0' + n as char
  }

  function Digits(n: nat): (s: string)
    ensures s != [] && AllDigits(s) && (s[0] == '0' ==> n == 0) && (n == 0 ==> s == "0")
  {
    if n < 10 then [DigitOf(n)] else Digits(n / 10) + [DigitOf(n % 10)]
  }

  function Decimal(n: int): string {
    if n < 0 then "-" + Digits(-n) else Digits(n)
  }

  function NumberOf(s: string): nat
    requires AllDigits(s)
  {
    if s == [] then 0 else NumberOf(s[..|s| - 1]) * 10 + (s[|s| - 1] as int - '0' as int)
  }

  lemma {:induction false} NumberOfDigits(n: nat)
    ensures NumberOf(Digits(n)) == n
  {
    var s := Digits(n);
    if n >= 10 {
      assert s[..|s| - 1] == Digits(n / 10);
      NumberOfDigits(n / 10);
    } else {
      assert s[..0] == [];
    }
  }

  function DigitCount(t: string): (k: nat)
    ensures k <= |t| && AllDigits(t[..k]) && (k < |t| ==> !Digit(t[k]))
  {
    if t == [] || !Digit(t[0]) then 0
    else
      assert forall i :: 0 <= i < 1 + DigitCount(t[1..]) ==> t[i] == if i == 0 then t[0] else t[1..][i - 1];
      1 + DigitCount(t[1..])
  }

  /** The text goes on as a number would. */
  predicate GoesOn(t: string) {
    t != [] && (Digit(t[0]) || t[0] == '.' || t[0] == 'e' || t[0] == 'E')
  }

  /** An integer without leading zeros; a fraction or an exponent is no integer. */
  function ReadNumber(t: string): (r: Parse<int>)
    ensures r.Good? ==> |r.rest| < |t|
  {
    var negative := t != [] && t[0] == '-';
    var u := if negative then t[1..] else t;
    var k := DigitCount(u);
    if k == 0 || (u[0] == '0' && k > 1) || GoesOn(u[k..]) then Bad
    else
      var m: int := NumberOf(u[..k]);
      Good(if negative then -m else m, u[k..])
  }

  lemma {:induction false} CountOfDigits(s: string, rest: string)
    requires AllDigits(s) && !GoesOn(rest)
    ensures DigitCount(s + rest) == |s|
  {
    if s != [] {
      assert (s + rest)[1..] == s[1..] + rest;
      CountOfDigits(s[1..], rest);
    } else {
      assert s + rest == rest;
    }
  }

  lemma NaturalRoundTrip(m: int, rest: string)
    requires m >= 0 && !GoesOn(rest)
    ensures ReadNumber(Digits(m) + rest) == Good(m, rest)
    ensures ReadNumber("-" + (Digits(m) + rest)) == Good(-m, rest)
  {
    var u := Digits(m) + rest;
    CountOfDigits(Digits(m), rest);
    NumberOfDigits(m);
    assert u[..|Digits(m)|] == Digits(m) && u[|Digits(m)|..] == rest;
    assert ("-" + u)[1..] == u && Digit(u[0]);
  }

  lemma Signed(digits: string, rest: string)
    ensures "-" + digits + rest == "-" + (digits + rest)
  {
  }

  lemma NumberRoundTrip(n: int, rest: string)
    requires !GoesOn(rest)
    ensures ReadNumber(Decimal(n) + rest) == Good(n, rest)
  {
    if n < 0 {
      NaturalRoundTrip(-n, rest);
      Signed(Digits(-n), rest);
    } else {
      NaturalRoundTrip(n, rest);
    }
  }
}
