/**
 * Canonical JSON text as the request stores write it (sorted members, no
 * spaces), and the question which encodings can be cut short and still read.
 */
module CanonicalJson {
  import opened Prelude
  import opened Encoding

  datatype Member = Member(key: string, value: Json)

  datatype Json = Null | Bool(b: bool) | Int(n: int) | Float(lexeme: Lexeme) | Text(s: string)
                | List(items: seq<Json>) | Object(members: seq<Member>)

  type Digit = d: nat | d < 10

  /** A float as it is printed: integer part, fraction digits if any, exponent if any. */
  datatype Lexeme = Lexeme(negative: bool, whole: nat, fraction: seq<Digit>, exponent: Option<Exponent>)

  datatype Exponent = Exponent(negative: bool, digits: seq<Digit>)

  const QUOTE: byte := 0x22
  const BACKSLASH: byte := 0x5C
  const COMMA: byte := 0x2C
  const COLON: byte := 0x3A
  const PLUS: byte := 0x2B
  const DOT: byte := 0x2E
  const EXPONENT: byte := 0x65
  const OPEN_OBJECT: byte := 0x7B
  const CLOSE_OBJECT: byte := 0x7D
  const OPEN_LIST: byte := 0x5B
  const CLOSE_LIST: byte := 0x5D

  // ----- Encoding ----------------------------------------------------------------------------

  function DigitByte(d: int): byte
    requires 0 <= d < 10
  {
    48 + d
  }

  function DigitBytes(digits: seq<Digit>): (bytes: Bytes)
    ensures |bytes| == |digits| && forall i :: 0 <= i < |bytes| ==> bytes[i] == DigitByte(digits[i])
  {
    if digits == [] then [] else [DigitByte(digits[0])] + DigitBytes(digits[1..])
  }

  function EncodeSign(negative: bool): Bytes {
    if negative then [MINUS] else []
  }

  function EncodeFraction(digits: seq<Digit>): Bytes {
    if digits == [] then [] else [DOT] + DigitBytes(digits)
  }

  function EncodeExponent(e: Option<Exponent>): Bytes {
    if e.None? then [] else [EXPONENT, if e.value.negative then MINUS else PLUS] + DigitBytes(e.value.digits)
  }

  function EncodeLexeme(l: Lexeme): Bytes {
    EncodeSign(l.negative) + Digits(l.whole) + EncodeFraction(l.fraction) + EncodeExponent(l.exponent)
  }

  function HexDigit(n: nat): byte
    requires n < 16
  {
    if n < 10 then 48 + n else 87 + n
  }

  function Hex4(n: nat): Bytes
    requires n < 0x10000
  {
    [HexDigit(n / 0x1000), HexDigit(n / 0x100 % 16), HexDigit(n / 16 % 16), HexDigit(n % 16)]
  }

  function UnicodeEscape(n: nat): Bytes
    requires n < 0x10000
  {
    [BACKSLASH, 0x75] + Hex4(n)
  }

  /** Code points outside the basic plane escape as a surrogate pair (section 7 of RFC 8259). */
  function AsciiEscape(n: nat): Bytes
    requires n < 0x110000
  {
    if n < 0x10000 then UnicodeEscape(n)
    else UnicodeEscape(0xD800 + (n - 0x10000) / 0x400) + UnicodeEscape(0xDC00 + (n - 0x10000) % 0x400)
  }

  /** The letter after the backslash for characters with a short escape, else 0. */
  function ShortEscape(n: nat): byte {
    if n == 0x22 then 0x22 else if n == 0x5C then 0x5C else if n == 0x08 then 0x62
    else if n == 0x0C then 0x66 else if n == 0x0A then 0x6E else if n == 0x0D then 0x72
    else if n == 0x09 then 0x74 else 0
  }

  function EncodeChar(c: char, ascii: bool): Bytes {
    var n := c as int;
    if ShortEscape(n) != 0 then [BACKSLASH, ShortEscape(n)]
    else if n < 0x20 || (ascii && n >= 0x7F) then AsciiEscape(n)
    else if n < 0x80 then [n]
    else Utf8(n)
  }

  function EncodeChars(s: string, ascii: bool): Bytes {
    if s == "" then [] else EncodeChar(s[0], ascii) + EncodeChars(s[1..], ascii)
  }

  function EncodeString(s: string, ascii: bool): Bytes {
    [QUOTE] + EncodeChars(s, ascii) + [QUOTE]
  }

  function EncodeItems(items: seq<Json>, ascii: bool): Bytes
    decreases items
  {
    if items == [] then []
    else if |items| == 1 then Encode(items[0], ascii)
    else Encode(items[0], ascii) + [COMMA] + EncodeItems(items[1..], ascii)
  }

  function EncodeMember(m: Member, ascii: bool): Bytes
    decreases m
  {
    EncodeString(m.key, ascii) + [COLON] + Encode(m.value, ascii)
  }

  function EncodeMembers(members: seq<Member>, ascii: bool): Bytes
    decreases members
  {
    if members == [] then []
    else if |members| == 1 then EncodeMember(members[0], ascii)
    else EncodeMember(members[0], ascii) + [COMMA] + EncodeMembers(members[1..], ascii)
  }

  function Encode(j: Json, ascii: bool): Bytes
    decreases j
  {
    match j
    case Null => [0x6E, 0x75, 0x6C, 0x6C]
    case Bool(true) => [0x74, 0x72, 0x75, 0x65]
    case Bool(false) => [0x66, 0x61, 0x6C, 0x73, 0x65]
    case Int(n) => Decimal(n)
    case Float(lexeme) => EncodeLexeme(lexeme)
    case Text(s) => EncodeString(s, ascii)
    case List(items) => [OPEN_LIST] + EncodeItems(items, ascii) + [CLOSE_LIST]
    case Object(members) => [OPEN_OBJECT] + EncodeMembers(members, ascii) + [CLOSE_OBJECT]
  }

  // ----- Scanning: bracket depth and string state ----------------------------------------------------

  datatype Scan = Scan(depth: int, quoted: bool, escaped: bool)

  function Step(st: Scan, b: byte): Scan {
    if st.quoted then
      if st.escaped then st.(escaped := false)
      else if b == BACKSLASH then st.(escaped := true)
      else if b == QUOTE then st.(quoted := false)
      else st
    else if b == QUOTE then st.(quoted := true)
    else if b == OPEN_OBJECT || b == OPEN_LIST then st.(depth := st.depth + 1)
    else if b == CLOSE_OBJECT || b == CLOSE_LIST then st.(depth := st.depth - 1)
    else st
  }

  function ScanAll(st: Scan, bytes: Bytes): Scan
    decreases |bytes|
  {
    if bytes == [] then st else ScanAll(Step(st, bytes[0]), bytes[1..])
  }

  /** The depth never falls below d while the bytes are scanned. */
  predicate Above(st: Scan, bytes: Bytes, d: int)
    decreases |bytes|
  {
    st.depth >= d && (bytes == [] || Above(Step(st, bytes[0]), bytes[1..], d))
  }

  /** Every position while scanning the bytes lies inside a string. */
  predicate Within(st: Scan, bytes: Bytes)
    decreases |bytes|
  {
    st.quoted && (bytes == [] || Within(Step(st, bytes[0]), bytes[1..]))
  }

  lemma {:induction false} ScanConcat(st: Scan, a: Bytes, b: Bytes, d: int)
    ensures ScanAll(st, a + b) == ScanAll(ScanAll(st, a), b)
    ensures Above(st, a, d) && Above(ScanAll(st, a), b, d) ==> Above(st, a + b, d)
    ensures Within(st, a) && Within(ScanAll(st, a), b) ==> Within(st, a + b)
    decreases |a|
  {
    if a == [] {
      assert a + b == b;
    } else {
      assert (a + b)[1..] == a[1..] + b;
      ScanConcat(Step(st, a[0]), a[1..], b, d);
    }
  }

  lemma {:induction false} ScanPrefix(st: Scan, bytes: Bytes, n: nat, d: int)
    requires n <= |bytes|
    ensures Above(st, bytes, d) ==> ScanAll(st, bytes[..n]).depth >= d
    ensures Within(st, bytes) ==> ScanAll(st, bytes[..n]).quoted
    decreases n
  {
    if n > 0 {
      assert bytes[..n][1..] == bytes[1..][..n - 1];
      ScanPrefix(Step(st, bytes[0]), bytes[1..], n - 1, d);
    }
  }

  // ----- What scanning an encoding does -----------------------------------------------------------------

  /** Bytes with no quote or backslash leave a string state alone. */
  predicate Plain(bytes: Bytes) {
    forall i :: 0 <= i < |bytes| ==> bytes[i] != QUOTE && bytes[i] != BACKSLASH
  }

  /** Bytes that mean nothing to the scanner outside strings. */
  predicate Neutral(bytes: Bytes) {
    forall i :: 0 <= i < |bytes| ==>
      bytes[i] !in {QUOTE, OPEN_OBJECT, CLOSE_OBJECT, OPEN_LIST, CLOSE_LIST}
  }

  lemma {:induction false} ScanPlain(bytes: Bytes, d: int)
    requires Plain(bytes)
    ensures ScanAll(Scan(d, true, false), bytes) == Scan(d, true, false)
    ensures Within(Scan(d, true, false), bytes) && Above(Scan(d, true, false), bytes, d)
  {
    if bytes != [] { ScanPlain(bytes[1..], d); }
  }

  lemma {:induction false} ScanNeutral(bytes: Bytes, d: int)
    requires Neutral(bytes)
    ensures ScanAll(Scan(d, false, false), bytes) == Scan(d, false, false)
    ensures Above(Scan(d, false, false), bytes, d)
  {
    if bytes != [] { ScanNeutral(bytes[1..], d); }
  }

  /** Inside a string, the bytes stay inside it and end unescaped. */
  predicate KeepsString(bytes: Bytes, d: int) {
    var st := Scan(d, true, false);
    ScanAll(st, bytes) == st && Within(st, bytes) && Above(st, bytes, d)
  }

  lemma KeepsConcat(a: Bytes, b: Bytes, d: int)
    requires KeepsString(a, d) && KeepsString(b, d)
    ensures KeepsString(a + b, d)
  {
    ScanConcat(Scan(d, true, false), a, b, d);
  }

  lemma KeepsEscape(b: byte, d: int)
    ensures KeepsString([BACKSLASH, b], d)
  {
    var st := Scan(d, true, false);
    var bytes: Bytes := [BACKSLASH, b];
    assert bytes[1..] == [b] && [b][1..] == [];
    assert Step(Step(st, BACKSLASH), b) == st;
    assert ScanAll(Step(st, BACKSLASH), [b]) == ScanAll(st, []);
    assert Within(Step(st, BACKSLASH), [b]) && Above(Step(st, BACKSLASH), [b], d);
  }

  lemma KeepsUnicode(n: nat, d: int)
    requires n < 0x10000
    ensures KeepsString(UnicodeEscape(n), d)
  {
    KeepsEscape(0x75, d);
    ScanPlain(Hex4(n), d);
    KeepsConcat([BACKSLASH, 0x75], Hex4(n), d);
  }

  lemma KeepsChar(c: char, ascii: bool, d: int)
    ensures KeepsString(EncodeChar(c, ascii), d)
  {
    var n := c as int;
    if ShortEscape(n) != 0 {
      KeepsEscape(ShortEscape(n), d);
    } else if n < 0x20 || (ascii && n >= 0x7F) {
      if n < 0x10000 {
        KeepsUnicode(n, d);
      } else {
        var hi, lo := 0xD800 + (n - 0x10000) / 0x400, 0xDC00 + (n - 0x10000) % 0x400;
        KeepsUnicode(hi, d);
        KeepsUnicode(lo, d);
        KeepsConcat(UnicodeEscape(hi), UnicodeEscape(lo), d);
      }
    } else {
      ScanPlain(EncodeChar(c, ascii), d);
    }
  }

  lemma {:induction false} KeepsChars(s: string, ascii: bool, d: int)
    ensures KeepsString(EncodeChars(s, ascii), d)
  {
    if s != "" {
      KeepsChar(s[0], ascii, d);
      KeepsChars(s[1..], ascii, d);
      KeepsConcat(EncodeChar(s[0], ascii), EncodeChars(s[1..], ascii), d);
    }
  }

  /** Outside strings: the bytes return to the same depth and never go below it. */
  predicate Balanced(bytes: Bytes, d: int) {
    var st := Scan(d, false, false);
    ScanAll(st, bytes) == st && Above(st, bytes, d)
  }

  lemma BalancedConcat(a: Bytes, b: Bytes, d: int)
    requires Balanced(a, d) && Balanced(b, d)
    ensures Balanced(a + b, d)
  {
    ScanConcat(Scan(d, false, false), a, b, d);
  }

  lemma BalancedSeparated(a: Bytes, sep: byte, b: Bytes, d: int)
    requires Balanced(a, d) && Balanced(b, d) && Neutral([sep])
    ensures Balanced(a + [sep] + b, d)
  {
    ScanNeutral([sep], d);
    BalancedConcat(a, [sep], d);
    BalancedConcat(a + [sep], b, d);
  }

  lemma BalancedString(s: string, ascii: bool, d: int)
    ensures Balanced(EncodeString(s, ascii), d)
  {
    var st, body := Scan(d, false, false), EncodeChars(s, ascii);
    KeepsChars(s, ascii, d);
    assert ScanAll(st, [QUOTE]) == Scan(d, true, false) && Above(st, [QUOTE], d);
    ScanConcat(st, [QUOTE], body, d);
    assert ScanAll(Scan(d, true, false), [QUOTE]) == st && Above(Scan(d, true, false), [QUOTE], d);
    ScanConcat(st, [QUOTE] + body, [QUOTE], d);
  }

  /** Brackets around balanced bytes; every proper nonempty prefix is strictly deeper. */
  lemma Bracketed(open: byte, body: Bytes, close: byte, d: int)
    requires open in {OPEN_OBJECT, OPEN_LIST} && close in {CLOSE_OBJECT, CLOSE_LIST} && Balanced(body, d + 1)
    ensures Balanced([open] + body + [close], d)
    ensures forall n :: 0 < n < |body| + 2 ==> ScanAll(Scan(d, false, false), ([open] + body + [close])[..n]).depth > d
  {
    var st, inner := Scan(d, false, false), Scan(d + 1, false, false);
    assert ScanAll(st, [open]) == inner && Above(st, [open], d);
    AboveWeaker(inner, body, d + 1, d);
    ScanConcat(st, [open], body, d);
    assert ScanAll(inner, [close]) == st && Above(inner, [close], d);
    ScanConcat(st, [open] + body, [close], d);
    forall n | 0 < n < |body| + 2 ensures ScanAll(st, ([open] + body + [close])[..n]).depth > d {
      assert ([open] + body + [close])[..n] == [open] + body[..n - 1];
      ScanConcat(st, [open], body[..n - 1], d);
      ScanPrefix(inner, body, n - 1, d + 1);
    }
  }

  lemma {:induction false} AboveWeaker(st: Scan, bytes: Bytes, d: int, e: int)
    requires Above(st, bytes, d) && e <= d
    ensures Above(st, bytes, e)
    decreases |bytes|
  {
    if bytes != [] { AboveWeaker(Step(st, bytes[0]), bytes[1..], d, e); }
  }

  lemma LexemeNeutral(l: Lexeme)
    ensures Neutral(EncodeLexeme(l))
  {
    DigitsRange(l.whole);
    assert Neutral(EncodeSign(l.negative)) && Neutral(Digits(l.whole));
    assert Neutral(EncodeFraction(l.fraction)) && Neutral(EncodeExponent(l.exponent));
  }

  lemma {:induction false} BalancedItems(items: seq<Json>, ascii: bool, d: int)
    ensures Balanced(EncodeItems(items, ascii), d)
    decreases items
  {
    if |items| == 1 {
      BalancedJson(items[0], ascii, d);
    } else if items != [] {
      BalancedJson(items[0], ascii, d);
      BalancedItems(items[1..], ascii, d);
      BalancedSeparated(Encode(items[0], ascii), COMMA, EncodeItems(items[1..], ascii), d);
    }
  }

  lemma {:induction false} BalancedMember(m: Member, ascii: bool, d: int)
    ensures Balanced(EncodeMember(m, ascii), d)
    decreases m
  {
    BalancedString(m.key, ascii, d);
    BalancedJson(m.value, ascii, d);
    BalancedSeparated(EncodeString(m.key, ascii), COLON, Encode(m.value, ascii), d);
  }

  lemma {:induction false} BalancedMembers(members: seq<Member>, ascii: bool, d: int)
    ensures Balanced(EncodeMembers(members, ascii), d)
    decreases members
  {
    if |members| == 1 {
      BalancedMember(members[0], ascii, d);
    } else if members != [] {
      BalancedMember(members[0], ascii, d);
      BalancedMembers(members[1..], ascii, d);
      BalancedSeparated(EncodeMember(members[0], ascii), COMMA, EncodeMembers(members[1..], ascii), d);
    }
  }

  lemma {:induction false} BalancedJson(j: Json, ascii: bool, d: int)
    ensures Balanced(Encode(j, ascii), d)
    decreases j
  {
    match j
    case Null => ScanNeutral(Encode(j, ascii), d);
    case Bool(_) => ScanNeutral(Encode(j, ascii), d);
    case Int(n) =>
      DigitsRange(if n < 0 then -n else n);
      ScanNeutral(Encode(j, ascii), d);
    case Float(lexeme) =>
      LexemeNeutral(lexeme);
      ScanNeutral(Encode(j, ascii), d);
    case Text(s) => BalancedString(s, ascii, d);
    case List(items) =>
      BalancedItems(items, ascii, d + 1);
      Bracketed(OPEN_LIST, EncodeItems(items, ascii), CLOSE_LIST, d);
    case Object(members) =>
      BalancedMembers(members, ascii, d + 1);
      Bracketed(OPEN_OBJECT, EncodeMembers(members, ascii), CLOSE_OBJECT, d);
  }

  // ----- Canonical values -------------------------------------------------------------------------------

  /** Every float has a fraction or an exponent, and an exponent follows one nonzero digit. */
  predicate Shaped(l: Lexeme) {
    (l.fraction != [] || l.exponent.Some?) && (l.exponent.Some? ==> 1 <= l.whole <= 9)
  }

  /**
   * What is used of the printing of floats, which keeps the spellings that read back and
   * print as themselves: they are shaped, and minus zero point d is one of them.
   */
  ghost predicate Printing(printed: Lexeme -> bool) {
    (forall l :: printed(l) ==> Shaped(l)) && (forall d: Digit :: printed(Lexeme(true, 0, [d], None)))
  }

  /** The order of strings by code points. */
  predicate Less(a: string, b: string) {
    b != [] && (a == [] || a[0] < b[0] || (a[0] == b[0] && Less(a[1..], b[1..])))
  }

  /** The value a text reads as when printing it gives the text back: members sorted, floats as printed. */
  predicate Canonical(j: Json, printed: Lexeme -> bool)
    decreases j
  {
    match j
    case Float(lexeme) => printed(lexeme)
    case List(items) => forall i :: 0 <= i < |items| ==> Canonical(items[i], printed)
    case Object(members) =>
      && (forall i :: 0 <= i < |members| ==> Canonical(members[i].value, printed))
      && (forall i, j :: 0 <= i < j < |members| ==> Less(members[i].key, members[j].key))
    case _ => true
  }

  // ----- Which encodings can be cut short ---------------------------------------------------------------

  predicate Negative(j: Json) {
    (j.Int? && j.n < 0) || (j.Float? && j.lexeme.negative)
  }

  lemma FirstByte(j: Json, ascii: bool)
    ensures |Encode(j, ascii)| > 0
    ensures var b := Encode(j, ascii)[0];
            && (b == 0x6E <==> j.Null?) && (b == 0x74 <==> j == Bool(true)) && (b == 0x66 <==> j == Bool(false))
            && (b == MINUS <==> Negative(j))
    ensures Negative(j) ==> |Encode(j, ascii)| >= 2
  {
    if j.Int? {
      DigitsRange(if j.n < 0 then -j.n else j.n);
    } else if j.Float? {
      DigitsRange(j.lexeme.whole);
      if !j.lexeme.negative { assert Encode(j, ascii)[0] == Digits(j.lexeme.whole)[0]; }
    }
  }

  /** A negative number's second byte is zero only in a float with integer part zero. */
  lemma SecondByte(j: Json, ascii: bool)
    requires Negative(j)
    ensures |Encode(j, ascii)| >= 2
    ensures Encode(j, ascii)[1] == 48 <==> j.Float? && j.lexeme.whole == 0
  {
    if j.Int? {
      DigitsLead(-j.n);
    } else {
      DigitsLead(j.lexeme.whole);
      assert Encode(j, ascii)[1] == Digits(j.lexeme.whole)[0];
    }
  }

  predicate ReadsAs(j: Json, n: nat, k: Json, ascii: bool) {
    n < |Encode(j, ascii)| && Encode(j, ascii)[..n] == Encode(k, ascii)
  }

  /** Some proper prefix of the encoding is itself the encoding of a canonical value. */
  ghost predicate CutsShort(j: Json, ascii: bool, printed: Lexeme -> bool) {
    exists n, k :: Canonical(k, printed) && ReadsAs(j, n, k, ascii)
  }

  /** Numbers with a shorter reading: two or more digits, or any float but minus zero point one digit. */
  predicate Breakable(j: Json) {
    || (j.Int? && !(-10 < j.n < 10))
    || (j.Float? && !(j.lexeme.negative && j.lexeme.whole == 0 && |j.lexeme.fraction| == 1))
  }

  lemma QuotedPrefix(s: string, ascii: bool, n: nat)
    requires 0 < n < |EncodeString(s, ascii)|
    ensures ScanAll(Scan(0, false, false), EncodeString(s, ascii)[..n]).quoted
  {
    var st, body := Scan(0, false, false), EncodeChars(s, ascii);
    KeepsChars(s, ascii, 0);
    assert EncodeString(s, ascii)[..n] == [QUOTE] + body[..n - 1];
    ScanConcat(st, [QUOTE], body[..n - 1], 0);
    assert ScanAll(st, [QUOTE]) == Scan(0, true, false);
    ScanPrefix(Scan(0, true, false), body, n - 1, 0);
  }

  /** Minus zero point one digit has no shorter reading. */
  lemma UnbreakableFloat(j: Json, n: nat, k: Json, ascii: bool)
    requires j.Float? && Shaped(j.lexeme) && !Breakable(j) && (k.Float? ==> Shaped(k.lexeme))
    ensures !ReadsAs(j, n, k, ascii)
  {
    var d := j.lexeme.fraction[0];
    assert Encode(j, ascii) == [MINUS, 48, DOT, DigitByte(d)];
    if ReadsAs(j, n, k, ascii) {
      FirstByte(k, ascii);
      assert Encode(k, ascii)[0] == MINUS;
      SecondByte(k, ascii);
    }
  }

  /** Only a breakable number has a shorter reading. */
  lemma ShorterReading(j: Json, n: nat, k: Json, ascii: bool)
    requires ReadsAs(j, n, k, ascii) && (j.Float? ==> Shaped(j.lexeme)) && (k.Float? ==> Shaped(k.lexeme))
    ensures Breakable(j)
  {
    FirstByte(j, ascii);
    FirstByte(k, ascii);
    assert Encode(k, ascii)[0] == Encode(j, ascii)[0];
    BalancedJson(k, ascii, 0);
    match j
    case Null =>
    case Bool(_) =>
    case Int(_) =>
    case Float(_) => if !Breakable(j) { UnbreakableFloat(j, n, k, ascii); }
    case Text(s) => QuotedPrefix(s, ascii, n);
    case List(items) =>
      BalancedItems(items, ascii, 1);
      Bracketed(OPEN_LIST, EncodeItems(items, ascii), CLOSE_LIST, 0);
    case Object(members) =>
      BalancedMembers(members, ascii, 1);
      Bracketed(OPEN_OBJECT, EncodeMembers(members, ascii), CLOSE_OBJECT, 0);
  }

  lemma IntCutsShort(n: int, ascii: bool) returns (size: nat, k: Json)
    requires !(-10 < n < 10)
    ensures ReadsAs(Int(n), size, k, ascii) && k.Int?
  {
    if n >= 10 {
      size, k := |Digits(n / 10)|, Int(n / 10);
      assert Decimal(n)[..size] == Digits(n / 10);
    } else {
      var m := -n / 10;
      size, k := |Digits(m)| + 1, Int(-m);
      assert Decimal(n) == [MINUS] + (Digits(m) + [48 + -n % 10]);
      assert Decimal(n)[..size] == Decimal(-m);
    }
  }

  lemma LexemeParts(l: Lexeme)
    ensures EncodeLexeme(l) == EncodeSign(l.negative) + (Digits(l.whole) + (EncodeFraction(l.fraction) + EncodeExponent(l.exponent)))
  {
  }

  /** A positive float starts with a digit, and goes on. */
  lemma PositiveCutsShort(l: Lexeme, ascii: bool) returns (k: Json)
    requires Shaped(l) && !l.negative
    ensures k.Int? && ReadsAs(Float(l), 1, k, ascii)
  {
    DigitsRange(l.whole);
    LexemeParts(l);
    var lead: int := Digits(l.whole)[0];
    k := Int(lead - 48);
    assert EncodeLexeme(l)[..1] == [Digits(l.whole)[0]];
  }

  /** A negative float with a nonzero integer part starts with a negative digit. */
  lemma NegativeCutsShort(l: Lexeme, ascii: bool) returns (k: Json)
    requires Shaped(l) && l.negative && l.whole != 0
    ensures k.Int? && ReadsAs(Float(l), 2, k, ascii)
  {
    DigitsRange(l.whole);
    DigitsLead(l.whole);
    LexemeParts(l);
    var lead: int := Digits(l.whole)[0];
    k := Int(48 - lead);
    assert EncodeLexeme(l)[..2] == [MINUS, Digits(l.whole)[0]];
  }

  /** A longer fraction after minus zero starts with a shorter one. */
  lemma FractionCutsShort(l: Lexeme, ascii: bool)
    requires Shaped(l) && l.negative && l.whole == 0 && |l.fraction| >= 2
    ensures ReadsAs(Float(l), 4, Float(Lexeme(true, 0, [l.fraction[0]], None)), ascii)
  {
    var k := Lexeme(true, 0, [l.fraction[0]], None);
    LexemeParts(l);
    LexemeParts(k);
    assert EncodeLexeme(l) == [MINUS, 48, DOT] + DigitBytes(l.fraction);
    assert EncodeLexeme(k) == [MINUS, 48, DOT] + DigitBytes(k.fraction);
    assert EncodeLexeme(l)[..4] == [MINUS, 48, DOT, DigitByte(l.fraction[0])];
  }

  lemma FloatCutsShort(l: Lexeme, ascii: bool, printed: Lexeme -> bool)
    requires Printing(printed) && Shaped(l) && Breakable(Float(l))
    ensures CutsShort(Float(l), ascii, printed)
  {
    if !l.negative {
      var k := PositiveCutsShort(l, ascii);
      assert Canonical(k, printed);
    } else if l.whole != 0 {
      var k := NegativeCutsShort(l, ascii);
      assert Canonical(k, printed);
    } else {
      FractionCutsShort(l, ascii);
      assert Canonical(Float(Lexeme(true, 0, [l.fraction[0]], None)), printed);
    }
  }

  /** A truncated encoding can be taken for a complete one exactly when it is a breakable number. */
  lemma CutsShortExactly(j: Json, ascii: bool, printed: Lexeme -> bool)
    requires Printing(printed) && Canonical(j, printed)
    ensures CutsShort(j, ascii, printed) <==> Breakable(j)
  {
    if Breakable(j) {
      if j.Int? {
        var size, k := IntCutsShort(j.n, ascii);
        assert Canonical(k, printed);
      } else {
        FloatCutsShort(j.lexeme, ascii, printed);
      }
    } else if CutsShort(j, ascii, printed) {
      var n, k :| Canonical(k, printed) && ReadsAs(j, n, k, ascii);
      ShorterReading(j, n, k, ascii);
    }
  }
}
