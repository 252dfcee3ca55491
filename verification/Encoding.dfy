/** Byte spellings shared by the text formats: decimal numbers and UTF-8. */
module Encoding {
  import opened Prelude

  const MINUS: byte := 0x2D

  function Digits(n: nat): Bytes {
    if n < 10 then [48 + n] else Digits(n / 10) + [48 + n % 10]
  }

  function Decimal(n: int): Bytes {
    if n < 0 then [MINUS] + Digits(-n) else Digits(n)
  }

  lemma {:induction false} DigitsRange(n: nat)
    ensures |Digits(n)| >= 1 && forall i :: 0 <= i < |Digits(n)| ==> 48 <= Digits(n)[i] <= 57
  {
    if n >= 10 { DigitsRange(n / 10); }
  }

  /** Only zero starts with a zero. */
  lemma {:induction false} DigitsLead(n: nat)
    ensures |Digits(n)| >= 1 && (Digits(n)[0] == 48 <==> n == 0)
  {
    if n >= 10 { DigitsLead(n / 10); }
  }

  /** Section 3 of RFC 3629. */
  function Utf8(n: nat): Bytes
    requires 0x80 <= n < 0x110000
  {
    if n < 0x800 then [0xC0 + n / 0x40, 0x80 + n % 0x40]
    else if n < 0x10000 then [0xE0 + n / 0x1000, 0x80 + n / 0x40 % 0x40, 0x80 + n % 0x40]
    else [0xF0 + n / 0x40000, 0x80 + n / 0x1000 % 0x40, 0x80 + n / 0x40 % 0x40, 0x80 + n % 0x40]
  }
}
