/**
 * Reading a /proc/<pid>/stat line whose command name is written by the observed
 * process and may hold any bytes, parentheses, spaces and newlines included.
 */
module ProcStat {
  import opened Prelude
  import opened Encoding

  /** Only an observed line yields field values. */
  datatype Parsed = Oversized | Empty | Partial | Malformed | Observed(start: Bytes, state: byte, parent: nat)

  const CAP: nat := 4096
  const OPEN: byte := 0x28
  const CLOSE: byte := 0x29
  const SPACE: byte := 0x20
  const FEED: byte := 0x0A

  // ----- Byte strings --------------------------------------------------------------------------------------

  /** The last position of a byte, or -1. */
  function LastIndex(raw: Bytes, b: byte): (i: int)
    ensures -1 <= i < |raw| && (i >= 0 ==> raw[i] == b) && forall j :: i < j < |raw| ==> raw[j] != b
  {
    if raw == [] then -1 else if raw[|raw| - 1] == b then |raw| - 1 else LastIndex(raw[..|raw| - 1], b)
  }

  predicate White(b: byte) {
    b == SPACE || 0x09 <= b <= 0x0D
  }

  /** How many bytes of the front are not white space. */
  function TokenLength(s: Bytes): (n: nat)
    ensures n <= |s| && (forall i :: 0 <= i < n ==> !White(s[i])) && (n < |s| ==> White(s[n]))
  {
    if s == [] || White(s[0]) then 0 else 1 + TokenLength(s[1..])
  }

  /** Split at runs of white space. */
  function Split(s: Bytes): seq<Bytes>
    decreases |s|
  {
    if s == [] then [] else if White(s[0]) then Split(s[1..]) else [s[..TokenLength(s)]] + Split(s[TokenLength(s)..])
  }

  predicate Digital(s: Bytes) {
    1 <= |s| <= 20 && forall i :: 0 <= i < |s| ==> 48 <= s[i] <= 57
  }

  function Value(s: Bytes): nat
    requires forall i :: 0 <= i < |s| ==> 48 <= s[i] <= 57
  {
    if s == [] then 0 else Value(s[..|s| - 1]) * 10 + (s[|s| - 1] - 48)
  }

  predicate Letter(s: Bytes) {
    |s| == 1 && (65 <= s[0] <= 90 || 97 <= s[0] <= 122)
  }

  // ----- The parser ------------------------------------------------------------------------------------------

  predicate FieldsFit(tail: seq<Bytes>) {
    |tail| >= 20 && Letter(tail[0]) && Digital(tail[1]) && Digital(tail[19]) && Value(tail[19]) != 0
  }

  /** The fields after the command name. */
  function ReadFields(tail: seq<Bytes>): Parsed {
    if FieldsFit(tail) then Observed(tail[19], tail[0][0], Value(tail[1])) else Malformed
  }

  function Prefix(pid: int): Bytes {
    Decimal(pid) + [SPACE, OPEN]
  }

  /** What follows the last closing parenthesis and one more byte, without the final byte. */
  function Rest(raw: Bytes): Bytes {
    var closing := LastIndex(raw, CLOSE);
    if closing + 2 < |raw| then raw[closing + 2..|raw| - 1] else []
  }

  /** The line ends, starts with the identifier, and continues after the command name on the same line. */
  predicate Framed(raw: Bytes, pid: int)
    requires raw != [] && raw[|raw| - 1] == FEED
  {
    var closing := LastIndex(raw, CLOSE);
    Prefix(pid) <= raw && closing >= 3 && raw[closing + 1] == SPACE && FEED !in Rest(raw)
  }

  /** parse_stat() */
  function ParseStat(raw: Bytes, pid: int): Parsed {
    if |raw| > CAP then Oversized
    else if raw == [] then Empty
    else if raw[|raw| - 1] != FEED then Partial
    else if !Framed(raw, pid) then Malformed
    else ReadFields(Split(Rest(raw)))
  }

  // ----- Well-formed lines -------------------------------------------------------------------------------------

  /** The line the kernel writes: the command name is free, the rest is not. */
  function Line(pid: int, command: Bytes, rest: Bytes): Bytes {
    Prefix(pid) + command + [CLOSE, SPACE] + rest + [FEED]
  }

  lemma PrefixHasNoClose(pid: int)
    ensures |Prefix(pid)| >= 3 && CLOSE !in Prefix(pid)
  {
    DigitsRange(if pid < 0 then -pid else pid);
  }

  /** Whatever the command name holds, the last closing parenthesis is the one that ends it. */
  lemma ClosingFound(pid: int, command: Bytes, rest: Bytes)
    requires CLOSE !in rest
    ensures LastIndex(Line(pid, command, rest), CLOSE) == |Prefix(pid)| + |command|
  {
    var raw, n := Line(pid, command, rest), |Prefix(pid)| + |command|;
    assert raw == (Prefix(pid) + command) + ([CLOSE, SPACE] + rest + [FEED]);
    assert raw[n] == CLOSE;
    forall j | n < j < |raw| ensures raw[j] != CLOSE {
      assert raw[j] == ([CLOSE, SPACE] + rest + [FEED])[j - n];
      if 2 <= j - n < 2 + |rest| { assert raw[j] == rest[j - n - 2]; }
    }
  }

  /** Parsing a line depends on the part after the command name alone. */
  lemma ParseLine(pid: int, command: Bytes, rest: Bytes)
    requires CLOSE !in rest
    ensures ParseStat(Line(pid, command, rest), pid) ==
              if |Line(pid, command, rest)| > CAP then Oversized else if FEED in rest then Malformed else ReadFields(Split(rest))
  {
    var raw, n := Line(pid, command, rest), |Prefix(pid)| + |command|;
    PrefixHasNoClose(pid);
    ClosingFound(pid, command, rest);
    assert raw == (Prefix(pid) + command + [CLOSE, SPACE]) + rest + [FEED];
    assert raw[n + 1] == SPACE && raw[|raw| - 1] == FEED;
    assert raw[n + 2..|raw| - 1] == rest;
    assert raw[..|Prefix(pid)|] == Prefix(pid);
  }

  /** The command name as an observed line determines it. */
  function Command(raw: Bytes, pid: int): Bytes {
    var closing := LastIndex(raw, CLOSE);
    if |Prefix(pid)| <= closing then raw[|Prefix(pid)|..closing] else []
  }

  lemma RestHasNoClose(raw: Bytes)
    ensures CLOSE !in Rest(raw)
  {
    var closing := LastIndex(raw, CLOSE);
    if closing + 2 < |raw| {
      forall i | 0 <= i < |Rest(raw)| ensures Rest(raw)[i] != CLOSE { assert Rest(raw)[i] == raw[closing + 2 + i]; }
    }
  }

  /** A framed line goes on after the command name, up to its last byte. */
  lemma FramedRest(raw: Bytes, pid: int)
    requires raw != [] && raw[|raw| - 1] == FEED && Framed(raw, pid)
    ensures Prefix(pid) <= raw && 3 <= LastIndex(raw, CLOSE) && LastIndex(raw, CLOSE) + 2 < |raw|
    ensures raw[LastIndex(raw, CLOSE) + 1] == SPACE && FEED !in Rest(raw)
  {
    assert LastIndex(raw, CLOSE) + 1 != |raw| - 1;
  }

  lemma ReadFieldsFit(tail: seq<Bytes>)
    requires ReadFields(tail).Observed?
    ensures FieldsFit(tail)
  {
  }

  /** An observed outcome comes from the last branch of the parser. */
  lemma ObservedFields(raw: Bytes, pid: int)
    requires ParseStat(raw, pid).Observed?
    ensures raw != [] && |raw| <= CAP && raw[|raw| - 1] == FEED && Framed(raw, pid)
    ensures FieldsFit(Split(Rest(raw))) && ParseStat(raw, pid) == ReadFields(Split(Rest(raw)))
  {
    ReadFieldsFit(Split(Rest(raw)));
  }

  /** An observed line has the well-formed shape, for a command name and a rest that it determines. */
  lemma ObservedLine(raw: Bytes, pid: int)
    requires ParseStat(raw, pid).Observed?
    ensures raw == Line(pid, Command(raw, pid), Rest(raw))
  {
    ObservedFields(raw, pid);
    FramedRest(raw, pid);
    ClosingAfterPrefix(raw, pid);
    Assemble(raw, Prefix(pid), LastIndex(raw, CLOSE));
  }

  lemma ClosingAfterPrefix(raw: Bytes, pid: int)
    requires Prefix(pid) <= raw && LastIndex(raw, CLOSE) >= 0
    ensures LastIndex(raw, CLOSE) >= |Prefix(pid)|
  {
    var closing, prefix := LastIndex(raw, CLOSE), Prefix(pid);
    PrefixHasNoClose(pid);
    assert forall i :: 0 <= i < |prefix| ==> raw[i] == prefix[i] && prefix[i] != CLOSE;
  }

  lemma Assemble(raw: Bytes, prefix: Bytes, closing: nat)
    requires prefix <= raw && |prefix| <= closing && closing + 2 < |raw|
    requires raw[closing] == CLOSE && raw[closing + 1] == SPACE && raw[|raw| - 1] == FEED
    ensures raw == prefix + raw[|prefix|..closing] + [CLOSE, SPACE] + raw[closing + 2..|raw| - 1] + [FEED]
  {
    Reassemble(raw, |prefix|, closing);
    assert raw[..|prefix|] == prefix;
    assert raw[closing..closing + 2] == [CLOSE, SPACE];
  }

  lemma Reassemble(raw: Bytes, a: nat, b: nat)
    requires a <= b && b + 2 < |raw| && raw[|raw| - 1] == FEED
    ensures raw == raw[..a] + raw[a..b] + raw[b..b + 2] + raw[b + 2..|raw| - 1] + [FEED]
  {
    assert raw[..b] == raw[..a] + raw[a..b];
    assert raw[..b + 2] == raw[..b] + raw[b..b + 2];
    assert raw[..|raw| - 1] == raw[..b + 2] + raw[b + 2..|raw| - 1];
    assert raw == raw[..|raw| - 1] + [FEED];
  }

  /** Exactly the well-formed lines within the cap are observed, with exactly their own fields. */
  lemma ObservedExactly(raw: Bytes, pid: int, start: Bytes, state: byte, parent: nat)
    ensures ParseStat(raw, pid) == Observed(start, state, parent) <==>
              exists command, rest :: Describes(raw, pid, command, rest, start, state, parent)
  {
    if ParseStat(raw, pid) == Observed(start, state, parent) {
      ObservedLine(raw, pid);
      ObservedFields(raw, pid);
      RestHasNoClose(raw);
      assert Describes(raw, pid, Command(raw, pid), Rest(raw), start, state, parent);
    }
    if command, rest :| Describes(raw, pid, command, rest, start, state, parent) {
      ParseLine(pid, command, rest);
    }
  }

  /** The line for this command name whose rest has these fields. */
  predicate Describes(raw: Bytes, pid: int, command: Bytes, rest: Bytes, start: Bytes, state: byte, parent: nat) {
    && |raw| <= CAP && raw == Line(pid, command, rest) && CLOSE !in rest && FEED !in rest && FieldsFit(Split(rest))
    && Split(rest)[0] == [state] && Value(Split(rest)[1]) == parent && Split(rest)[19] == start
  }

  // ----- Round trip ------------------------------------------------------------------------------------------------

  predicate Token(s: Bytes) {
    |s| > 0 && forall i :: 0 <= i < |s| ==> !White(s[i]) && s[i] != CLOSE
  }

  function JoinSpaces(tokens: seq<Bytes>): Bytes {
    if tokens == [] then [] else if |tokens| == 1 then tokens[0] else tokens[0] + [SPACE] + JoinSpaces(tokens[1..])
  }

  lemma {:induction false} TokenEnds(token: Bytes, s: Bytes)
    requires (forall i :: 0 <= i < |token| ==> !White(token[i])) && (s == [] || White(s[0]))
    ensures TokenLength(token + s) == |token|
  {
    if token == [] {
      assert token + s == s;
    } else {
      assert (token + s)[1..] == token[1..] + s;
      TokenEnds(token[1..], s);
    }
  }

  lemma {:induction false} SplitJoin(tokens: seq<Bytes>)
    requires forall i :: 0 <= i < |tokens| ==> Token(tokens[i])
    ensures Split(JoinSpaces(tokens)) == tokens
  {
    if tokens == [] {
    } else if |tokens| == 1 {
      TokenEnds(tokens[0], []);
      assert tokens[0] + [] == tokens[0];
      assert Split([]) == [];
    } else {
      SplitJoin(tokens[1..]);
      var rest := [SPACE] + JoinSpaces(tokens[1..]);
      TokenEnds(tokens[0], rest);
      var s := tokens[0] + rest;
      assert JoinSpaces(tokens) == s && s[..|tokens[0]|] == tokens[0] && s[|tokens[0]|..] == rest;
      assert rest[1..] == JoinSpaces(tokens[1..]);
      assert Split(rest) == Split(rest[1..]);
    }
  }

  lemma {:induction false} JoinIsPlain(tokens: seq<Bytes>)
    requires forall i :: 0 <= i < |tokens| ==> Token(tokens[i])
    ensures CLOSE !in JoinSpaces(tokens) && FEED !in JoinSpaces(tokens)
  {
    if |tokens| == 1 {
      assert Token(tokens[0]);
    } else if |tokens| > 1 {
      assert Token(tokens[0]);
      JoinIsPlain(tokens[1..]);
    }
  }

  lemma {:induction false} ValueOfDigits(n: nat)
    ensures var d := Digits(n); (forall i :: 0 <= i < |d| ==> 48 <= d[i] <= 57) && Value(d) == n
  {
    DigitsRange(n);
    if n >= 10 {
      ValueOfDigits(n / 10);
      var d := Digits(n);
      assert d[..|d| - 1] == Digits(n / 10);
    } else {
      assert Digits(n)[..0] == [];
    }
  }

  /**
   * For every command name, a line within the cap gives back exactly its state,
   * parent and start time, the two numbers written in at most twenty digits.
   */
  lemma StatRoundTrip(pid: int, command: Bytes, tokens: seq<Bytes>, parent: nat, start: nat)
    requires |tokens| >= 20 && (forall i :: 0 <= i < |tokens| ==> Token(tokens[i])) && Letter(tokens[0])
    requires tokens[1] == Digits(parent) && |tokens[1]| <= 20
    requires tokens[19] == Digits(start) && |tokens[19]| <= 20 && start != 0
    requires |Line(pid, command, JoinSpaces(tokens))| <= CAP
    ensures ParseStat(Line(pid, command, JoinSpaces(tokens)), pid) == Observed(tokens[19], tokens[0][0], parent)
  {
    SplitJoin(tokens);
    JoinIsPlain(tokens);
    ValueOfDigits(parent);
    ValueOfDigits(start);
    ParseLine(pid, command, JoinSpaces(tokens));
  }
}
