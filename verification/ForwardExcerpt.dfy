/**
 * Quoted excerpts of forwarded threads: quoting line by line, and truncation to
 * the longest source prefix whose quoted form with a marker fits a byte budget.
 */
module ForwardExcerpt {
  import opened Prelude
  import opened Encoding

  // ----- Text ---------------------------------------------------------------------------------------------

  /** The characters that end a line at the front of the text: CR LF counts as one end. */
  function BreakAt(s: string): nat {
    if |s| >= 2 && s[0] == '\r' && s[1] == '\n' then 2 else if |s| >= 1 && (s[0] == '\r' || s[0] == '\n') then 1 else 0
  }

  /** The source with every line end written as LF. */
  function Normalize(s: string): string {
    if s == [] then [] else if BreakAt(s) > 0 then ['\n'] + Normalize(s[BreakAt(s)..]) else [s[0]] + Normalize(s[1..])
  }

  function SplitLines(s: string): (lines: seq<string>)
    ensures |lines| > 0
  {
    if s == [] then [[]]
    else if BreakAt(s) > 0 then [[]] + SplitLines(s[BreakAt(s)..])
    else
      var rest := SplitLines(s[1..]);
      [[s[0]] + rest[0]] + rest[1..]
  }

  function Join(lines: seq<string>): string
    requires |lines| > 0
  {
    if |lines| == 1 then lines[0] else lines[0] + ['\n'] + Join(lines[1..])
  }

  function QuoteLine(line: string): string {
    if line == [] then ">" else "> " + line
  }

  function QuoteLines(lines: seq<string>): (quoted: seq<string>)
    ensures |quoted| == |lines| && forall i :: 0 <= i < |lines| ==> quoted[i] == QuoteLine(lines[i])
  {
    if lines == [] then [] else [QuoteLine(lines[0])] + QuoteLines(lines[1..])
  }

  /** _quote_source() */
  function QuoteSource(source: string): string {
    Join(QuoteLines(SplitLines(source)))
  }

  function Encoded(c: char): Bytes {
    if c as int < 0x80 then [c as int] else Utf8(c as int)
  }

  /** The text in UTF-8, section 3 of RFC 3629. */
  function EncodeText(s: string): Bytes {
    if s == [] then [] else Encoded(s[0]) + EncodeText(s[1..])
  }

  function Size(s: string): nat {
    |EncodeText(s)|
  }

  lemma {:induction false} SizeAppend(a: string, b: string)
    ensures Size(a + b) == Size(a) + Size(b)
  {
    if a == [] {
      assert a + b == b;
    } else {
      assert (a + b)[1..] == a[1..] + b;
      SizeAppend(a[1..], b);
    }
  }

  lemma SizeOne(c: char)
    ensures Size([c]) >= 1 && (c as int < 0x80 ==> Size([c]) == 1)
  {
    assert EncodeText([c]) == Encoded(c) + EncodeText([]);
  }

  // ----- Splitting and joining ----------------------------------------------------------------------------------

  predicate OneLine(s: string) {
    forall i :: 0 <= i < |s| ==> s[i] != '\n' && s[i] != '\r'
  }

  predicate NoReturn(s: string) {
    forall i :: 0 <= i < |s| ==> s[i] != '\r'
  }

  lemma {:induction false} SplitIsLines(s: string)
    ensures forall i :: 0 <= i < |SplitLines(s)| ==> OneLine(SplitLines(s)[i])
  {
    if s != [] {
      if BreakAt(s) > 0 { SplitIsLines(s[BreakAt(s)..]); } else { SplitIsLines(s[1..]); }
    }
  }

  /** Joining the lines gives the normalised text. */
  lemma {:induction false} JoinSplit(s: string)
    ensures Join(SplitLines(s)) == Normalize(s)
  {
    if s != [] {
      if BreakAt(s) > 0 {
        JoinSplit(s[BreakAt(s)..]);
        assert SplitLines(s)[1..] == SplitLines(s[BreakAt(s)..]);
      } else {
        var rest := SplitLines(s[1..]);
        JoinSplit(s[1..]);
        assert SplitLines(s)[1..] == rest[1..];
        if |rest| > 1 {
          assert SplitLines(s)[0] + ['\n'] + Join(rest[1..]) == [s[0]] + (rest[0] + ['\n'] + Join(rest[1..]));
        }
      }
    }
  }

  lemma {:induction false} NormalizeHasNoReturn(s: string)
    ensures NoReturn(Normalize(s))
  {
    if s != [] {
      if BreakAt(s) > 0 { NormalizeHasNoReturn(s[BreakAt(s)..]); } else { NormalizeHasNoReturn(s[1..]); }
    }
  }

  lemma {:induction false} NormalizeFixed(s: string)
    requires NoReturn(s)
    ensures Normalize(s) == s
  {
    if s != [] { NormalizeFixed(s[1..]); }
  }

  /** Normalising first does not change the lines. */
  lemma {:induction false} SplitNormalized(s: string)
    ensures SplitLines(Normalize(s)) == SplitLines(s)
  {
    if s != [] {
      if BreakAt(s) > 0 {
        SplitNormalized(s[BreakAt(s)..]);
        assert Normalize(s)[1..] == Normalize(s[BreakAt(s)..]);
      } else {
        SplitNormalized(s[1..]);
        assert Normalize(s)[1..] == Normalize(s[1..]);
      }
    }
  }

  /** A line feed after text without returns starts a new line. */
  lemma {:induction false} SplitAtFeed(p: string, r: string)
    requires NoReturn(p)
    ensures SplitLines(p + ['\n'] + r) == SplitLines(p) + SplitLines(r)
  {
    var s := p + ['\n'] + r;
    if p == [] {
      assert BreakAt(s) == 1 && s[1..] == r;
    } else {
      assert s[1..] == p[1..] + ['\n'] + r && s[0] == p[0];
      SplitAtFeed(p[1..], r);
    }
  }

  /** The lines with a character added to the last one. */
  function ExtendLast(lines: seq<string>, c: char): seq<string>
    requires |lines| > 0
  {
    if |lines| == 1 then [lines[0] + [c]] else [lines[0]] + ExtendLast(lines[1..], c)
  }

  /** Any character that ends no line extends the last one. */
  lemma {:induction false} SplitSnoc(p: string, c: char)
    requires NoReturn(p) && c != '\n' && c != '\r'
    ensures SplitLines(p + [c]) == ExtendLast(SplitLines(p), c)
  {
    var s := p + [c];
    if p == [] {
      assert s == [c] && s[1..] == [] && BreakAt(s) == 0;
      var rest := SplitLines(s[1..]);
      assert rest == [[]] && [c] + rest[0] == [c] && SplitLines(s) == [[c] + rest[0]] + rest[1..];
      assert SplitLines(p) == [[]] && ExtendLast([[]], c) == [[c]] by { assert [] + [c] == [c]; }
    } else {
      assert s[1..] == p[1..] + [c] && s[0] == p[0];
      SplitSnoc(p[1..], c);
      var lines, rest := SplitLines(p), SplitLines(p[1..]);
      if p[0] == '\n' {
        assert lines[1..] == rest;
      } else {
        ExtendFirst(rest, p[0], c);
      }
    }
  }

  /** Adding to the front of the first line and to the end of the last one commute. */
  lemma ExtendFirst(rest: seq<string>, first: char, c: char)
    requires |rest| > 0
    ensures var longer := ExtendLast(rest, c);
            |longer| == |rest| && ExtendLast([[first] + rest[0]] + rest[1..], c) == [[first] + longer[0]] + longer[1..]
  {
    ExtendLength(rest, c);
    var lines := [[first] + rest[0]] + rest[1..];
    if |rest| == 1 {
      assert [first] + (rest[0] + [c]) == ([first] + rest[0]) + [c];
    } else {
      assert lines[1..] == rest[1..];
    }
  }

  lemma {:induction false} ExtendLength(lines: seq<string>, c: char)
    requires |lines| > 0
    ensures |ExtendLast(lines, c)| == |lines|
  {
    if |lines| > 1 { ExtendLength(lines[1..], c); }
  }

  // ----- Byte cost -------------------------------------------------------------------------------------------------

  /** The bytes of quoted lines, one line feed before each but the first. */
  function LinesSize(lines: seq<string>): nat {
    if lines == [] then 0 else Size(QuoteLine(lines[0])) + 1 + LinesSize(lines[1..])
  }

  lemma {:induction false} LinesSizeAppend(a: seq<string>, b: seq<string>)
    ensures LinesSize(a + b) == LinesSize(a) + LinesSize(b)
  {
    if a == [] {
      assert a + b == b;
    } else {
      assert (a + b)[1..] == a[1..] + b;
      LinesSizeAppend(a[1..], b);
    }
  }

  lemma {:induction false} JoinSize(lines: seq<string>)
    requires |lines| > 0
    ensures Size(Join(QuoteLines(lines))) + 1 == LinesSize(lines)
  {
    var quoted := QuoteLines(lines);
    if |lines| == 1 {
      assert lines[1..] == [];
    } else {
      JoinSize(lines[1..]);
      assert quoted[1..] == QuoteLines(lines[1..]);
      SizeAppend(quoted[0] + ['\n'], Join(quoted[1..]));
      SizeAppend(quoted[0], ['\n']);
      SizeOne('\n');
    }
  }

  lemma QuoteSize(s: string)
    ensures Size(QuoteSource(s)) + 1 == LinesSize(SplitLines(s))
  {
    JoinSize(SplitLines(s));
  }

  lemma QuoteLineGrows(line: string, c: char)
    ensures Size(QuoteLine(line + [c])) > Size(QuoteLine(line))
  {
    SizeOne(c);
    if line == [] {
      assert line + [c] == [c];
      assert "> " + [c] == ">" + [' '] + [c];
      SizeAppend(">" + [' '], [c]);
      SizeAppend(">", [' ']);
    } else {
      assert "> " + (line + [c]) == ("> " + line) + [c];
      SizeAppend("> " + line, [c]);
    }
  }

  /** One more character makes the quoted text strictly longer. */
  lemma QuoteGrows(p: string, c: char)
    requires NoReturn(p) && c != '\r'
    ensures Size(QuoteSource(p + [c])) > Size(QuoteSource(p))
  {
    QuoteSize(p);
    QuoteSize(p + [c]);
    var lines := SplitLines(p);
    if c == '\n' {
      SplitAtFeed(p, []);
      assert p + ['\n'] + [] == p + [c];
      EmptyLineGrows(lines);
    } else {
      SplitSnoc(p, c);
      LastLineGrows(lines, c);
    }
  }

  lemma EmptyLineGrows(lines: seq<string>)
    ensures LinesSize(lines + SplitLines([])) > LinesSize(lines)
  {
    LinesSizeAppend(lines, SplitLines([]));
    LinesSizeOne([]);
  }

  lemma {:induction false} LastLineGrows(lines: seq<string>, c: char)
    requires |lines| > 0
    ensures LinesSize(ExtendLast(lines, c)) > LinesSize(lines)
  {
    if |lines| == 1 {
      assert lines == [lines[0]];
      QuoteLineGrows(lines[0], c);
      LinesSizeOne(lines[0]);
      LinesSizeOne(lines[0] + [c]);
    } else {
      LastLineGrows(lines[1..], c);
      assert ExtendLast(lines, c)[1..] == ExtendLast(lines[1..], c);
    }
  }

  lemma LinesSizeOne(line: string)
    ensures LinesSize([line]) == Size(QuoteLine(line)) + 1
  {
    assert [line][1..] == [];
  }

  const NOTICE: string := "(... source truncated)"
  const MARKER: string := "\n\n" + NOTICE

  lemma MarkerParts()
    ensures MARKER == ['\n'] + MARKER[1..] && NoReturn(MARKER)
  {
  }

  /** The bytes of the excerpt that keeps the first k characters. */
  function Cost(source: string, k: nat): nat
    requires k <= |source|
  {
    Size(QuoteSource(source[..k] + MARKER))
  }

  /** The marker adds a fixed cost to the quoted prefix. */
  lemma CostIsPrefixPlusMarker(source: string, k: nat)
    requires k <= |source| && NoReturn(source)
    ensures Cost(source, k) == Size(QuoteSource(source[..k])) + LinesSize(SplitLines(MARKER[1..]))
  {
    var p := source[..k];
    MarkerParts();
    assert p + MARKER == p + ['\n'] + MARKER[1..];
    SplitAtFeed(p, MARKER[1..]);
    LinesSizeAppend(SplitLines(p), SplitLines(MARKER[1..]));
    QuoteSize(p);
    QuoteSize(p + MARKER);
  }

  /** The byte cost strictly increases with the length of the kept prefix. */
  lemma {:induction false} CostIncreases(source: string, j: nat, k: nat)
    requires j < k <= |source| && NoReturn(source)
    ensures Cost(source, j) < Cost(source, k)
    decreases k
  {
    assert source[..k] == source[..k - 1] + [source[k - 1]];
    QuoteGrows(source[..k - 1], source[k - 1]);
    CostIsPrefixPlusMarker(source, k - 1);
    CostIsPrefixPlusMarker(source, k);
    if j < k - 1 { CostIncreases(source, j, k - 1); }
  }

  // ----- Unquoting ----------------------------------------------------------------------------------------------------

  /** Split at line feeds only. */
  function SplitFeeds(s: string): (lines: seq<string>)
    ensures |lines| > 0
  {
    if s == [] then [[]]
    else if s[0] == '\n' then [[]] + SplitFeeds(s[1..])
    else
      var rest := SplitFeeds(s[1..]);
      [[s[0]] + rest[0]] + rest[1..]
  }

  function UnquoteLine(line: string): string {
    if |line| >= 2 && line[..2] == "> " then line[2..] else if line == ">" then [] else line
  }

  function UnquoteLines(lines: seq<string>): (plain: seq<string>)
    ensures |plain| == |lines| && forall i :: 0 <= i < |lines| ==> plain[i] == UnquoteLine(lines[i])
  {
    if lines == [] then [] else [UnquoteLine(lines[0])] + UnquoteLines(lines[1..])
  }

  /** What a reader of the excerpt gets back. */
  function Unquote(text: string): string {
    Join(UnquoteLines(SplitFeeds(text)))
  }

  predicate NoFeed(s: string) {
    forall i :: 0 <= i < |s| ==> s[i] != '\n'
  }

  lemma {:induction false} SplitFeedsOne(line: string)
    requires NoFeed(line)
    ensures SplitFeeds(line) == [line]
  {
    if line != [] {
      SplitFeedsOne(line[1..]);
      assert [line[0]] + line[1..] == line;
    }
  }

  lemma {:induction false} SplitFeedsLine(line: string, r: string)
    requires NoFeed(line)
    ensures SplitFeeds(line + ['\n'] + r) == [line] + SplitFeeds(r)
  {
    var s := line + ['\n'] + r;
    if line == [] {
      assert s[1..] == r;
    } else {
      assert s[1..] == line[1..] + ['\n'] + r && s[0] == line[0];
      SplitFeedsLine(line[1..], r);
      var rest := SplitFeeds(s[1..]);
      assert rest[0] == line[1..] && rest[1..] == SplitFeeds(r);
      assert [line[0]] + line[1..] == line;
    }
  }

  lemma {:induction false} SplitFeedsJoin(lines: seq<string>)
    requires |lines| > 0 && forall i :: 0 <= i < |lines| ==> NoFeed(lines[i])
    ensures SplitFeeds(Join(lines)) == lines
  {
    if |lines| == 1 {
      SplitFeedsOne(lines[0]);
    } else {
      SplitFeedsJoin(lines[1..]);
      SplitFeedsLine(lines[0], Join(lines[1..]));
    }
  }

  /** Unquoting recovers exactly the normalised source. */
  lemma UnquoteQuote(source: string)
    ensures Unquote(QuoteSource(source)) == Normalize(source)
  {
    var lines := SplitLines(source);
    var quoted := QuoteLines(lines);
    SplitIsLines(source);
    forall i | 0 <= i < |quoted| ensures NoFeed(quoted[i]) {
      assert OneLine(lines[i]);
    }
    SplitFeedsJoin(quoted);
    forall i | 0 <= i < |lines| ensures UnquoteLine(quoted[i]) == lines[i] {
      if lines[i] != [] { assert quoted[i][..2] == "> " && quoted[i][2..] == lines[i]; }
    }
    assert UnquoteLines(quoted) == lines;
    JoinSplit(source);
  }

  // ----- Truncation -------------------------------------------------------------------------------------------------

  /** The longest prefix that fits with the marker, or none of the source when even the bare marker does not fit. */
  predicate Longest(source: string, limit: int, k: nat) {
    && k <= |source| && (Cost(source, k) <= limit || k == 0)
    && forall j :: k < j <= |source| ==> Cost(source, j) > limit
  }

  lemma {:induction false} AsciiSize(s: string)
    requires Ascii(s)
    ensures Size(s) == |s|
  {
    if s != [] { AsciiSize(s[1..]); }
  }

  predicate Ascii(s: string) {
    forall i :: 0 <= i < |s| ==> s[i] as int < 0x80
  }

  /** Two empty lines and one plain line. */
  lemma NoticeSize(notice: string)
    requires OneLine(notice) && Ascii(notice) && notice != []
    ensures Size(QuoteSource(['\n'] + ['\n'] + notice)) == |notice| + 6
  {
    var text := ['\n'] + ['\n'] + notice;
    assert text == [] + ['\n'] + (['\n'] + notice);
    assert ['\n'] + notice == [] + ['\n'] + notice;
    SplitAtFeed([], ['\n'] + notice);
    SplitAtFeed([], notice);
    SplitOneLine(notice);
    assert SplitLines([]) == [[]];
    LinesSizeAppend([[]], [[]] + [notice]);
    LinesSizeAppend([[]], [notice]);
    LinesSizeOne([]);
    LinesSizeOne(notice);
    AsciiSize(QuoteLine([]));
    AsciiSize(QuoteLine(notice));
    QuoteSize(text);
  }

  /** The smallest excerpt that ends with the marker takes 28 bytes. */
  lemma MarkerSize()
    ensures Size(QuoteSource(MARKER)) == 28
  {
    assert MARKER == ['\n'] + ['\n'] + NOTICE && |NOTICE| == 22;
    NoticeSize(NOTICE);
  }

  lemma {:induction false} SplitOneLine(line: string)
    requires OneLine(line)
    ensures SplitLines(line) == [line]
  {
    if line != [] {
      SplitOneLine(line[1..]);
      assert [line[0]] + line[1..] == line;
    }
  }

  /** A prefix search keeps within the limit exactly when the bare marker does. */
  lemma FitsExactly(source: string, limit: int, k: nat)
    requires NoReturn(source) && Longest(source, limit, k)
    ensures Cost(source, k) <= limit <==> limit >= 28
  {
    assert source[..0] + MARKER == MARKER;
    MarkerSize();
    if k > 0 { CostIncreases(source, 0, k); }
  }

  /** _truncate(): the whole quoted source if it fits, else a binary search for the longest prefix. */
  method Truncate(s: string, limit: int) returns (excerpt: string, ghost kept: nat)
    ensures Size(QuoteSource(s)) <= limit ==> excerpt == QuoteSource(s)
    ensures Size(QuoteSource(s)) > limit ==> && Longest(Normalize(s), limit, kept)
                                             && excerpt == QuoteSource(Normalize(s)[..kept] + MARKER)
    ensures Size(excerpt) <= limit <==> Size(QuoteSource(s)) <= limit || limit >= 28
  {
    var source := Normalize(s);
    NormalizeHasNoReturn(s);
    SplitNormalized(s);
    kept := 0;
    var quoted := QuoteSource(source);
    if Size(quoted) <= limit { return quoted, kept; }
    var low, high := 0, |source|;
    while low < high
      invariant 0 <= low <= high <= |source|
      invariant low == 0 || Cost(source, low) <= limit
      invariant forall j :: high < j <= |source| ==> Cost(source, j) > limit
    {
      var mid := (low + high + 1) / 2;
      if Cost(source, mid) <= limit {
        low := mid;
      } else {
        forall j | mid <= j <= |source| ensures Cost(source, j) > limit {
          if mid < j { CostIncreases(source, mid, j); }
        }
        high := mid - 1;
      }
    }
    kept := low;
    FitsExactly(source, limit, low);
    excerpt := QuoteSource(source[..low] + MARKER);
  }

  /** A truncated excerpt unquotes to the kept prefix followed by the marker. */
  lemma UnquoteTruncated(s: string, k: nat)
    requires k <= |Normalize(s)|
    ensures Unquote(QuoteSource(Normalize(s)[..k] + MARKER)) == Normalize(s)[..k] + MARKER
  {
    NormalizeHasNoReturn(s);
    MarkerParts();
    UnquoteQuote(Normalize(s)[..k] + MARKER);
    NormalizeFixed(Normalize(s)[..k] + MARKER);
  }
}
