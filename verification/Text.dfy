/**
  The pieces of string handling the modelled code takes from its standard library: line splitting,
  trimming, whitespace fields, joining and ASCII case; and bytes.
 */
module Text {

  newtype byte = x: int | 0 <= x < 256
  type Bytes = seq<byte>

  /** The characters the standard library counts as whitespace (Unicode White_Space). */
  predicate IsWhitespace(c: char) {
    var n := c as int;
    || 9 <= n <= 13 || n == 32 || n == 0x85 || n == 0xA0 || n == 0x1680
    || 0x2000 <= n <= 0x200A || n == 0x2028 || n == 0x2029 || n == 0x202F || n == 0x205F || n == 0x3000
  }

  predicate NoWhitespace(s: string) {
    forall i | 0 <= i < |s| :: !IsWhitespace(s[i])
  }

  function TrimStart(s: string): string {
    if s != "" && IsWhitespace(s[0]) then TrimStart(s[1..]) else s
  }

  function TrimEnd(s: string): string {
    if s != "" && IsWhitespace(s[|s| - 1]) then TrimEnd(s[..|s| - 1]) else s
  }

  function Trim(s: string): string {
    TrimStart(TrimEnd(s))
  }

  /** ASCII lower case of one character. */
  function LowerChar(c: char): char {
    if 'A' <= c <= 'Z' then (c as int + 32) as char else c
  }

  function Lower(s: string): (r: string)
    ensures |r| == |s|
  {
    seq(|s|, i requires 0 <= i < |s| => LowerChar(s[i]))
  }

  /** The same character, or the same letter of the alphabet as capital and small one. */
  predicate SameLetter(c: char, d: char) {
    || c == d
    || ('A' <= c <= 'Z' && d as int == c as int + 32)
    || ('A' <= d <= 'Z' && c as int == d as int + 32)
  }

  predicate SameButCase(s: string, t: string) {
    |s| == |t| && forall i | 0 <= i < |s| :: SameLetter(s[i], t[i])
  }

  /** Equal in lower case is equal but for the case of letters. */
  lemma LowerComparesCase(s: string, t: string)
    ensures Lower(s) == Lower(t) <==> SameButCase(s, t)
  {
    if Lower(s) == Lower(t) {
      forall i | 0 <= i < |s| ensures SameLetter(s[i], t[i]) {
        assert Lower(s)[i] == Lower(t)[i];
      }
    }
  }

  function Join(parts: seq<string>, separator: string): string {
    if parts == [] then ""
    else if |parts| == 1 then parts[0]
    else parts[0] + separator + Join(parts[1..], separator)
  }

  // ---------------------------------------------------------------- decimal numbers

  predicate IsDigit(c: char) {
    '0' <= c <= '9'
  }

  predicate AllDigits(s: string) {
    forall i | 0 <= i < |s| :: IsDigit(s[i])
  }

  function Digits(n: nat): (s: string)
    ensures s != "" && AllDigits(s)
  {
    if n < 10 then [(n + '0' as int) as char] else Digits(n / 10) + [(n % 10 + '0' as int) as char]
  }

  function DecimalValue(s: string): nat
    requires AllDigits(s)
  {
    if s == "" then 0
    else
      assert IsDigit(s[|s| - 1]);
      10 * DecimalValue(s[..|s| - 1]) + (s[|s| - 1] as int - '0' as int)
  }

  lemma {:induction false} DecimalRoundTrip(n: nat)
    ensures DecimalValue(Digits(n)) == n
  {
    if n >= 10 {
      DecimalRoundTrip(n / 10);
      var s := Digits(n);
      assert s[..|s| - 1] == Digits(n / 10);
    } else {
      assert Digits(n)[..0] == "";
    }
  }

  lemma DigitsArePlain(n: nat)
    ensures NoWhitespace(Digits(n)) && ',' !in Digits(n)
  {
  }

  // ---------------------------------------------------------------- lines

  /** The first position of `c`, or the length. */
  function Find(s: string, c: char): (n: nat)
    ensures n <= |s|
    ensures c !in s[..n]
    ensures n < |s| ==> s[n] == c
  {
    if s == "" then 0 else if s[0] == c then 0 else 1 + Find(s[1..], c)
  }

  function StripCr(s: string): string {
    if s != "" && s[|s| - 1] == '\r' then s[..|s| - 1] else s
  }

  /**
    The lines of a text: separated by a newline, a carriage return before the newline dropped, no
    empty line after a final newline.
   */
  function Lines(s: string): seq<string>
    decreases |s|
  {
    if s == "" then []
    else
      var n := Find(s, '\n');
      if n == |s| then [s] else [StripCr(s[..n])] + Lines(s[n + 1..])
  }

  /** Every line written out again with a final newline. */
  function Unlines(lines: seq<string>): string {
    if lines == [] then "" else lines[0] + "\n" + Unlines(lines[1..])
  }

  predicate EndsWithNewline(s: string) {
    s != "" && s[|s| - 1] == '\n'
  }

  /** `s` can be appended to without gluing onto its last line. */
  predicate Closed(s: string) {
    s == "" || EndsWithNewline(s)
  }

  lemma FindUnique(s: string, c: char, n: nat)
    requires n <= |s| && c !in s[..n] && (n < |s| ==> s[n] == c)
    ensures Find(s, c) == n
  {
  }

  lemma ClosedHasNewline(s: string)
    requires EndsWithNewline(s)
    ensures Find(s, '\n') < |s|
  {
    assert s[..|s|] == s;
  }

  /** The first line split off a text that begins with a complete line. */
  lemma LinesCons(line: string, t: string)
    requires '\n' !in line
    ensures Lines(line + "\n" + t) == [StripCr(line)] + Lines(t)
  {
    var s := line + "\n" + t;
    assert s[..|line|] == line && s[|line|] == '\n' && s[|line| + 1..] == t;
    FindUnique(s, '\n', |line|);
  }

  /** A carriage return before the newline belongs to the line's end; only one does. */
  lemma CarriageReturnEndsALine(line: string, t: string)
    requires '\n' !in line
    ensures Lines(line + "\r" + "\n" + t) == [line] + Lines(t)
  {
    var whole := line + "\r";
    assert whole[..|whole| - 1] == line && whole[|whole| - 1] == '\r';
    LinesCons(whole, t);
  }

  /** A line without one is read as it is. */
  lemma OtherEndsStay(line: string, t: string)
    requires '\n' !in line && (line == "" || line[|line| - 1] != '\r')
    ensures Lines(line + "\n" + t) == [line] + Lines(t)
  {
    LinesCons(line, t);
  }

  /** A closed text is a first line, its newline, and a closed rest. */
  lemma FirstLine(s: string) returns (line: string, rest: string)
    requires EndsWithNewline(s)
    ensures s == line + "\n" + rest && '\n' !in line && Closed(rest)
  {
    ClosedHasNewline(s);
    var n := Find(s, '\n');
    line, rest := s[..n], s[n + 1..];
    assert rest != "" ==> rest[|rest| - 1] == s[|s| - 1];
  }

  lemma Assoc<T>(a: seq<T>, b: seq<T>, c: seq<T>)
    ensures a + b + c == a + (b + c)
  {
  }

  lemma LinesConcatStep(line: string, rest: string, t: string)
    requires '\n' !in line && Lines(rest + t) == Lines(rest) + Lines(t)
    ensures Lines(line + "\n" + rest + t) == Lines(line + "\n" + rest) + Lines(t)
  {
    var first := [StripCr(line)];
    calc {
      Lines(line + "\n" + rest + t);
      { Assoc(line + "\n", rest, t); }
      Lines(line + "\n" + (rest + t));
      { LinesCons(line, rest + t); }
      first + Lines(rest + t);
      first + (Lines(rest) + Lines(t));
      { Assoc(first, Lines(rest), Lines(t)); }
      first + Lines(rest) + Lines(t);
      { LinesCons(line, rest); }
      Lines(line + "\n" + rest) + Lines(t);
    }
  }

  lemma {:induction false} LinesConcat(s: string, t: string)
    requires Closed(s)
    ensures Lines(s + t) == Lines(s) + Lines(t)
    decreases |s|
  {
    if s == "" {
      assert s + t == t;
    } else {
      var line, rest := FirstLine(s);
      LinesConcat(rest, t);
      LinesConcatStep(line, rest, t);
    }
  }

  lemma LinesOne(s: string)
    requires '\n' !in s
    ensures Lines(s + "\n") == [StripCr(s)]
    ensures s != "" ==> Lines(s) == [s]
  {
    var t := s + "\n";
    assert t[..|s|] == s && t[|s|] == '\n' && t[|s| + 1..] == "";
    FindUnique(t, '\n', |s|);
    if s != "" {
      assert s[..|s|] == s;
      FindUnique(s, '\n', |s|);
    }
  }

  lemma {:induction false} LinesHoldNoNewline(s: string)
    ensures forall i | 0 <= i < |Lines(s)| :: '\n' !in Lines(s)[i]
    decreases |s|
  {
    if s != "" {
      var n := Find(s, '\n');
      if n < |s| {
        LinesHoldNoNewline(s[n + 1..]);
      } else {
        assert s[..n] == s;
      }
    }
  }

  /** Every line, trimmed at both ends. */
  function TrimmedLines(s: string): (r: seq<string>)
    ensures |r| == |Lines(s)|
    ensures forall i | 0 <= i < |r| :: r[i] == Trim(Lines(s)[i])
  {
    seq(|Lines(s)|, i requires 0 <= i < |Lines(s)| => Trim(Lines(s)[i]))
  }

  function TrimAll(lines: seq<string>): (r: seq<string>)
    ensures |r| == |lines|
    ensures forall i | 0 <= i < |r| :: r[i] == Trim(lines[i])
  {
    seq(|lines|, i requires 0 <= i < |lines| => Trim(lines[i]))
  }

  lemma TrimStripCr(s: string)
    ensures Trim(StripCr(s)) == Trim(s)
  {
  }

  lemma TrimmedLinesConcat(s: string, t: string)
    requires Closed(s)
    ensures TrimmedLines(s + t) == TrimmedLines(s) + TrimmedLines(t)
  {
    LinesConcat(s, t);
  }

  /** Closing an unfinished last line with a newline changes no trimmed line. */
  lemma {:induction false} ClosingKeepsTrimmedLines(s: string)
    requires !Closed(s)
    ensures TrimmedLines(s + "\n") == TrimmedLines(s)
    ensures Closed(s + "\n")
    decreases |s|
  {
    var n := Find(s, '\n');
    if n == |s| {
      assert s[..n] == s;
      LinesOne(s);
      TrimStripCr(s);
    } else {
      var head, rest := s[..n + 1], s[n + 1..];
      assert s == head + rest && s + "\n" == head + (rest + "\n");
      assert rest != "" by {
        assert s[n] == '\n';
      }
      assert rest[|rest| - 1] == s[|s| - 1];
      ClosingKeepsTrimmedLines(rest);
      TrimmedLinesConcat(head, rest);
      TrimmedLinesConcat(head, rest + "\n");
    }
  }

  lemma ClosedConcat(s: string, t: string)
    requires Closed(s) && Closed(t)
    ensures Closed(s + t)
  {
    if t == "" {
      assert s + t == s;
    } else {
      assert (s + t)[|s + t| - 1] == t[|t| - 1];
    }
  }

  /** Writing lines out and splitting again gives the same trimmed lines. */
  lemma {:induction false} TrimmedLinesOfUnlines(lines: seq<string>)
    requires forall i | 0 <= i < |lines| :: '\n' !in lines[i]
    ensures TrimmedLines(Unlines(lines)) == TrimAll(lines)
    ensures Closed(Unlines(lines))
  {
    if lines != [] {
      var head := lines[0] + "\n";
      LinesOne(lines[0]);
      TrimStripCr(lines[0]);
      TrimmedLinesOfUnlines(lines[1..]);
      assert head[|head| - 1] == '\n';
      TrimmedLinesConcat(head, Unlines(lines[1..]));
      ClosedConcat(head, Unlines(lines[1..]));
      assert Unlines(lines) == head + Unlines(lines[1..]);
      assert TrimmedLines(head) == [Trim(lines[0])];
      assert TrimAll(lines) == [Trim(lines[0])] + TrimAll(lines[1..]);
    }
  }

  lemma {:induction false} UnlinesConcat(a: seq<string>, b: seq<string>)
    ensures Unlines(a + b) == Unlines(a) + Unlines(b)
  {
    if a == [] {
      assert a + b == b;
    } else {
      assert (a + b)[1..] == a[1..] + b;
      UnlinesConcat(a[1..], b);
    }
  }

  lemma {:induction false} TrimStartKeepsEnd(s: string)
    requires s == "" || !IsWhitespace(s[|s| - 1])
    ensures TrimStart(s) == "" || !IsWhitespace(TrimStart(s)[|TrimStart(s)| - 1])
    decreases |s|
  {
    if s != "" && IsWhitespace(s[0]) {
      TrimStartKeepsEnd(s[1..]);
    }
  }

  lemma {:induction false} TrimEndStops(s: string)
    ensures TrimEnd(s) == "" || !IsWhitespace(TrimEnd(s)[|TrimEnd(s)| - 1])
    decreases |s|
  {
    if s != "" && IsWhitespace(s[|s| - 1]) {
      TrimEndStops(s[..|s| - 1]);
    }
  }

  lemma {:induction false} TrimStartStops(s: string)
    ensures TrimStart(s) == "" || !IsWhitespace(TrimStart(s)[0])
    decreases |s|
  {
    if s != "" && IsWhitespace(s[0]) {
      TrimStartStops(s[1..]);
    }
  }

  lemma TrimIdempotent(s: string)
    ensures Trim(Trim(s)) == Trim(s)
  {
    TrimEndStops(s);
    TrimStartKeepsEnd(TrimEnd(s));
    TrimStartStops(TrimEnd(s));
  }

  lemma {:induction false} TrimStartHoldsSubset(s: string, c: char)
    requires c !in s
    ensures c !in TrimStart(s)
    decreases |s|
  {
    if s != "" && IsWhitespace(s[0]) {
      TrimStartHoldsSubset(s[1..], c);
    }
  }

  lemma {:induction false} TrimEndHoldsSubset(s: string, c: char)
    requires c !in s
    ensures c !in TrimEnd(s)
    decreases |s|
  {
    if s != "" && IsWhitespace(s[|s| - 1]) {
      TrimEndHoldsSubset(s[..|s| - 1], c);
    }
  }

  lemma TrimHoldsSubset(s: string, c: char)
    requires c !in s
    ensures c !in Trim(s)
  {
    TrimEndHoldsSubset(s, c);
    TrimStartHoldsSubset(TrimEnd(s), c);
  }

  // ---------------------------------------------------------------- whitespace fields

  /** The longest prefix without whitespace. */
  function Word(s: string): (w: string)
    ensures w <= s && NoWhitespace(w)
  {
    if s == "" || IsWhitespace(s[0]) then "" else [s[0]] + Word(s[1..])
  }

  lemma TrimStartShrinks(s: string)
    ensures |TrimStart(s)| <= |s|
  {
  }

  /** The fields of a text between runs of whitespace. */
  function Fields(s: string): (r: seq<string>)
    ensures forall i | 0 <= i < |r| :: r[i] != "" && NoWhitespace(r[i])
    decreases |s|
  {
    TrimStartShrinks(s);
    TrimStartStops(s);
    var t := TrimStart(s);
    if t == "" then [] else [Word(t)] + Fields(t[|Word(t)|..])
  }
}
