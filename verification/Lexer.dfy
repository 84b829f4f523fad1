/**
  The ssh_config tokenizer (crates/core-store/src/ssh_config/lex.rs): one line into fields, a text into
  numbered directives, and the sense in which tokenizing undoes printing.
 */
module Lexer {
  import opened Options
  import opened Text

  datatype Directive = Directive(line: nat, keyword: string, args: seq<string>)

  /** Where the scan of a line stands. `done` is set by a comment, which ends the line. */
  datatype Scan = Scan(out: seq<string>, current: string, inQuotes: bool, separatorUsed: bool, done: bool)

  const FRESH := Scan([], "", false, false, false)

  function Step(s: Scan, ch: char): Scan {
    if s.done then s
    else if ch == '"' then
      if s.inQuotes && s.current == "" then s.(inQuotes := false, out := s.out + [""], separatorUsed := true)
      else s.(inQuotes := !s.inQuotes)
    else if ch == '#' && !s.inQuotes then s.(done := true)
    else if ch == '=' && !s.inQuotes && !s.separatorUsed && |s.out| == 1 && s.current == "" then
      s.(separatorUsed := true)
    else if ch == '=' && !s.inQuotes && !s.separatorUsed && s.out == [] && s.current != "" then
      s.(out := [s.current], current := "", separatorUsed := true)
    else if IsWhitespace(ch) && !s.inQuotes then
      if s.current == "" then s else s.(out := s.out + [s.current], current := "")
    else s.(current := s.current + [ch])
  }

  /** The scan after the first `n` characters. */
  function ScanUpTo(s: Scan, raw: string, n: nat): Scan
    requires n <= |raw|
  {
    if n == 0 then s else Step(ScanUpTo(s, raw, n - 1), raw[n - 1])
  }

  function ScanAll(s: Scan, raw: string): Scan {
    ScanUpTo(s, raw, |raw|)
  }

  function Flushed(s: Scan): seq<string> {
    if s.current == "" then s.out else s.out + [s.current]
  }

  function FieldsOf(raw: string): seq<string> {
    Flushed(ScanAll(FRESH, raw))
  }

  /**
    The fields of one line. A pair of quotes holds blanks, comment signs and `=` together, the first `=`
    after the keyword is a separator like a blank, and a comment sign outside quotes ends the line.
   */
  method SplitFields(raw: string) returns (out: seq<string>)
    ensures out == FieldsOf(raw)
  {
    out := [];
    var current := "";
    var inQuotes := false;
    var separatorUsed := false;
    var i := 0;
    while i < |raw|
      invariant 0 <= i <= |raw|
      invariant Scan(out, current, inQuotes, separatorUsed, false) == ScanUpTo(FRESH, raw, i)
    {
      var ch := raw[i];
      if ch == '"' {
        inQuotes := !inQuotes;
        if !inQuotes && current == "" {
          out := out + [""];
          separatorUsed := true;
        }
      } else if ch == '#' && !inQuotes {
        CommentEnds(raw, i);
        break;
      } else if ch == '=' && !inQuotes && !separatorUsed && |out| == 1 && current == "" {
        separatorUsed := true;
      } else if ch == '=' && !inQuotes && !separatorUsed && out == [] && current != "" {
        out := out + [current];
        current := "";
        separatorUsed := true;
      } else if IsWhitespace(ch) && !inQuotes {
        if current != "" {
          out := out + [current];
          current := "";
        }
      } else {
        current := current + [ch];
      }
      i := i + 1;
    }
    if current != "" {
      out := out + [current];
    }
  }

  lemma {:induction false} DoneStays(s: Scan, raw: string, i: nat, n: nat)
    requires i <= n <= |raw| && ScanUpTo(s, raw, i).done
    ensures ScanUpTo(s, raw, n) == ScanUpTo(s, raw, i)
  {
    if i < n {
      DoneStays(s, raw, i, n - 1);
    }
  }

  lemma CommentEnds(raw: string, i: nat)
    requires i < |raw| && raw[i] == '#'
    requires !ScanUpTo(FRESH, raw, i).inQuotes && !ScanUpTo(FRESH, raw, i).done
    ensures ScanAll(FRESH, raw) == ScanUpTo(FRESH, raw, i).(done := true)
  {
    assert ScanUpTo(FRESH, raw, i + 1) == ScanUpTo(FRESH, raw, i).(done := true);
    DoneStays(FRESH, raw, i + 1, |raw|);
  }

  function TokenizeLine(raw: string): Option<(string, seq<string>)> {
    var fields := FieldsOf(raw);
    if fields == [] || fields[0] == "" then None else Some((Lower(fields[0]), fields[1..]))
  }

  /** The directives on the lines from index `n` on. */
  function TokenizeFrom(lines: seq<string>, n: nat): seq<Directive>
    requires n <= |lines|
    decreases |lines| - n
  {
    if n == |lines| then []
    else
      (match TokenizeLine(lines[n])
       case None => []
       case Some((keyword, args)) => [Directive(n + 1, keyword, args)])
      + TokenizeFrom(lines, n + 1)
  }

  function Tokenize(input: string): seq<Directive> {
    TokenizeFrom(Lines(input), 0)
  }

  // ---------------------------------------------------------------- scanning in pieces

  lemma {:induction false} ScanPrefix(s: Scan, a: string, b: string, n: nat)
    requires n <= |a|
    ensures ScanUpTo(s, a + b, n) == ScanUpTo(s, a, n)
  {
    if n > 0 {
      ScanPrefix(s, a, b, n - 1);
    }
  }

  lemma {:induction false} ScanConcat(s: Scan, a: string, b: string, n: nat)
    requires n <= |b|
    ensures ScanUpTo(s, a + b, |a| + n) == ScanUpTo(ScanAll(s, a), b, n)
  {
    if n == 0 {
      ScanPrefix(s, a, b, |a|);
    } else {
      ScanConcat(s, a, b, n - 1);
      assert (a + b)[|a| + n - 1] == b[n - 1];
    }
  }

  lemma ScanAllConcat(s: Scan, a: string, b: string)
    ensures ScanAll(s, a + b) == ScanAll(ScanAll(s, a), b)
  {
    ScanConcat(s, a, b, |b|);
    assert |a + b| == |a| + |b|;
  }

  /** A word no character of which is special outside quotes, `=` apart. */
  predicate Plain(w: string) {
    forall i | 0 <= i < |w| :: w[i] != '"' && w[i] != '#' && !IsWhitespace(w[i])
  }

  /** Outside quotes, plain characters gather in `current` as long as no `=` can separate. */
  lemma {:induction false} ScanPlain(s: Scan, w: string, n: nat)
    requires !s.done && !s.inQuotes && n <= |w| && Plain(w)
    requires '=' !in w || s.separatorUsed || |s.out| >= 2 || (|s.out| == 1 && (s.current != "" || w[0] != '='))
    ensures ScanUpTo(s, w, n) == s.(current := s.current + w[..n])
  {
    if n > 0 {
      ScanPlain(s, w, n - 1);
      assert w[..n] == w[..n - 1] + [w[n - 1]];
      assert w[n - 1] == '=' ==> '=' in w;
      if n == 1 {
        assert w[..0] == "";
      }
    } else {
      assert s.current + w[..0] == s.current;
    }
  }

  /** Inside quotes every character but the quote gathers. */
  lemma {:induction false} ScanQuoted(s: Scan, w: string, n: nat)
    requires !s.done && s.inQuotes && n <= |w| && '"' !in w
    ensures ScanUpTo(s, w, n) == s.(current := s.current + w[..n])
  {
    if n > 0 {
      ScanQuoted(s, w, n - 1);
      assert w[..n] == w[..n - 1] + [w[n - 1]];
      assert w[n - 1] in w;
    } else {
      assert s.current + w[..0] == s.current;
    }
  }

  lemma ScanPlainAll(s: Scan, w: string)
    requires !s.done && !s.inQuotes && Plain(w)
    requires '=' !in w || s.separatorUsed || |s.out| >= 2 || (|s.out| == 1 && (s.current != "" || w[0] != '='))
    ensures ScanAll(s, w) == s.(current := s.current + w)
  {
    ScanPlain(s, w, |w|);
    assert w[..|w|] == w;
  }

  lemma ScanOne(s: Scan, ch: char)
    ensures ScanAll(s, [ch]) == Step(s, ch)
  {
    assert ScanUpTo(s, [ch], 1) == Step(ScanUpTo(s, [ch], 0), [ch][0]);
  }

  // ---------------------------------------------------------------- lines without a directive

  /** With a word begun, or a first field that is not empty, the first field of the line is not empty. */
  predicate Begun(s: Scan) {
    if s.out == [] then s.current != "" else s.out[0] != ""
  }

  lemma {:induction false} BegunStays(s: Scan, raw: string, n: nat)
    requires Begun(s) && n <= |raw|
    ensures Begun(ScanUpTo(s, raw, n))
  {
    if n > 0 {
      BegunStays(s, raw, n - 1);
    }
  }

  /** An empty first field stays the first field, whatever follows it. */
  lemma {:induction false} EmptyFirstStays(s: Scan, raw: string, n: nat)
    requires s.out != [] && s.out[0] == "" && n <= |raw|
    ensures ScanUpTo(s, raw, n).out != [] && ScanUpTo(s, raw, n).out[0] == ""
  {
    if n > 0 {
      EmptyFirstStays(s, raw, n - 1);
    }
  }

  lemma {:induction false} BlanksSkipped(raw: string)
    ensures FieldsOf(raw) == FieldsOf(TrimStart(raw))
  {
    if raw != "" && IsWhitespace(raw[0]) {
      assert raw == [raw[0]] + raw[1..];
      ScanAllConcat(FRESH, [raw[0]], raw[1..]);
      ScanOne(FRESH, raw[0]);
      BlanksSkipped(raw[1..]);
    }
  }

  /**
    What a line is when it is no directive: blank, a comment, a single quote sign with nothing after it, or
    anything at all that begins with an empty pair of quotes.
   */
  predicate NoDirective(line: string) {
    || line == ""
    || line[0] == '#'
    || line == "\""
    || (|line| >= 2 && line[0] == '"' && line[1] == '"')
  }

  lemma StartsNone(line: string)
    requires NoDirective(line)
    ensures FieldsOf(line) == [] || FieldsOf(line)[0] == ""
  {
    if line != "" {
      assert line == [line[0]] + line[1..];
      ScanAllConcat(FRESH, [line[0]], line[1..]);
      ScanOne(FRESH, line[0]);
      if line[0] == '#' {
        DoneStays(FRESH.(done := true), line[1..], 0, |line[1..]|);
      } else if |line| >= 2 {
        var quoted := FRESH.(inQuotes := true);
        assert line[1..] == [line[1]] + line[2..];
        ScanAllConcat(quoted, [line[1]], line[2..]);
        ScanOne(quoted, line[1]);
        var closed := Scan([""], "", false, true, false);
        assert ScanAll(quoted, [line[1]]) == closed;
        EmptyFirstStays(closed, line[2..], |line[2..]|);
        assert ScanAll(FRESH, line) == ScanAll(closed, line[2..]);
      } else {
        assert line[1..] == "";
      }
    }
  }

  lemma StartsSome(line: string)
    requires !NoDirective(line) && !IsWhitespace(line[0])
    ensures FieldsOf(line) != [] && FieldsOf(line)[0] != ""
  {
    var head := if line[0] == '"' then line[..2] else line[..1];
    var tail := line[|head|..];
    assert line == head + tail;
    ScanAllConcat(FRESH, head, tail);
    ScanOne(FRESH, line[0]);
    if line[0] == '"' {
      assert head == [line[0]] + [line[1]];
      ScanAllConcat(FRESH, [line[0]], [line[1]]);
      ScanOne(FRESH.(inQuotes := true), line[1]);
    } else {
      assert head == [line[0]];
    }
    BegunStays(ScanAll(FRESH, head), tail, |tail|);
  }

  lemma {:induction false} TrimStartBegins(s: string)
    ensures TrimStart(s) != "" ==> !IsWhitespace(TrimStart(s)[0])
  {
    if s != "" && IsWhitespace(s[0]) {
      TrimStartBegins(s[1..]);
    }
  }

  /** A line is dropped by the tokenizer exactly when it is one of these, blanks in front aside. */
  lemma DroppedExactly(raw: string)
    ensures TokenizeLine(raw).None? <==> NoDirective(TrimStart(raw))
  {
    BlanksSkipped(raw);
    TrimStartBegins(raw);
    var line := TrimStart(raw);
    if NoDirective(line) {
      StartsNone(line);
    } else {
      StartsSome(line);
    }
  }

  /** A keyword in an empty pair of quotes takes its whole line with it. */
  lemma EmptyKeywordVanishes()
    ensures TokenizeLine("\"\" x") == None
  {
    DroppedExactly("\"\" x");
  }

  // ---------------------------------------------------------------- the three ways to separate

  /** A keyword as users write it: a nonempty plain word without `=`. */
  predicate PlainKeyword(k: string) {
    k != "" && Plain(k) && '=' !in k
  }

  lemma ScanKeyword(k: string)
    requires PlainKeyword(k)
    ensures ScanAll(FRESH, k) == FRESH.(current := k)
  {
    ScanPlainAll(FRESH, k);
    assert "" + k == k;
  }

  lemma KeywordThenSpace(k: string)
    requires PlainKeyword(k)
    ensures ScanAll(FRESH, k + " ") == Scan([k], "", false, false, false)
  {
    ScanKeyword(k);
    ScanAllConcat(FRESH, k, " ");
    ScanOne(FRESH.(current := k), ' ');
    assert [] + [k] == [k];
  }

  /** After the blank, a value that begins with `=` loses it to the separator. */
  lemma BySpace(k: string, v: string)
    requires PlainKeyword(k) && Plain(v) && (v == "" || v[0] != '=')
    ensures FieldsOf(k + " " + v) == [k] + (if v == "" then [] else [v])
  {
    KeywordThenSpace(k);
    ScanAllConcat(FRESH, k + " ", v);
    ScanPlainAll(Scan([k], "", false, false, false), v);
    assert "" + v == v;
  }

  lemma BySpaceLosingEquals(k: string, v: string)
    requires PlainKeyword(k) && Plain(v) && v != "" && v[0] == '='
    ensures FieldsOf(k + " " + v) == [k] + (if v[1..] == "" then [] else [v[1..]])
  {
    var afterSpace := Scan([k], "", false, false, false);
    KeywordThenSpace(k);
    ScanAllConcat(FRESH, k + " ", v);
    assert v == "=" + v[1..];
    ScanAllConcat(afterSpace, "=", v[1..]);
    ScanOne(afterSpace, '=');
    ScanPlainAll(afterSpace.(separatorUsed := true), v[1..]);
    assert "" + v[1..] == v[1..];
  }

  lemma ByEquals(k: string, v: string)
    requires PlainKeyword(k) && Plain(v)
    ensures FieldsOf(k + "=" + v) == [k] + (if v == "" then [] else [v])
  {
    var afterSeparator := Scan([k], "", false, true, false);
    ScanKeyword(k);
    ScanAllConcat(FRESH, k, "=");
    ScanOne(ScanAll(FRESH, k), '=');
    assert ScanAll(FRESH, k + "=") == afterSeparator;
    ScanAllConcat(FRESH, k + "=", v);
    ScanPlainAll(afterSeparator, v);
    assert "" + v == v;
  }

  lemma BySpacedEquals(k: string, v: string)
    requires PlainKeyword(k) && Plain(v)
    ensures FieldsOf(k + " = " + v) == [k] + (if v == "" then [] else [v])
  {
    var afterSeparator := Scan([k], "", false, true, false);
    ScanKeyword(k);
    ScanAllConcat(FRESH, k, " = ");
    var s := FRESH.(current := k);
    ScanAllConcat(s, " ", "= ");
    ScanOne(s, ' ');
    assert [] + [k] == [k];
    var t := Scan([k], "", false, false, false);
    ScanAllConcat(t, "=", " ");
    ScanOne(t, '=');
    ScanOne(afterSeparator, ' ');
    assert " = " == " " + "= " && "= " == "=" + " ";
    assert ScanAll(FRESH, k + " = ") == afterSeparator;
    ScanAllConcat(FRESH, k + " = ", v);
    ScanPlainAll(afterSeparator, v);
    assert "" + v == v;
  }

  /**
    `K=v` and `K = v` always read alike; `K v` reads like them exactly when the value does not begin
    with `=`, because the first `=` after a keyword is taken as the separator.
   */
  lemma SeparatorsAgree(k: string, v: string)
    requires PlainKeyword(k) && Plain(v)
    ensures FieldsOf(k + "=" + v) == FieldsOf(k + " = " + v)
    ensures FieldsOf(k + " " + v) == FieldsOf(k + "=" + v) <==> v == "" || v[0] != '='
  {
    ByEquals(k, v);
    BySpacedEquals(k, v);
    if v == "" || v[0] != '=' {
      BySpace(k, v);
    } else {
      BySpaceLosingEquals(k, v);
      assert ([k] + [v])[1] == v;
      assert v[1..] != "" ==> ([k] + [v[1..]])[1] == v[1..] && |v[1..]| != |v|;
    }
  }

  /** Whatever follows a `#` outside quotes leaves no trace. */
  lemma CommentIsIgnored(text: string, comment: string)
    requires !ScanAll(FRESH, text).inQuotes
    ensures FieldsOf(text + "#" + comment) == FieldsOf(text)
  {
    var s := ScanAll(FRESH, text);
    ScanAllConcat(FRESH, text, "#");
    ScanAllConcat(FRESH, text + "#", comment);
    ScanOne(s, '#');
    DoneStays(s.(done := true), comment, 0, |comment|);
  }

  function BareArgs(args: seq<string>): string {
    if args == [] then "" else " " + args[0] + BareArgs(args[1..])
  }

  predicate Bare(args: seq<string>) {
    forall i | 0 <= i < |args| :: args[i] != "" && Plain(args[i])
  }

  lemma ScanBareArg(s: Scan, arg: string)
    requires !s.done && !s.inQuotes && s.current != "" && arg != "" && Plain(arg)
    requires s.out == [] ==> arg[0] != '='
    ensures ScanAll(s, " " + arg) == Scan(s.out + [s.current], arg, false, s.separatorUsed, false)
  {
    var t := s.(out := s.out + [s.current], current := "");
    ScanAllConcat(s, " ", arg);
    ScanOne(s, ' ');
    ScanPlainAll(t, arg);
    assert "" + arg == arg;
  }

  lemma {:induction false} ScanBareArgs(s: Scan, args: seq<string>)
    requires !s.done && !s.inQuotes && s.current != "" && Bare(args)
    requires s.out == [] && args != [] ==> args[0][0] != '='
    ensures Flushed(ScanAll(s, BareArgs(args))) == Flushed(s) + args
    decreases args
  {
    if args != [] {
      var first := " " + args[0];
      var t := Scan(s.out + [s.current], args[0], false, s.separatorUsed, false);
      ScanBareArg(s, args[0]);
      ScanAllConcat(s, first, BareArgs(args[1..]));
      ScanBareArgs(t, args[1..]);
      Assoc(Flushed(s), [args[0]], args[1..]);
      assert [args[0]] + args[1..] == args;
    }
  }

  /** Plain words after a keyword are its arguments, and an `=` past the first character is ordinary text. */
  lemma BareWords(keyword: string, args: seq<string>)
    requires PlainKeyword(keyword) && Bare(args) && (args != [] ==> args[0][0] != '=')
    ensures FieldsOf(keyword + BareArgs(args)) == [keyword] + args
  {
    ScanKeyword(keyword);
    ScanAllConcat(FRESH, keyword, BareArgs(args));
    ScanBareArgs(FRESH.(current := keyword), args);
  }

  // ---------------------------------------------------------------- printing

  /** Each argument in quotes, a blank before it. */
  function PrintArgs(args: seq<string>): string {
    if args == [] then "" else " \"" + args[0] + "\"" + PrintArgs(args[1..])
  }

  function PrintLine(keyword: string, args: seq<string>): string {
    keyword + PrintArgs(args)
  }

  function PrintAll(ds: seq<(string, seq<string>)>): seq<string> {
    seq(|ds|, i requires 0 <= i < |ds| => PrintLine(ds[i].0, ds[i].1))
  }

  predicate Quotable(args: seq<string>) {
    forall i | 0 <= i < |args| :: '"' !in args[i] && '\n' !in args[i]
  }

  /** A quoted argument: it ends up in `current`, except the empty one, which is a field at once. */
  lemma ScanArg(s: Scan, arg: string)
    requires !s.done && !s.inQuotes && (s.current != "" || s.out != []) && '"' !in arg
    ensures Flushed(ScanAll(s, " \"" + arg + "\"")) == Flushed(s) + [arg]
    ensures
      var t := ScanAll(s, " \"" + arg + "\"");
      !t.done && !t.inQuotes && (t.current != "" || t.out != [])
  {
    var u := Scan(Flushed(s), "", false, s.separatorUsed, false);
    var open := u.(inQuotes := true);
    var text := " \"" + arg;
    assert text + "\"" == " \"" + arg + "\"";
    ScanAllConcat(s, text, "\"");
    ScanAllConcat(s, " \"", arg);
    assert " \"" == " " + "\"";
    ScanAllConcat(s, " ", "\"");
    ScanOne(s, ' ');
    ScanOne(u, '"');
    assert ScanAll(s, " \"") == open;
    ScanQuoted(open, arg, |arg|);
    assert arg[..|arg|] == arg && "" + arg == arg;
    ScanOne(open.(current := arg), '"');
  }

  lemma {:induction false} ScanArgs(s: Scan, args: seq<string>)
    requires !s.done && !s.inQuotes && (s.current != "" || s.out != []) && Quotable(args)
    ensures Flushed(ScanAll(s, PrintArgs(args))) == Flushed(s) + args
    decreases args
  {
    if args != [] {
      var first := " \"" + args[0] + "\"";
      ScanArg(s, args[0]);
      ScanAllConcat(s, first, PrintArgs(args[1..]));
      ScanArgs(ScanAll(s, first), args[1..]);
      assert args == [args[0]] + args[1..];
    }
  }

  lemma PrintedFields(keyword: string, args: seq<string>)
    requires PlainKeyword(keyword) && Quotable(args)
    ensures FieldsOf(PrintLine(keyword, args)) == [keyword] + args
  {
    ScanKeyword(keyword);
    ScanAllConcat(FRESH, keyword, PrintArgs(args));
    ScanArgs(ScanAll(FRESH, keyword), args);
  }

  lemma {:induction false} PrintArgsShape(args: seq<string>)
    requires Quotable(args)
    ensures '\n' !in PrintArgs(args)
    ensures args != [] ==> PrintArgs(args)[|PrintArgs(args)| - 1] == '"'
  {
    if args != [] {
      PrintArgsShape(args[1..]);
      if |args| == 1 {
        assert PrintArgs(args[1..]) == "";
      }
    }
  }

  lemma PrintedLineIsOneLine(keyword: string, args: seq<string>)
    requires PlainKeyword(keyword) && Quotable(args)
    ensures '\n' !in PrintLine(keyword, args)
    ensures StripCr(PrintLine(keyword, args)) == PrintLine(keyword, args)
  {
    PrintArgsShape(args);
    var line := PrintLine(keyword, args);
    assert '\n' !in keyword by {
      assert forall i | 0 <= i < |keyword| :: !IsWhitespace(keyword[i]);
    }
    if args == [] {
      assert line[|line| - 1] == keyword[|keyword| - 1];
    } else {
      assert line[|line| - 1] == '"';
    }
  }

  lemma {:induction false} LinesOfUnlines(lines: seq<string>)
    requires forall i | 0 <= i < |lines| :: '\n' !in lines[i] && StripCr(lines[i]) == lines[i]
    ensures Lines(Unlines(lines)) == lines
  {
    if lines != [] {
      LinesOfUnlines(lines[1..]);
      LinesCons(lines[0], Unlines(lines[1..]));
      assert lines == [lines[0]] + lines[1..];
    }
  }

  predicate Printable(d: (string, seq<string>)) {
    PlainKeyword(d.0) && Quotable(d.1)
  }

  lemma TokenizePrintedLine(keyword: string, args: seq<string>)
    requires Printable((keyword, args))
    ensures TokenizeLine(PrintLine(keyword, args)) == Some((Lower(keyword), args))
  {
    PrintedFields(keyword, args);
  }

  function Numbered(ds: seq<(string, seq<string>)>): (r: seq<Directive>)
    ensures |r| == |ds|
    ensures forall i | 0 <= i < |ds| :: r[i] == Directive(i + 1, Lower(ds[i].0), ds[i].1)
  {
    seq(|ds|, i requires 0 <= i < |ds| => Directive(i + 1, Lower(ds[i].0), ds[i].1))
  }

  lemma {:induction false} TokenizePrinted(ds: seq<(string, seq<string>)>, lines: seq<string>, n: nat)
    requires lines == PrintAll(ds) && n <= |ds|
    requires forall i | 0 <= i < |ds| :: Printable(ds[i])
    ensures TokenizeFrom(lines, n) == Numbered(ds)[n..]
    decreases |ds| - n
  {
    if n < |ds| {
      TokenizePrinted(ds, lines, n + 1);
      assert Printable(ds[n]);
      TokenizePrintedLine(ds[n].0, ds[n].1);
      assert Numbered(ds)[n..] == [Numbered(ds)[n]] + Numbered(ds)[n + 1..];
    }
  }

  lemma TokenizeAll(ds: seq<(string, seq<string>)>)
    requires forall i | 0 <= i < |ds| :: Printable(ds[i])
    ensures Tokenize(Unlines(PrintAll(ds))) == Numbered(ds)
  {
    var lines := PrintAll(ds);
    forall i | 0 <= i < |lines|
      ensures '\n' !in lines[i] && StripCr(lines[i]) == lines[i]
    {
      assert Printable(ds[i]);
      PrintedLineIsOneLine(ds[i].0, ds[i].1);
    }
    LinesOfUnlines(lines);
    TokenizePrinted(ds, lines, 0);
  }

  /** One word is another with its capitals, the letters `A` to `Z`, replaced by the small ones. */
  predicate InSmallLetters(word: string, small: string) {
    && |small| == |word|
    && forall i | 0 <= i < |word| ::
         small[i] == if 'A' <= word[i] <= 'Z' then (word[i] as int + 32) as char else word[i]
  }

  /** Keywords are read in any case: what comes back is the keyword in small letters, and every argument as it was. */
  lemma KeywordsInAnyCase(ds: seq<(string, seq<string>)>)
    requires forall i | 0 <= i < |ds| :: Printable(ds[i])
    ensures
      var read := Tokenize(Unlines(PrintAll(ds)));
      && |read| == |ds|
      && forall i | 0 <= i < |ds| ::
           read[i].line == i + 1 && InSmallLetters(ds[i].0, read[i].keyword) && read[i].args == ds[i].1
  {
    TokenizeAll(ds);
  }

  lemma SmallIsItself(word: string, small: string)
    requires InSmallLetters(word, small) && forall i | 0 <= i < |word| :: !('A' <= word[i] <= 'Z')
    ensures small == word
  {
  }

  /** Tokenizing undoes printing where no keyword has a capital: keyword, arguments and line number come back. */
  lemma TokenizeUndoesPrinting(ds: seq<(string, seq<string>)>)
    requires forall i | 0 <= i < |ds| :: Printable(ds[i])
    requires forall i, j | 0 <= i < |ds| && 0 <= j < |ds[i].0| :: !('A' <= ds[i].0[j] <= 'Z')
    ensures
      var read := Tokenize(Unlines(PrintAll(ds)));
      && |read| == |ds|
      && forall i | 0 <= i < |ds| :: read[i] == Directive(i + 1, ds[i].0, ds[i].1)
  {
    KeywordsInAnyCase(ds);
    var read := Tokenize(Unlines(PrintAll(ds)));
    forall i | 0 <= i < |ds| ensures read[i].keyword == ds[i].0 {
      SmallIsItself(ds[i].0, read[i].keyword);
    }
  }

  // ---------------------------------------------------------------- a line as users write it

  /** A keyword in any case with bare words after it, on one line. */
  lemma BareLine(keyword: string, small: string, args: seq<string>)
    requires PlainKeyword(keyword) && Bare(args) && (args != [] ==> args[0][0] != '=')
    requires InSmallLetters(keyword, small)
    ensures TokenizeLine(keyword + BareArgs(args)) == Some((small, args))
  {
    BareWords(keyword, args);
    assert small == Lower(keyword);
  }
}
