/**
  The host list's search (crates/core-store/src/hosts.rs): the search text escaped for LIKE, the statement
  put together clause by clause with `?*` markers, and the markers numbered at the end.
 */
module HostSearch {
  import opened Options
  import opened Text

  // ---------------------------------------------------------------- LIKE

  predicate Special(c: char) {
    c == '%' || c == '_' || c == '\\'
  }

  function EscapeChar(c: char): string {
    if Special(c) then ['\\', c] else [c]
  }

  function Escape(s: string): string {
    if s == "" then "" else EscapeChar(s[0]) + Escape(s[1..])
  }

  lemma EscapeNext(out: string, s: string, i: nat)
    requires i < |s|
    ensures out + Escape(s[i..]) == out + EscapeChar(s[i]) + Escape(s[i + 1..])
  {
    assert s[i..][1..] == s[i + 1..];
    Assoc(out, EscapeChar(s[i]), Escape(s[i + 1..]));
  }

  method EscapeLike(input: string) returns (out: string)
    ensures out == Escape(input)
  {
    out := "";
    for i := 0 to |input|
      invariant out + Escape(input[i..]) == Escape(input)
    {
      var ch := input[i];
      ghost var next := out + EscapeChar(ch);
      EscapeNext(out, input, i);
      if Special(ch) {
        out := out + ['\\'];
      }
      out := out + [ch];
      assert out == next;
    }
  }

  /** SQLite's LIKE with the backslash as escape character: ASCII case does not matter. */
  predicate Like(pattern: string, s: string)
    decreases |pattern|
  {
    if pattern == "" then s == ""
    else if pattern[0] == '%' then exists k | 0 <= k <= |s| :: Like(pattern[1..], s[k..])
    else if pattern[0] == '\\' then
      |pattern| > 1 && s != "" && LowerChar(pattern[1]) == LowerChar(s[0]) && Like(pattern[2..], s[1..])
    else if pattern[0] == '_' then s != "" && Like(pattern[1..], s[1..])
    else s != "" && LowerChar(pattern[0]) == LowerChar(s[0]) && Like(pattern[1..], s[1..])
  }

  /** `q` stands somewhere in `s`, ASCII case aside. */
  ghost predicate Contains(s: string, q: string) {
    exists a, b :: Lower(s) == a + Lower(q) + b
  }

  /** The text stands at position `k`, ASCII case aside. */
  predicate StandsAt(s: string, q: string, k: nat) {
    k + |q| <= |s| && SameButCase(s[k..k + |q|], q)
  }

  /** The same said letter by letter. */
  lemma ContainsMeans(s: string, q: string)
    ensures Contains(s, q) <==> exists k: nat :: StandsAt(s, q, k)
  {
    if Contains(s, q) {
      var a, b :| Lower(s) == a + Lower(q) + b;
      var k := |a|;
      assert |s| == k + |q| + |b|;
      assert Lower(s[k..k + |q|]) == Lower(s)[k..k + |q|] == Lower(q);
      LowerComparesCase(s[k..k + |q|], q);
      assert StandsAt(s, q, k);
    }
    if k: nat :| StandsAt(s, q, k) {
      LowerComparesCase(s[k..k + |q|], q);
      assert Lower(s[k..k + |q|]) == Lower(s)[k..k + |q|];
      assert Lower(s) == Lower(s)[..k] + Lower(q) + Lower(s)[k + |q|..];
    }
  }

  predicate StartsWith(s: string, q: string) {
    |q| <= |s| && Lower(s[..|q|]) == Lower(q)
  }

  lemma StartsWithStep(s: string, q: string)
    requires q != ""
    ensures StartsWith(s, q) <==> s != "" && LowerChar(q[0]) == LowerChar(s[0]) && StartsWith(s[1..], q[1..])
  {
    if |q| <= |s| {
      var head := s[..|q|];
      assert Lower(head)[0] == LowerChar(s[0]) && Lower(q)[0] == LowerChar(q[0]);
      assert s[1..][..|q| - 1] == head[1..];
      assert Lower(head[1..]) == Lower(head)[1..] && Lower(q[1..]) == Lower(q)[1..];
      assert Lower(head) == [Lower(head)[0]] + Lower(head)[1..];
      assert Lower(q) == [Lower(q)[0]] + Lower(q)[1..];
    }
  }

  lemma AnythingLeft(s: string)
    ensures Like("%", s)
  {
    assert s[|s|..] == "" && "%"[1..] == "";
  }

  /** The escaped text followed by `%` matches exactly what starts with the text. */
  lemma {:induction false} EscapedIsLiteral(q: string, s: string)
    ensures Like(Escape(q) + "%", s) <==> StartsWith(s, q)
  {
    if q == "" {
      assert Escape(q) + "%" == "%";
      AnythingLeft(s);
    } else {
      var p := Escape(q) + "%";
      var rest := Escape(q[1..]) + "%";
      if Special(q[0]) {
        assert p == ['\\', q[0]] + rest && p[2..] == rest;
      } else {
        assert p == [q[0]] + rest && p[1..] == rest;
      }
      if s != "" {
        EscapedIsLiteral(q[1..], s[1..]);
      }
      StartsWithStep(s, q);
    }
  }

  lemma StartIsFound(s: string, q: string, k: nat)
    requires k <= |s| && StartsWith(s[k..], q)
    ensures Contains(s, q)
  {
    var end := k + |q|;
    assert s[k..][..|q|] == s[k..end];
    assert s == s[..k] + s[k..end] + s[end..];
    assert Lower(s) == Lower(s[..k]) + Lower(s[k..end]) + Lower(s[end..]);
  }

  lemma FoundStarts(s: string, q: string) returns (k: nat)
    requires Contains(s, q)
    ensures k <= |s| && StartsWith(s[k..], q)
  {
    var a, b :| Lower(s) == a + Lower(q) + b;
    k := |a|;
    assert |s| == |a| + |q| + |b|;
    var part := s[k..][..|q|];
    assert part == s[k..k + |q|];
    assert Lower(part) == Lower(s)[k..k + |q|] == Lower(q);
  }

  /** A search finds the hosts that contain the text, whatever characters it is made of. */
  lemma SearchIsContains(q: string, s: string)
    ensures Like("%" + Escape(q) + "%", s) <==> Contains(s, q)
  {
    var inner := Escape(q) + "%";
    var p := "%" + Escape(q) + "%";
    assert p[0] == '%' && p[1..] == inner;
    if Like(p, s) {
      var k: nat :| k <= |s| && Like(inner, s[k..]);
      EscapedIsLiteral(q, s[k..]);
      StartIsFound(s, q, k);
    }
    if Contains(s, q) {
      var k := FoundStarts(s, q);
      EscapedIsLiteral(q, s[k..]);
    }
  }

  lemma PercentTakesAll(rest: string, s: string)
    requires Like(rest, "")
    ensures Like(['%'] + rest, s)
  {
    var p := ['%'] + rest;
    assert p[1..] == rest && s[|s|..] == "";
  }

  lemma NotHeld(s: string, c: char)
    requires c !in s && LowerChar(c) == c && !('a' <= c <= 'z')
    ensures !Contains(s, [c])
  {
    assert forall k | 0 <= k < |s| :: s[k] in s;
    assert forall k | 0 <= k < |s| :: Lower(s)[k] != c;
    forall a, b ensures Lower(s) != a + Lower([c]) + b {
      assert (a + Lower([c]) + b)[|a|] == Lower([c])[0] == c;
    }
  }

  /** Without the escaping `%` would be a wildcard: it would find every host, whether or not it holds one. */
  lemma UnescapedFindsTooMuch(s: string)
    requires '%' !in s
    ensures Like("%" + ['%'] + "%", s) && !Contains(s, ['%'])
  {
    NotHeld(s, '%');
    AnythingLeft("");
    PercentTakesAll("%", "");
    PercentTakesAll(['%'] + "%", s);
    assert ['%'] + (['%'] + "%") == "%" + ['%'] + "%";
  }

  // ---------------------------------------------------------------- numbering the markers

  predicate AtMarker(s: string) {
    |s| >= 2 && s[0] == '?' && s[1] == '*'
  }

  function Markers(s: string): nat
    decreases |s|
  {
    if s == "" then 0 else if AtMarker(s) then 1 + Markers(s[2..]) else Markers(s[1..])
  }

  /** The markers replaced by `?n+1`, `?n+2`, … from left to right. */
  function Number(s: string, n: nat): string
    decreases |s|
  {
    if s == "" then ""
    else if AtMarker(s) then "?" + Digits(n + 1) + Number(s[2..], n + 1)
    else [s[0]] + Number(s[1..], n)
  }

  predicate NoMarkerBefore(s: string, p: nat)
    requires p <= |s|
  {
    forall i | 0 <= i < p :: !AtMarker(s[i..])
  }

  predicate Found(s: string, pos: Option<nat>) {
    match pos
    case Some(p) => p + 2 <= |s| && AtMarker(s[p..]) && NoMarkerBefore(s, p)
    case None => NoMarkerBefore(s, |s|)
  }

  /** The first position of a marker, if there is one. */
  method FindMarker(s: string) returns (pos: Option<nat>)
    ensures Found(s, pos)
  {
    for i := 0 to |s|
      invariant NoMarkerBefore(s, i)
    {
      if AtMarker(s[i..]) {
        return Some(i);
      }
    }
    return None;
  }

  lemma {:induction false} UpToMarker(s: string, p: nat, n: nat)
    requires p <= |s| && NoMarkerBefore(s, p)
    ensures Number(s, n) == s[..p] + Number(s[p..], n)
    decreases p
  {
    if p == 0 {
      assert s[0..] == s;
    } else {
      assert !AtMarker(s[0..]) && s[0..] == s;
      forall i | 0 <= i < p - 1 ensures !AtMarker(s[1..][i..]) {
        assert s[1..][i..] == s[i + 1..];
      }
      UpToMarker(s[1..], p - 1, n);
      assert s[1..][p - 1..] == s[p..];
      assert s[..p] == [s[0]] + s[1..][..p - 1];
    }
  }

  lemma NumberFirst(s: string, p: nat, n: nat)
    requires p + 2 <= |s| && AtMarker(s[p..]) && NoMarkerBefore(s, p)
    ensures Number(s, n) == s[..p] + "?" + Digits(n + 1) + Number(s[p + 2..], n + 1)
  {
    UpToMarker(s, p, n);
    assert s[p..][2..] == s[p + 2..];
  }

  /** Numbering the first marker of what is left to do. */
  lemma OneNumbered(out: string, rest: string, p: nat, n: nat)
    requires Found(rest, Some(p))
    ensures out + Number(rest, n) == out + rest[..p] + "?" + Digits(n + 1) + Number(rest[p + 2..], n + 1)
  {
    NumberFirst(rest, p, n);
    var (a, b, c, d) := (rest[..p], "?", Digits(n + 1), Number(rest[p + 2..], n + 1));
    assert out + (a + b + c + d) == out + a + b + c + d;
  }

  lemma NoneLeft(rest: string, n: nat)
    requires Found(rest, None)
    ensures Number(rest, n) == rest
  {
    UpToMarker(rest, |rest|, n);
    assert rest[..|rest|] == rest && rest[|rest|..] == "";
  }

  method NumberPlaceholders(sql: string) returns (out: string)
    ensures out == Number(sql, 0)
  {
    out := "";
    var n: nat := 0;
    var rest := sql;
    var pos := FindMarker(rest);
    while pos.Some?
      invariant out + Number(rest, n) == Number(sql, 0)
      invariant Found(rest, pos)
      decreases |rest|
    {
      var p := pos.value;
      OneNumbered(out, rest, p, n);
      n := n + 1;
      out := out + rest[..p] + "?" + Digits(n);
      rest := rest[p + 2..];
      pos := FindMarker(rest);
    }
    NoneLeft(rest, n);
    out := out + rest;
  }

  // ---------------------------------------------------------------- the parameters a database reads

  predicate StartsWithDigit(s: string) {
    s != "" && IsDigit(s[0])
  }

  /** The longest prefix of digits. */
  function DigitRun(s: string): (d: string)
    ensures d <= s && AllDigits(d)
  {
    if StartsWithDigit(s) then [s[0]] + DigitRun(s[1..]) else ""
  }

  /** The numbers of the `?N` parameters in a statement, in order. */
  function Parameters(s: string): seq<nat>
    decreases |s|
  {
    if s == "" then []
    else if s[0] == '?' then
      var d := DigitRun(s[1..]);
      [DecimalValue(d)] + Parameters(s[1 + |d|..])
    else Parameters(s[1..])
  }

  /** Every question mark begins a marker, and no marker runs into a digit. */
  predicate Safe(s: string)
    decreases |s|
  {
    s == "" || if s[0] == '?' then AtMarker(s) && !StartsWithDigit(s[2..]) && Safe(s[2..]) else Safe(s[1..])
  }

  function CountUp(n: nat, count: nat): (r: seq<nat>)
    ensures |r| == count && forall i | 0 <= i < count :: r[i] == n + i + 1
  {
    seq(count, i requires 0 <= i < count => n + i + 1)
  }

  lemma {:induction false} DigitRunOf(d: string, rest: string)
    requires AllDigits(d) && !StartsWithDigit(rest)
    ensures DigitRun(d + rest) == d
  {
    if d == "" {
      assert d + rest == rest;
    } else {
      assert (d + rest)[1..] == d[1..] + rest;
      DigitRunOf(d[1..], rest);
    }
  }

  lemma NumberKeepsNonDigit(s: string, n: nat)
    requires !StartsWithDigit(s)
    ensures !StartsWithDigit(Number(s, n))
  {
  }

  lemma ReadBack(n: nat, rest: string)
    requires !StartsWithDigit(rest)
    ensures Parameters("?" + Digits(n) + rest) == [n] + Parameters(rest)
  {
    var d := Digits(n);
    var t := "?" + d + rest;
    assert t[1..] == d + rest;
    DigitRunOf(d, rest);
    DecimalRoundTrip(n);
    assert t[1 + |d|..] == rest;
  }

  /** Numbering a safe statement gives it the parameters 1, 2, … one for each marker, and no others. */
  lemma {:induction false} ParametersInOrder(s: string, n: nat)
    requires Safe(s)
    ensures Parameters(Number(s, n)) == CountUp(n, Markers(s))
    decreases |s|
  {
    if s == "" {
    } else if s[0] == '?' {
      ParametersInOrder(s[2..], n + 1);
      NumberKeepsNonDigit(s[2..], n + 1);
      ReadBack(n + 1, Number(s[2..], n + 1));
      assert CountUp(n, Markers(s)) == [n + 1] + CountUp(n + 1, Markers(s[2..]));
    } else {
      ParametersInOrder(s[1..], n);
      assert ([s[0]] + Number(s[1..], n))[1..] == Number(s[1..], n);
    }
  }

  lemma {:induction false} SafeConcat(a: string, b: string)
    requires Safe(a) && Safe(b) && !StartsWithDigit(b)
    ensures Safe(a + b) && Markers(a + b) == Markers(a) + Markers(b)
    decreases |a|
  {
    if a == "" {
      assert a + b == b;
    } else if a[0] == '?' {
      assert (a + b)[2..] == a[2..] + b;
      SafeConcat(a[2..], b);
    } else {
      assert (a + b)[1..] == a[1..] + b;
      SafeConcat(a[1..], b);
    }
  }

  lemma {:induction false} PlainIsSafe(s: string)
    requires '?' !in s
    ensures Safe(s) && Markers(s) == 0
  {
    if s != "" {
      PlainIsSafe(s[1..]);
    }
  }

  // ---------------------------------------------------------------- the statement

  type Id = int

  datatype Filter = Filter(query: Option<string>, folder: Option<Id>, tags: seq<Id>, limit: Option<nat>)

  datatype Arg = Pattern(text: string) | Key(id: Id) | Limit(n: nat)

  /** The fixed parts of the statement between the markers. */
  datatype Wording = Wording(
    select: string, like: string, orHost: string, orUser: string, escape: string, folder: string, tag: string,
    closing: string, order: string, limit: string)

  const MARKER := "?*"

  /** One part of the statement with the arguments its markers stand for. */
  datatype Clause = Clause(text: string, args: seq<Arg>)

  function PatternFor(q: string): string {
    "%" + Escape(Trim(q)) + "%"
  }

  function QueryText(w: Wording): string {
    w.like + MARKER + (w.orHost + MARKER) + (w.orUser + MARKER) + w.escape
  }

  function TagText(w: Wording): string {
    w.tag + MARKER + w.closing
  }

  function QueryClauses(w: Wording, query: Option<string>): seq<Clause> {
    if query.Some? && Trim(query.value) != "" then
      var p := Pattern(PatternFor(query.value));
      [Clause(QueryText(w), [p, p, p])]
    else []
  }

  /** A clause with one marker, if there is an argument for it. */
  function Keyed(text: string, arg: Option<Arg>): seq<Clause> {
    if arg.Some? then [Clause(text + MARKER, [arg.value])] else []
  }

  function Held(folder: Option<Id>): Option<Arg> {
    if folder.Some? then Some(Key(folder.value)) else None
  }

  function Bound(limit: Option<nat>): Option<Arg> {
    if limit.Some? then Some(Limit(limit.value)) else None
  }

  function TagClauses(w: Wording, tags: seq<Id>, n: nat): seq<Clause>
    requires n <= |tags|
  {
    if n == 0 then [] else TagClauses(w, tags, n - 1) + [Clause(TagText(w), [Key(tags[n - 1])])]
  }

  function Clauses(w: Wording, f: Filter): seq<Clause> {
    [Clause(w.select, [])] + QueryClauses(w, f.query) + Keyed(w.folder, Held(f.folder))
    + TagClauses(w, f.tags, |f.tags|) + [Clause(w.order, [])] + Keyed(w.limit, Bound(f.limit))
  }

  function Texts(clauses: seq<Clause>, n: nat): string
    requires n <= |clauses|
  {
    if n == 0 then "" else Texts(clauses, n - 1) + clauses[n - 1].text
  }

  function Args(clauses: seq<Clause>, n: nat): seq<Arg>
    requires n <= |clauses|
  {
    if n == 0 then [] else Args(clauses, n - 1) + clauses[n - 1].args
  }

  function Statement(clauses: seq<Clause>): string {
    Texts(clauses, |clauses|)
  }

  function Arguments(clauses: seq<Clause>): seq<Arg> {
    Args(clauses, |clauses|)
  }

  lemma {:induction false} PrefixTexts(a: seq<Clause>, b: seq<Clause>, n: nat)
    requires n <= |a| <= |b| && a == b[..|a|]
    ensures Texts(b, n) == Texts(a, n) && Args(b, n) == Args(a, n)
  {
    if n > 0 {
      PrefixTexts(a, b, n - 1);
    }
  }

  lemma OneMoreClause(clauses: seq<Clause>, c: Clause)
    ensures Statement(clauses + [c]) == Statement(clauses) + c.text
    ensures Arguments(clauses + [c]) == Arguments(clauses) + c.args
  {
    PrefixTexts(clauses, clauses + [c], |clauses|);
  }

  // ---------------------------------------------------------------- as many markers as arguments

  /** Text without a question mark, not beginning with a digit. */
  predicate Plain(s: string) {
    '?' !in s && !StartsWithDigit(s)
  }

  predicate Lawful(w: Wording) {
    && Plain(w.select) && Plain(w.like) && Plain(w.orHost) && Plain(w.orUser) && Plain(w.escape)
    && Plain(w.folder) && Plain(w.tag) && Plain(w.closing) && Plain(w.order) && Plain(w.limit)
    && w.like != "" && w.folder != "" && w.tag != "" && w.limit != ""
  }

  predicate Balanced(c: Clause) {
    Safe(c.text) && !StartsWithDigit(c.text) && Markers(c.text) == |c.args|
  }

  lemma {:induction false} BalancedConcat(clauses: seq<Clause>, n: nat)
    requires n <= |clauses| && forall i | 0 <= i < n :: Balanced(clauses[i])
    ensures Safe(Texts(clauses, n)) && Markers(Texts(clauses, n)) == |Args(clauses, n)|
  {
    if n > 0 {
      BalancedConcat(clauses, n - 1);
      SafeConcat(Texts(clauses, n - 1), clauses[n - 1].text);
    }
  }

  lemma MarkerAfter(a: string)
    requires Plain(a)
    ensures Safe(a + MARKER) && Markers(a + MARKER) == 1
    ensures !StartsWithDigit(a + MARKER)
  {
    PlainIsSafe(a);
    assert MARKER[2..] == "";
    SafeConcat(a, MARKER);
  }

  lemma QueryIsBalanced(w: Wording, p: Arg)
    requires Lawful(w)
    ensures Balanced(Clause(QueryText(w), [p, p, p]))
  {
    var a, b, c := w.like + MARKER, w.orHost + MARKER, w.orUser + MARKER;
    MarkerAfter(w.like);
    MarkerAfter(w.orHost);
    MarkerAfter(w.orUser);
    PlainIsSafe(w.escape);
    SafeConcat(a, b);
    SafeConcat(a + b, c);
    SafeConcat(a + b + c, w.escape);
  }

  lemma TagIsBalanced(w: Wording, a: Arg)
    requires Lawful(w)
    ensures Balanced(Clause(TagText(w), [a]))
  {
    MarkerAfter(w.tag);
    PlainIsSafe(w.closing);
    SafeConcat(w.tag + MARKER, w.closing);
  }

  predicate AllBalanced(clauses: seq<Clause>) {
    forall i | 0 <= i < |clauses| :: Balanced(clauses[i])
  }

  lemma {:induction false} TagsAreBalanced(w: Wording, tags: seq<Id>, n: nat)
    requires Lawful(w) && n <= |tags|
    ensures AllBalanced(TagClauses(w, tags, n))
  {
    if n > 0 {
      TagsAreBalanced(w, tags, n - 1);
      TagIsBalanced(w, Key(tags[n - 1]));
    }
  }

  lemma BalancedPlain(text: string)
    requires Plain(text)
    ensures AllBalanced([Clause(text, [])])
  {
    PlainIsSafe(text);
  }

  lemma OptionalAreBalanced(w: Wording, f: Filter)
    requires Lawful(w)
    ensures AllBalanced(QueryClauses(w, f.query)) && AllBalanced(Keyed(w.folder, Held(f.folder)))
    ensures AllBalanced(Keyed(w.limit, Bound(f.limit)))
  {
    if f.query.Some? {
      QueryIsBalanced(w, Pattern(PatternFor(f.query.value)));
    }
    MarkerAfter(w.folder);
    MarkerAfter(w.limit);
  }

  lemma AllBalancedConcat(a: seq<Clause>, b: seq<Clause>)
    requires AllBalanced(a) && AllBalanced(b)
    ensures AllBalanced(a + b)
  {
  }

  lemma ClausesAreBalanced(w: Wording, f: Filter)
    requires Lawful(w)
    ensures AllBalanced(Clauses(w, f))
  {
    BalancedPlain(w.select);
    BalancedPlain(w.order);
    OptionalAreBalanced(w, f);
    TagsAreBalanced(w, f.tags, |f.tags|);
    var a := [Clause(w.select, [])];
    var b := a + QueryClauses(w, f.query);
    var c := b + Keyed(w.folder, Held(f.folder));
    var d := c + TagClauses(w, f.tags, |f.tags|);
    var e := d + [Clause(w.order, [])];
    AllBalancedConcat(a, QueryClauses(w, f.query));
    AllBalancedConcat(b, Keyed(w.folder, Held(f.folder)));
    AllBalancedConcat(c, TagClauses(w, f.tags, |f.tags|));
    AllBalancedConcat(d, [Clause(w.order, [])]);
    AllBalancedConcat(e, Keyed(w.limit, Bound(f.limit)));
  }

  /** For every filter the statement has one marker for each argument. */
  lemma StatementIsSafe(w: Wording, f: Filter)
    requires Lawful(w)
    ensures Safe(Statement(Clauses(w, f))) && Markers(Statement(Clauses(w, f))) == |Arguments(Clauses(w, f))|
  {
    ClausesAreBalanced(w, f);
    BalancedConcat(Clauses(w, f), |Clauses(w, f)|);
  }

  lemma {:induction false} ArgumentsConcat(a: seq<Clause>, b: seq<Clause>)
    ensures Arguments(a + b) == Arguments(a) + Arguments(b)
  {
    if b == [] {
      assert a + b == a;
    } else {
      var init, last := b[..|b| - 1], b[|b| - 1];
      ArgumentsConcat(a, init);
      OneMoreClause(a + init, last);
      OneMoreClause(init, last);
      assert a + b == a + init + [last] && b == init + [last];
    }
  }

  function TagArguments(tags: seq<Id>): (r: seq<Arg>)
    ensures |r| == |tags| && forall i | 0 <= i < |r| :: r[i] == Key(tags[i])
  {
    seq(|tags|, i requires 0 <= i < |tags| => Key(tags[i]))
  }

  lemma {:induction false} TagClausesBind(w: Wording, tags: seq<Id>, n: nat)
    requires n <= |tags|
    ensures Arguments(TagClauses(w, tags, n)) == TagArguments(tags[..n])
  {
    if n > 0 {
      TagClausesBind(w, tags, n - 1);
      OneMoreClause(TagClauses(w, tags, n - 1), Clause(TagText(w), [Key(tags[n - 1])]));
      assert TagArguments(tags[..n]) == TagArguments(tags[..n - 1]) + [Key(tags[n - 1])];
    }
  }

  lemma OneClauseBinds(c: Clause)
    ensures Arguments([c]) == c.args
  {
    OneMoreClause([], c);
    assert [] + [c] == [c];
  }

  function QueryArguments(query: Option<string>): seq<Arg> {
    if query.Some? && Trim(query.value) != "" then
      var p := Pattern(PatternFor(query.value));
      [p, p, p]
    else []
  }

  lemma QueryBinds(w: Wording, query: Option<string>)
    ensures Arguments(QueryClauses(w, query)) == QueryArguments(query)
  {
    if QueryClauses(w, query) != [] {
      OneClauseBinds(QueryClauses(w, query)[0]);
    }
  }

  function OptionalArgument(arg: Option<Arg>): seq<Arg> {
    if arg.Some? then [arg.value] else []
  }

  lemma KeyedBinds(text: string, arg: Option<Arg>)
    ensures Arguments(Keyed(text, arg)) == OptionalArgument(arg)
  {
    if arg.Some? {
      OneClauseBinds(Keyed(text, arg)[0]);
    }
  }

  lemma SixParts(a: seq<Clause>, b: seq<Clause>, c: seq<Clause>, d: seq<Clause>, e: seq<Clause>, g: seq<Clause>)
    ensures Arguments(a + b + c + d + e + g)
         == Arguments(a) + Arguments(b) + Arguments(c) + Arguments(d) + Arguments(e) + Arguments(g)
  {
    ArgumentsConcat(a, b);
    ArgumentsConcat(a + b, c);
    ArgumentsConcat(a + b + c, d);
    ArgumentsConcat(a + b + c + d, e);
    ArgumentsConcat(a + b + c + d + e, g);
  }

  /** The arguments in order: the pattern three times, the folder, every tag, the limit, each only if asked for. */
  lemma ArgumentsInOrder(w: Wording, f: Filter)
    ensures Arguments(Clauses(w, f))
         == QueryArguments(f.query) + OptionalArgument(Held(f.folder)) + TagArguments(f.tags)
            + OptionalArgument(Bound(f.limit))
  {
    var select, order := [Clause(w.select, [])], [Clause(w.order, [])];
    SixParts(select, QueryClauses(w, f.query), Keyed(w.folder, Held(f.folder)), TagClauses(w, f.tags, |f.tags|), order,
             Keyed(w.limit, Bound(f.limit)));
    OneClauseBinds(select[0]);
    OneClauseBinds(order[0]);
    QueryBinds(w, f.query);
    KeyedBinds(w.folder, Held(f.folder));
    KeyedBinds(w.limit, Bound(f.limit));
    TagClausesBind(w, f.tags, |f.tags|);
    assert f.tags[..|f.tags|] == f.tags;
    var q := QueryArguments(f.query);
    assert [] + q == q;
  }

  // ---------------------------------------------------------------- building the statement

  /** The statement so far and its arguments. */
  predicate Built(sql: string, args: seq<Arg>, clauses: seq<Clause>) {
    sql == Statement(clauses) && args == Arguments(clauses)
  }

  lemma Append(sql: string, args: seq<Arg>, clauses: seq<Clause>, c: Clause)
    requires Built(sql, args, clauses)
    ensures Built(sql + c.text, args + c.args, clauses + [c])
  {
    OneMoreClause(clauses, c);
  }

  /** A clause with one marker, if there is an argument for it. */
  method AddKeyed(text: string, arg: Option<Arg>, sql: string, args: seq<Arg>, ghost done: seq<Clause>)
    returns (more: string, moreArgs: seq<Arg>)
    requires Built(sql, args, done)
    ensures Built(more, moreArgs, done + Keyed(text, arg))
  {
    more, moreArgs := sql, args;
    if arg.Some? {
      Append(more, moreArgs, done, Clause(text + MARKER, [arg.value]));
      more := more + (text + MARKER);
      moreArgs := moreArgs + [arg.value];
    } else {
      assert done + [] == done;
    }
  }

  /** The search clause, unless the text is blank: one pattern bound three times. */
  method AddQuery(w: Wording, query: Option<string>, sql: string, args: seq<Arg>, ghost done: seq<Clause>)
    returns (more: string, moreArgs: seq<Arg>)
    requires Built(sql, args, done)
    ensures Built(more, moreArgs, done + QueryClauses(w, query))
  {
    more, moreArgs := sql, args;
    if query.Some? && Trim(query.value) != "" {
      var escaped := EscapeLike(Trim(query.value));
      var pattern := Pattern("%" + escaped + "%");
      Append(more, moreArgs, done, Clause(QueryText(w), [pattern, pattern, pattern]));
      assert QueryClauses(w, query) == [Clause(QueryText(w), [pattern, pattern, pattern])];
      more := more + QueryText(w);
      moreArgs := moreArgs + [pattern, pattern, pattern];
    } else {
      assert done + [] == done;
    }
  }

  /** One clause for each tag. */
  method AddTags(w: Wording, tags: seq<Id>, sql: string, args: seq<Arg>, ghost done: seq<Clause>)
    returns (more: string, moreArgs: seq<Arg>)
    requires Built(sql, args, done)
    ensures Built(more, moreArgs, done + TagClauses(w, tags, |tags|))
  {
    more, moreArgs := sql, args;
    assert done + [] == done;
    for i := 0 to |tags|
      invariant Built(more, moreArgs, done + TagClauses(w, tags, i))
    {
      var c := Clause(TagText(w), [Key(tags[i])]);
      Append(more, moreArgs, done + TagClauses(w, tags, i), c);
      more := more + TagText(w);
      moreArgs := moreArgs + [Key(tags[i])];
      assert done + TagClauses(w, tags, i) + [c] == done + (TagClauses(w, tags, i) + [c]);
    }
  }

  /** The statement and its arguments for a filter, as they are handed to the database. */
  method BuildList(w: Wording, f: Filter) returns (sql: string, args: seq<Arg>)
    requires Lawful(w)
    ensures sql == Number(Statement(Clauses(w, f)), 0) && args == Arguments(Clauses(w, f))
    ensures Parameters(sql) == CountUp(0, |args|)
  {
    ghost var start := [Clause(w.select, [])];
    sql, args := w.select, [];
    OneMoreClause([], start[0]);
    assert [] + start == start;
    sql, args := AddQuery(w, f.query, sql, args, start);
    sql, args := AddKeyed(w.folder, Held(f.folder), sql, args, start + QueryClauses(w, f.query));
    ghost var head := start + QueryClauses(w, f.query) + Keyed(w.folder, Held(f.folder));
    sql, args := AddTags(w, f.tags, sql, args, head);
    ghost var body := head + TagClauses(w, f.tags, |f.tags|);
    Append(sql, args, body, Clause(w.order, []));
    sql := sql + w.order;
    sql, args := AddKeyed(w.limit, Bound(f.limit), sql, args, body + [Clause(w.order, [])]);
    StatementIsSafe(w, f);
    ParametersInOrder(sql, 0);
    sql := NumberPlaceholders(sql);
  }

  // ---------------------------------------------------------------- the statement's own words

  const COLUMNS: seq<string> := [
    "id", "folder_id", "name", "hostname", "port", "username", "auth_method", "secret_ref", "key_path", "term",
    "keepalive_secs", "keepalive_max", "connect_timeout_secs", "window_size", "reconnect_enabled",
    "reconnect_max_attempts", "proxy_jump", "source", "source_alias", "color", "notes", "last_connected_at",
    "connect_count", "created_at", "updated_at", "auth_fallbacks"]

  const TAG_PHRASES: seq<string> := [
    " AND EXISTS (SELECT 1", "FROM host_tags ht", "WHERE ht.host_id = hosts.id", "AND ht.tag_id = "]

  const ORDER_PHRASES: seq<string> := [
    " ORDER BY last_connected_at", "DESC NULLS LAST,", "name COLLATE NOCASE ASC"]

  const SELECT := "SELECT " + Join(COLUMNS, ", ") + " FROM hosts WHERE 1 = 1"
  const TAG_CLAUSE := Join(TAG_PHRASES, " ")
  const ORDER_CLAUSE := Join(ORDER_PHRASES, " ")
  const NAME_LIKE := " AND (name LIKE "
  const HOSTNAME_LIKE := " ESCAPE '\\' OR hostname LIKE "
  const USERNAME_LIKE := " ESCAPE '\\' OR username LIKE "
  const ESCAPE_END := " ESCAPE '\\')"
  const FOLDER_CLAUSE := " AND folder_id = "
  const LIMIT_CLAUSE := " LIMIT "

  const WORDING := Wording(
    SELECT, NAME_LIKE, HOSTNAME_LIKE, USERNAME_LIKE, ESCAPE_END, FOLDER_CLAUSE, TAG_CLAUSE, ")", ORDER_CLAUSE,
    LIMIT_CLAUSE)

  /** None of the parts holds a question mark. */
  predicate NoMarks(parts: seq<string>) {
    forall i | 0 <= i < |parts| :: '?' !in parts[i]
  }

  lemma {:induction false} JoinNoMarks(parts: seq<string>, separator: string)
    requires NoMarks(parts) && '?' !in separator
    ensures '?' !in Join(parts, separator)
  {
    if |parts| > 1 {
      JoinNoMarks(parts[1..], separator);
    }
  }

  lemma {:induction false} JoinStarts(parts: seq<string>, separator: string)
    requires parts != [] && parts[0] != ""
    ensures Join(parts, separator) != "" && Join(parts, separator)[0] == parts[0][0]
  {
  }

  lemma ColumnsNoMarks()
    ensures NoMarks(COLUMNS)
  {
  }

  lemma PhrasesNoMarks()
    ensures NoMarks(TAG_PHRASES) && NoMarks(ORDER_PHRASES)
  {
  }

  lemma PlainConcat(a: string, b: string)
    requires Plain(a) && a != "" && '?' !in b
    ensures Plain(a + b)
  {
  }

  lemma SelectOf(columns: string)
    requires '?' !in columns
    ensures Plain("SELECT " + columns + " FROM hosts WHERE 1 = 1")
  {
    PlainConcat("SELECT ", columns);
    PlainConcat("SELECT " + columns, " FROM hosts WHERE 1 = 1");
  }

  lemma SelectPlain()
    ensures Plain(SELECT)
  {
    ColumnsNoMarks();
    JoinNoMarks(COLUMNS, ", ");
    SelectOf(Join(COLUMNS, ", "));
  }

  lemma PhrasesPlain()
    ensures Plain(TAG_CLAUSE) && TAG_CLAUSE != "" && Plain(ORDER_CLAUSE)
  {
    PhrasesNoMarks();
    JoinNoMarks(TAG_PHRASES, " ");
    JoinNoMarks(ORDER_PHRASES, " ");
    JoinStarts(TAG_PHRASES, " ");
    JoinStarts(ORDER_PHRASES, " ");
  }

  lemma FirstWordsPlain()
    ensures Plain(NAME_LIKE) && NAME_LIKE != "" && Plain(HOSTNAME_LIKE) && Plain(ESCAPE_END)
  {
  }

  lemma LastWordsPlain()
    ensures Plain(USERNAME_LIKE) && Plain(FOLDER_CLAUSE) && FOLDER_CLAUSE != ""
    ensures Plain(LIMIT_CLAUSE) && LIMIT_CLAUSE != ""
  {
  }

  /** The repository's own statement meets what the counting asks of its words. */
  lemma WordingIsLawful()
    ensures Lawful(WORDING)
  {
    SelectPlain();
    PhrasesPlain();
    FirstWordsPlain();
    LastWordsPlain();
  }

  // ---------------------------------------------------------------- what the statement asks for

  /** The conditions as the database reads them, a marker for each argument. */
  datatype Sql = Sql(like: string, folder: string, tag: string, limit: string)

  const CONDITIONS := Sql(
    " AND (name LIKE " + "?*" + (" ESCAPE '\\' OR hostname LIKE " + "?*") + (" ESCAPE '\\' OR username LIKE " + "?*")
      + " ESCAPE '\\')",
    " AND folder_id = " + "?*",
    " AND EXISTS (SELECT 1" + " " + ("FROM host_tags ht" + " " + ("WHERE ht.host_id = hosts.id" + " "
      + "AND ht.tag_id = ")) + "?*" + ")",
    " LIMIT " + "?*")

  /** A row of the host table, with the tags that the tag table gives it. */
  datatype Host = Host(name: string, hostname: string, username: string, folder: Option<Id>, tags: set<Id>)

  predicate IsLike(sql: Sql, c: Clause) {
    c.text == sql.like && |c.args| == 3 && c.args[0].Pattern? && c.args[1].Pattern? && c.args[2].Pattern?
  }

  predicate IsKeyed(c: Clause, text: string) {
    c.text == text && |c.args| == 1 && c.args[0].Key?
  }

  predicate IsCondition(sql: Sql, c: Clause) {
    IsLike(sql, c) || IsKeyed(c, sql.folder) || IsKeyed(c, sql.tag)
  }

  /** What a condition says of a host. */
  ghost predicate Meets(sql: Sql, c: Clause, h: Host)
    requires IsCondition(sql, c)
  {
    if IsLike(sql, c) then
      Like(c.args[0].text, h.name) || Like(c.args[1].text, h.hostname) || Like(c.args[2].text, h.username)
    else if IsKeyed(c, sql.folder) then h.folder == Some(c.args[0].id)
    else c.args[0].id in h.tags
  }

  /** The text somewhere in the host's names. */
  ghost predicate Shows(h: Host, q: string) {
    Contains(h.name, q) || Contains(h.hostname, q) || Contains(h.username, q)
  }

  /** What the user asked for: the text, unless it is blank, the folder, and every one of the tags. */
  ghost predicate Wanted(f: Filter, h: Host) {
    && (f.query.Some? && Trim(f.query.value) != "" ==> Shows(h, Trim(f.query.value)))
    && (f.folder.Some? ==> h.folder == f.folder)
    && forall i | 0 <= i < |f.tags| :: f.tags[i] in h.tags
  }

  /** The words of the statement make up the conditions, and no two of them read alike. */
  predicate Spells(w: Wording, sql: Sql) {
    && QueryText(w) == sql.like && w.folder + MARKER == sql.folder && TagText(w) == sql.tag
    && w.limit + MARKER == sql.limit
    && sql.like != sql.folder && sql.like != sql.tag && sql.folder != sql.tag
  }

  /** The clauses between the head of the statement and its order. */
  function Conditions(w: Wording, f: Filter): seq<Clause> {
    QueryClauses(w, f.query) + Keyed(w.folder, Held(f.folder)) + TagClauses(w, f.tags, |f.tags|)
  }

  predicate AllConditions(sql: Sql, cs: seq<Clause>) {
    forall c | c in cs :: IsCondition(sql, c)
  }

  ghost predicate AllMeet(sql: Sql, cs: seq<Clause>, h: Host)
    requires AllConditions(sql, cs)
  {
    forall c | c in cs :: Meets(sql, c, h)
  }

  lemma QueryMeets(w: Wording, sql: Sql, query: Option<string>, h: Host)
    requires Spells(w, sql)
    ensures
      var cs := QueryClauses(w, query);
      && AllConditions(sql, cs)
      && (AllMeet(sql, cs, h) <==> (query.Some? && Trim(query.value) != "" ==> Shows(h, Trim(query.value))))
  {
    var cs := QueryClauses(w, query);
    if cs != [] {
      var q := Trim(query.value);
      SearchIsContains(q, h.name);
      SearchIsContains(q, h.hostname);
      SearchIsContains(q, h.username);
      assert IsLike(sql, cs[0]) && (Meets(sql, cs[0], h) <==> Shows(h, q)) && cs == [cs[0]];
    }
  }

  lemma FolderMeets(w: Wording, sql: Sql, folder: Option<Id>, h: Host)
    requires Spells(w, sql)
    ensures
      var cs := Keyed(w.folder, Held(folder));
      AllConditions(sql, cs) && (AllMeet(sql, cs, h) <==> (folder.Some? ==> h.folder == folder))
  {
    var cs := Keyed(w.folder, Held(folder));
    if folder.Some? {
      assert IsKeyed(cs[0], sql.folder) && cs[0] in cs && cs == [cs[0]];
      assert Meets(sql, cs[0], h) <==> h.folder == folder;
    }
  }

  lemma AllMeetConcat(sql: Sql, a: seq<Clause>, b: seq<Clause>, h: Host)
    requires AllConditions(sql, a) && AllConditions(sql, b)
    ensures AllConditions(sql, a + b) && (AllMeet(sql, a + b, h) <==> AllMeet(sql, a, h) && AllMeet(sql, b, h))
  {
    assert forall c :: c in a + b <==> c in a || c in b;
  }

  lemma {:induction false} TagsMeet(w: Wording, sql: Sql, tags: seq<Id>, n: nat, h: Host)
    requires Spells(w, sql) && n <= |tags|
    ensures
      var cs := TagClauses(w, tags, n);
      AllConditions(sql, cs) && (AllMeet(sql, cs, h) <==> forall i | 0 <= i < n :: tags[i] in h.tags)
  {
    if n > 0 {
      TagsMeet(w, sql, tags, n - 1, h);
      var last := [Clause(TagText(w), [Key(tags[n - 1])])];
      assert IsKeyed(last[0], sql.tag) && last[0] in last && last == [last[0]];
      assert Meets(sql, last[0], h) <==> tags[n - 1] in h.tags;
      AllMeetConcat(sql, TagClauses(w, tags, n - 1), last, h);
    }
  }

  lemma ConditionsMeet(w: Wording, sql: Sql, f: Filter, h: Host)
    requires Spells(w, sql)
    ensures AllConditions(sql, Conditions(w, f)) && (AllMeet(sql, Conditions(w, f), h) <==> Wanted(f, h))
  {
    var a, b, c := QueryClauses(w, f.query), Keyed(w.folder, Held(f.folder)), TagClauses(w, f.tags, |f.tags|);
    QueryMeets(w, sql, f.query, h);
    FolderMeets(w, sql, f.folder, h);
    TagsMeet(w, sql, f.tags, |f.tags|, h);
    AllMeetConcat(sql, a, b, h);
    AllMeetConcat(sql, a + b, c, h);
  }

  /** The head, the conditions, the order, and the limit if there is one. */
  lemma ClausesInOrder(w: Wording, sql: Sql, f: Filter)
    requires Spells(w, sql)
    ensures Clauses(w, f)
         == [Clause(w.select, [])] + Conditions(w, f) + [Clause(w.order, [])]
            + (if f.limit.Some? then [Clause(sql.limit, [Limit(f.limit.value)])] else [])
  {
    var a, b, c := QueryClauses(w, f.query), Keyed(w.folder, Held(f.folder)), TagClauses(w, f.tags, |f.tags|);
    assert [Clause(w.select, [])] + a + b + c == [Clause(w.select, [])] + (a + b + c);
  }

  lemma JoinFour(a: string, b: string, c: string, d: string, separator: string)
    ensures Join([a, b, c, d], separator) == a + separator + (b + separator + (c + separator + d))
  {
    assert [a, b, c, d][1..] == [b, c, d] && [b, c, d][1..] == [c, d] && [c, d][1..] == [d];
    assert Join([d], separator) == d && Join([c, d], separator) == c + separator + d;
    assert Join([b, c, d], separator) == b + separator + Join([c, d], separator);
  }

  lemma TextsApart()
    ensures CONDITIONS.like != CONDITIONS.folder && CONDITIONS.like != CONDITIONS.tag
    ensures CONDITIONS.folder != CONDITIONS.tag
  {
    assert CONDITIONS.like[5] == " AND (name LIKE "[5] == '(';
    assert CONDITIONS.folder[5] == " AND folder_id = "[5] == 'f';
    assert CONDITIONS.tag[5] == " AND EXISTS (SELECT 1"[5] == 'E';
  }

  lemma WordingSpells()
    ensures Spells(WORDING, CONDITIONS)
  {
    TextsApart();
    JoinFour(" AND EXISTS (SELECT 1", "FROM host_tags ht", "WHERE ht.host_id = hosts.id", "AND ht.tag_id = ", " ");
  }

  /**
    The statement asks for what the user asked for. Read as the database reads them, the conditions of the statement
    for a filter hold of a host exactly when it holds the text, is in the folder and has all the tags; before them
    stands the head, after them the order, and last the limit with the number asked for, if there is one.
   */
  lemma SelectsTheWanted(f: Filter, h: Host)
    ensures AllConditions(CONDITIONS, Conditions(WORDING, f))
    ensures AllMeet(CONDITIONS, Conditions(WORDING, f), h) <==> Wanted(f, h)
    ensures Clauses(WORDING, f)
         == [Clause(WORDING.select, [])] + Conditions(WORDING, f) + [Clause(WORDING.order, [])]
            + (if f.limit.Some? then [Clause(CONDITIONS.limit, [Limit(f.limit.value)])] else [])
  {
    WordingSpells();
    ConditionsMeet(WORDING, CONDITIONS, f, h);
    ClausesInOrder(WORDING, CONDITIONS, f);
  }

  /** The pattern matches exactly the strings that contain the text. */
  ghost predicate Finds(pattern: string, q: string) {
    forall s :: Like(pattern, s) <==> Contains(s, q)
  }

  predicate Searches(f: Filter) {
    f.query.Some? && Trim(f.query.value) != ""
  }

  /** For a text that is not blank, the first three arguments find exactly the strings that contain it. */
  lemma FirstArgumentsSearch(w: Wording, f: Filter)
    requires Searches(f)
    ensures
      var args := Arguments(Clauses(w, f));
      |args| >= 3 && forall i | 0 <= i < 3 :: args[i].Pattern? && Finds(args[i].text, Trim(f.query.value))
  {
    ArgumentsInOrder(w, f);
    var p, q := PatternFor(f.query.value), Trim(f.query.value);
    forall s ensures Like(p, s) <==> Contains(s, q) {
      SearchIsContains(q, s);
    }
    var more := OptionalArgument(Held(f.folder)) + TagArguments(f.tags) + OptionalArgument(Bound(f.limit));
    assert Arguments(Clauses(w, f)) == [Pattern(p), Pattern(p), Pattern(p)] + more;
  }

  method ListHosts(f: Filter) returns (sql: string, args: seq<Arg>)
    ensures sql == Number(Statement(Clauses(WORDING, f)), 0) && args == Arguments(Clauses(WORDING, f))
    ensures Parameters(sql) == CountUp(0, |args|)
    ensures Searches(f) ==>
              |args| >= 3 && forall i | 0 <= i < 3 :: args[i].Pattern? && Finds(args[i].text, Trim(f.query.value))
  {
    WordingIsLawful();
    if Searches(f) {
      FirstArgumentsSearch(WORDING, f);
    }
    sql, args := BuildList(WORDING, f);
  }
}
