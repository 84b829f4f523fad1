/**
  Wildcard patterns for host names (`glob_match`, the same code in known_hosts.rs and parse.rs): `?` stands for
  one character, `*` for any number of them.

  Three readings of the same pattern meet here:
  - `Derives`, the grammar the documentation promises;
  - `Accepts`, the exact language of the code, in which a `*` of the pattern that meets a `*` of the
    value is consumed as an ordinary character;
  - `GlobMatch`, the loop with one backtrack point.
 */
module Glob {

  /** The promised grammar: `*` derives every string, `?` every character. */
  predicate Derives(p: string, v: string)
    decreases |p| + |v|
  {
    if p == "" then v == ""
    else if p[0] == '*' then Derives(p[1..], v) || (v != "" && Derives(p, v[1..]))
    else v != "" && (p[0] == '?' || p[0] == v[0]) && Derives(p[1..], v[1..])
  }

  /** One pattern character consumes one value character. */
  predicate Consumes(pc: char, vc: char) {
    pc == '?' || pc == vc
  }

  predicate AllStars(p: string, pi: nat)
    requires pi <= |p|
  {
    forall i | pi <= i < |p| :: p[i] == '*'
  }

  /**
    The language of the loop, from pattern position `pi` and value position `vi`: literal equality is
    compared before the wildcard, and a wildcard that is reached absorbs any run of characters.
   */
  predicate AcceptsFrom(p: string, pi: nat, v: string, vi: nat)
    requires pi <= |p| && vi <= |v|
    decreases |p| - pi, 0
  {
    if vi == |v| then AllStars(p, pi)
    else if pi == |p| then false
    else if Consumes(p[pi], v[vi]) then AcceptsFrom(p, pi + 1, v, vi + 1)
    else p[pi] == '*' && AcceptsSome(p, pi + 1, v, vi)
  }

  /** Some suffix of the value starting at or after `vi` is accepted from `pi`. */
  predicate AcceptsSome(p: string, pi: nat, v: string, vi: nat)
    requires pi <= |p| && vi <= |v|
    decreases |p| - pi, 1
  {
    exists k | vi <= k <= |v| :: AcceptsFrom(p, pi, v, k)
  }

  predicate Accepts(p: string, v: string) {
    AcceptsFrom(p, 0, v, 0)
  }

  /** In a list of patterns, one with a leading `!` rules a value out instead of in. */
  predicate Negated(pattern: string) {
    pattern != "" && pattern[0] == '!'
  }

  // ---------------------------------------------------------------- the loop

  /** The first value position is the only one left to try, or a later one is. */
  lemma SomeStep(p: string, pi: nat, v: string, vi: nat)
    requires pi <= |p| && vi < |v|
    ensures AcceptsSome(p, pi, v, vi) <==> AcceptsFrom(p, pi, v, vi) || AcceptsSome(p, pi, v, vi + 1)
  {
  }

  /**
    One backtrack point is enough. When `p[s..e]` has consumed `v[r..]` character by character and a
    wildcard is reached at `e`, every later start of the same stretch is covered by that wildcard.
   */
  lemma {:induction false} LastStarDominates(p: string, i: nat, e: nat, v: string, a: nat, w: nat)
    requires i <= e < |p| && p[e] == '*'
    requires w < |v| && e - i <= w
    requires forall j | i <= j < e :: Consumes(p[j], v[w - (e - j)])
    requires w - (e - i) <= a <= |v|
    requires AcceptsFrom(p, i, v, a)
    requires !Consumes(p[e], v[w])
    ensures AcceptsSome(p, e + 1, v, w)
    decreases e - i
  {
    if a == |v| {
      assert AcceptsFrom(p, e + 1, v, |v|);
    } else if i == e {
      if Consumes(p[e], v[a]) {
        assert AcceptsFrom(p, e + 1, v, a + 1);
      } else {
        var k :| a <= k <= |v| && AcceptsFrom(p, e + 1, v, k);
      }
    } else if Consumes(p[i], v[a]) {
      LastStarDominates(p, i + 1, e, v, a + 1, w);
    } else {
      var k :| a <= k <= |v| && AcceptsFrom(p, i + 1, v, k);
      assert a != w - (e - i);
      LastStarDominates(p, i + 1, e, v, k, w);
    }
  }

  /** The same at the end of the value: later starts cannot rescue a pattern that has run out of value. */
  lemma {:induction false} EndDominates(p: string, i: nat, e: nat, v: string, a: nat)
    requires i <= e <= |p| && e - i <= |v|
    requires forall j | i <= j < e :: Consumes(p[j], v[|v| - (e - j)])
    requires |v| - (e - i) <= a <= |v|
    requires AcceptsFrom(p, i, v, a)
    ensures AllStars(p, e)
    decreases e - i
  {
    if a == |v| {
    } else if Consumes(p[i], v[a]) {
      EndDominates(p, i + 1, e, v, a + 1);
    } else {
      var k :| a <= k <= |v| && AcceptsFrom(p, i + 1, v, k);
      EndDominates(p, i + 1, e, v, k);
    }
  }

  /**
    What the loop knows between iterations. Without a star the rest of the match decides; with one, the
    stretch after the star has consumed the value from `resume`, and every earlier start is ruled out.
   */
  ghost predicate Progress(p: string, v: string, pi: int, vi: int, star: int, resume: int) {
    && 0 <= pi <= |p| && 0 <= vi <= |v|
    && -1 <= star < pi && 0 <= resume <= vi
    && (star == -1 ==> resume == 0 && Accepts(p, v) == AcceptsFrom(p, pi, v, vi))
    && (star != -1 ==>
          && vi - resume == pi - (star + 1)
          && Accepts(p, v) == AcceptsSome(p, star + 1, v, resume)
          && AcceptsFrom(p, star + 1, v, resume) == AcceptsFrom(p, pi, v, vi)
          && forall j | star < j < pi :: Consumes(p[j], v[vi - (pi - j)]))
  }

  lemma StarStep(p: string, v: string, pi: nat, vi: nat, star: int, resume: nat)
    requires Progress(p, v, pi, vi, star, resume) && vi < |v| && pi < |p|
    requires p[pi] == '*' && !Consumes(p[pi], v[vi])
    ensures Progress(p, v, pi + 1, vi, pi, vi)
  {
    if star != -1 {
      if AcceptsSome(p, star + 1, v, resume) {
        var k :| resume <= k <= |v| && AcceptsFrom(p, star + 1, v, k);
        LastStarDominates(p, star + 1, pi, v, k, vi);
      } else {
        assert !AcceptsFrom(p, star + 1, v, resume);
      }
    }
  }

  lemma Finish(p: string, v: string, pi: nat, star: int, resume: nat)
    requires Progress(p, v, pi, |v|, star, resume)
    ensures Accepts(p, v) == AllStars(p, pi)
  {
    if star != -1 {
      if AcceptsSome(p, star + 1, v, resume) {
        var k :| resume <= k <= |v| && AcceptsFrom(p, star + 1, v, k);
        EndDominates(p, star + 1, pi, v, k);
      }
    }
  }

  /** `n` rounds of at most `size + 1` iterations each, written without multiplication. */
  ghost function Rounds(n: nat, size: nat): (r: nat) {
    if n == 0 then 0 else Rounds(n - 1, size) + size + 1
  }

  lemma RoundsMonotone(a: nat, b: nat, size: nat)
    requires a <= b
    ensures Rounds(a, size) <= Rounds(b, size)
  {
    if a < b {
      RoundsMonotone(a, b - 1, size);
    }
  }

  lemma {:induction false} RoundsProduct(n: nat, size: nat)
    ensures Rounds(n, size) == (size + 1) * n
  {
    if n > 0 {
      RoundsProduct(n - 1, size);
      assert (size + 1) * n == (size + 1) * (n - 1) + (size + 1);
    }
  }

  /**
    The matcher. `steps` counts the iterations of the main loop, which stay below
    (|pattern| + 1) * (|value| + 1): a hostile pattern costs no more than that.
   */
  method GlobMatch(pattern: string, value: string) returns (matched: bool, ghost steps: nat)
    ensures matched == Accepts(pattern, value)
    ensures steps < (|pattern| + 1) * (|value| + 1)
  {
    var p, v := pattern, value;
    var pi, vi := 0, 0;
    var star, resume := -1, 0;  // -1 stands for the unset star position
    steps := 0;
    RoundsProduct(|v| + 1, |p|);

    while vi < |v|
      invariant Progress(p, v, pi, vi, star, resume)
      invariant steps <= Rounds(resume, |p|) + pi
      decreases |v| - resume, |p| - pi
    {
      RoundsMonotone(resume, vi, |p|);
      steps := steps + 1;
      if pi < |p| && (p[pi] == '?' || p[pi] == v[vi]) {
        pi := pi + 1;
        vi := vi + 1;
      } else if pi < |p| && p[pi] == '*' {
        StarStep(p, v, pi, vi, star, resume);
        star := pi;
        resume := vi;
        pi := pi + 1;
      } else if star != -1 {
        SomeStep(p, star + 1, v, resume);
        pi := star + 1;
        resume := resume + 1;
        vi := resume;
      } else {
        RoundsMonotone(0, |v|, |p|);
        return false, steps;
      }
    }
    Finish(p, v, pi, star, resume);
    RoundsMonotone(resume, |v|, |p|);
    ghost var rest := pi;
    while pi < |p| && p[pi] == '*'
      invariant rest <= pi <= |p|
      invariant AllStars(p, rest) == AllStars(p, pi)
    {
      pi := pi + 1;
    }
    matched := pi == |p|;
  }

  // ---------------------------------------------------------------- the loop against the grammar

  lemma Tail(s: string, i: nat)
    requires i < |s|
    ensures s[i..] != "" && s[i..][0] == s[i] && s[i..][1..] == s[i + 1..]
  {
  }

  lemma StarsDeriveEmpty(p: string)
    ensures Derives(p, "") == AllStars(p, 0)
  {
    if p != "" && p[0] == '*' {
      StarsDeriveEmpty(p[1..]);
      assert forall i | 1 <= i < |p| :: p[i] == p[1..][i - 1];
      assert forall i | 0 <= i < |p| - 1 :: p[1..][i] == p[i + 1];
    }
  }

  /** A wildcard derives any run: it may give up `k - vi` characters one at a time. */
  lemma {:induction false} StarAbsorbs(p: string, v: string, k: nat)
    requires p != "" && p[0] == '*' && k <= |v|
    requires Derives(p[1..], v[k..])
    ensures Derives(p, v)
  {
    if k == 0 {
      assert v[0..] == v;
    } else {
      assert v[1..][k - 1..] == v[k..];
      StarAbsorbs(p, v[1..], k - 1);
    }
  }

  lemma {:induction false} StarSplits(p: string, v: string) returns (k: nat)
    requires p != "" && p[0] == '*' && Derives(p, v)
    ensures k <= |v| && Derives(p[1..], v[k..])
    decreases |v|
  {
    if Derives(p[1..], v) {
      k := 0;
      assert v[0..] == v;
    } else {
      var j := StarSplits(p, v[1..]);
      k := j + 1;
      assert v[1..][j..] == v[k..];
    }
  }

  /** Soundness on every input: what the loop accepts, the grammar derives. */
  lemma {:induction false} AcceptedIsDerived(p: string, pi: nat, v: string, vi: nat)
    requires pi <= |p| && vi <= |v|
    requires AcceptsFrom(p, pi, v, vi)
    ensures Derives(p[pi..], v[vi..])
    decreases |p| - pi
  {
    if vi == |v| {
      StarsDeriveEmpty(p[pi..]);
    } else {
      Tail(p, pi);
      Tail(v, vi);
      if Consumes(p[pi], v[vi]) {
        AcceptedIsDerived(p, pi + 1, v, vi + 1);
        if p[pi] == '*' {
          StarAbsorbs(p[pi..], v[vi..], 1);
        }
      } else {
        var k :| vi <= k <= |v| && AcceptsFrom(p, pi + 1, v, k);
        AcceptedIsDerived(p, pi + 1, v, k);
        assert v[vi..][k - vi..] == v[k..];
        StarAbsorbs(p[pi..], v[vi..], k - vi);
      }
    }
  }

  /** Completeness for values that hold no `*`. */
  lemma {:induction false} DerivedIsAccepted(p: string, pi: nat, v: string, vi: nat)
    requires pi <= |p| && vi <= |v| && '*' !in v
    requires Derives(p[pi..], v[vi..])
    ensures AcceptsFrom(p, pi, v, vi)
    decreases |p| - pi
  {
    if vi == |v| {
      StarsDeriveEmpty(p[pi..]);
      assert forall i | pi <= i < |p| :: p[i] == p[pi..][i - pi];
    } else if pi < |p| {
      Tail(p, pi);
      Tail(v, vi);
      if p[pi] == '*' {
        var k := StarSplits(p[pi..], v[vi..]);
        assert v[vi..][k..] == v[vi + k..];
        DerivedIsAccepted(p, pi + 1, v, vi + k);
      } else {
        DerivedIsAccepted(p, pi + 1, v, vi + 1);
      }
    }
  }

  /** A text used as a pattern derives and is accepted against itself, whatever it holds. */
  lemma {:induction false} SelfMatch(p: string, pi: nat)
    requires pi <= |p|
    ensures AcceptsFrom(p, pi, p, pi)
    decreases |p| - pi
  {
    if pi < |p| {
      SelfMatch(p, pi + 1);
    }
  }

  /** A pattern without wildcards accepts one value, itself. */
  lemma {:induction false} LiteralFrom(p: string, pi: nat, v: string, vi: nat)
    requires pi <= |p| && vi <= |v|
    requires '*' !in p && '?' !in p
    ensures AcceptsFrom(p, pi, v, vi) <==> p[pi..] == v[vi..]
    decreases |p| - pi
  {
    if vi < |v| && pi < |p| {
      LiteralFrom(p, pi + 1, v, vi + 1);
      assert p[pi..] == [p[pi]] + p[pi + 1..];
      assert v[vi..] == [v[vi]] + v[vi + 1..];
    } else if vi == |v| && pi < |p| {
      assert p[pi] in p;
    }
  }

  lemma LiteralPattern(p: string, v: string)
    requires '*' !in p && '?' !in p
    ensures Accepts(p, v) <==> p == v
  {
    LiteralFrom(p, 0, v, 0);
    assert p[0..] == p && v[0..] == v;
  }

  /** The pattern that a value holding a `*` defeats: derived, yet not accepted. */
  function Defeater(v: string, i: nat): string
    requires i < |v|
  {
    if i + 1 == |v| then v[..i] + "*?" else v[..i] + "*"
  }

  lemma {:induction false} PrefixConsumed(p: string, v: string, i: nat, j: nat)
    requires j <= i <= |p| && i <= |v|
    requires forall m | 0 <= m < i :: Consumes(p[m], v[m])
    ensures AcceptsFrom(p, j, v, j) == AcceptsFrom(p, i, v, i)
    decreases i - j
  {
    if j < i {
      PrefixConsumed(p, v, i, j + 1);
    }
  }

  lemma {:induction false} PrefixDerived(p: string, v: string, i: nat, j: nat)
    requires j <= i <= |p| && i <= |v|
    requires forall m | 0 <= m < i :: Consumes(p[m], v[m])
    requires Derives(p[i..], v[i..])
    ensures Derives(p[j..], v[j..])
    decreases i - j
  {
    if j < i {
      Tail(p, j);
      Tail(v, j);
      PrefixDerived(p, v, i, j + 1);
      if p[j] == '*' {
        StarAbsorbs(p[j..], v[j..], 1);
      }
    }
  }

  lemma DefeaterFails(v: string, i: nat)
    requires i < |v| && v[i] == '*'
    ensures Derives(Defeater(v, i), v) && !Accepts(Defeater(v, i), v)
  {
    var p := Defeater(v, i);
    PrefixConsumed(p, v, i + 1, 0);
    if i + 1 == |v| {
      assert p[i + 1] == '?';
      assert !AllStars(p, i + 1);
      assert p[i..] == "*?" && v[i..] == "*";
      assert Derives("?", "*") && "*?"[1..] == "?";
    } else {
      assert p[i..] == "*";
      assert v[i..][|v| - i..] == "";
      assert Derives("*"[1..], "");
      StarAbsorbs(p[i..], v[i..], |v| - i);
    }
    PrefixDerived(p, v, i, 0);
    assert p[0..] == p && v[0..] == v;
  }

  /** Whatever the loop accepts, the promised grammar derives. */
  lemma Sound(p: string, v: string)
    requires Accepts(p, v)
    ensures Derives(p, v)
  {
    AcceptedIsDerived(p, 0, v, 0);
    assert p[0..] == p && v[0..] == v;
  }

  /** The matcher keeps its promise for every pattern exactly on the values that hold no `*`. */
  lemma AgreesExactly(v: string)
    ensures (forall p :: Accepts(p, v) == Derives(p, v)) <==> '*' !in v
  {
    if '*' !in v {
      forall p ensures Accepts(p, v) == Derives(p, v) {
        assert p[0..] == p && v[0..] == v;
        if Derives(p, v) {
          DerivedIsAccepted(p, 0, v, 0);
        }
        if Accepts(p, v) {
          AcceptedIsDerived(p, 0, v, 0);
        }
      }
    } else {
      var i :| 0 <= i < |v| && v[i] == '*';
      DefeaterFails(v, i);
    }
  }
}
