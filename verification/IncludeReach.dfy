/**
  Which files an import reads: those the include lines of the files read lead to. Every target of an `Include`
  in a file read above the depth cap was itself visited, and read if it can be.
 */
module IncludeReach {
  import opened Options
  import opened Lexer
  import opened SshConfig
  import opened SshConfigLaws

  /** One of the directive's first `n` arguments leads to the path. */
  predicate ArgsLeadTo(w: World, base: string, d: Directive, n: nat, t: string)
    requires n <= |d.args|
  {
    exists a | 0 <= a < n :: t in w.targets(base, w.expandTilde(d.args[a]))
  }

  /** An `Include` among the first `n` directives leads to the path. */
  predicate LeadsTo(w: World, base: string, ds: seq<Directive>, n: nat, t: string)
    requires n <= |ds|
  {
    exists k | 0 <= k < n :: ds[k].keyword == "include" && ArgsLeadTo(w, base, ds[k], |ds[k].args|, t)
  }

  /** The file has a line that includes the path. */
  predicate Includes(w: World, file: string, t: string) {
    w.text(file).Some? && w.parent(file).Some?
    && var ds := Tokenize(w.text(file).value); LeadsTo(w, w.parent(file).value, ds, |ds|, t)
  }

  /** Everything the file includes was visited. */
  ghost predicate Covered(w: World, visited: set<string>, file: string) {
    forall t | Includes(w, file, t) :: w.canonical(t) in visited
  }

  /** One canonical path, one text. */
  ghost predicate Consistent(w: World) {
    forall a, b | w.canonical(a) == w.canonical(b) :: w.text(a) == w.text(b)
  }

  predicate WasRead(w: World, p: Progress, path: string) {
    exists i | 0 <= i < |p.filesRead| :: w.canonical(p.filesRead[i].0) == w.canonical(path)
  }

  /** Whatever was visited and can be read was read. */
  ghost predicate VisitedWereRead(w: World, p: Progress) {
    forall path | w.canonical(path) in p.visited && w.text(path).Some? :: WasRead(w, p, path)
  }

  ghost predicate NewFilesCovered(w: World, p: Progress, n: nat) {
    forall i | n <= i < |p.filesRead| && p.filesRead[i].1 < MAX_INCLUDE_DEPTH ::
      Covered(w, p.visited, p.filesRead[i].0)
  }

  /** From `p` to `q`: the files read in between have all they include visited. */
  ghost predicate Reaches(w: World, p: Progress, q: Progress) {
    && Extends(p, q)
    && NewFilesCovered(w, q, |p.filesRead|)
    && (Consistent(w) && VisitedWereRead(w, p) ==> VisitedWereRead(w, q))
  }

  lemma CoveredGrows(w: World, a: set<string>, b: set<string>, file: string)
    requires Covered(w, a, file) && a <= b
    ensures Covered(w, b, file)
  {
  }

  lemma ReachesTransitive(w: World, p: Progress, q: Progress, r: Progress)
    requires Reaches(w, p, q) && Reaches(w, q, r)
    ensures Reaches(w, p, r)
  {
    forall i | |p.filesRead| <= i < |r.filesRead| && r.filesRead[i].1 < MAX_INCLUDE_DEPTH
      ensures Covered(w, r.visited, r.filesRead[i].0)
    {
      if i < |q.filesRead| {
        assert r.filesRead[i] == q.filesRead[i];
        CoveredGrows(w, q.visited, r.visited, q.filesRead[i].0);
      }
    }
  }

  /** The same files and visits, and nothing else taken back. */
  lemma ReachesQuietly(w: World, p: Progress, q: Progress)
    requires Extends(p, q) && q.filesRead == p.filesRead && q.visited == p.visited
    ensures Reaches(w, p, q)
  {
    if VisitedWereRead(w, p) {
      forall path | w.canonical(path) in q.visited && w.text(path).Some? ensures WasRead(w, q, path) {
        assert WasRead(w, p, path);
      }
    }
  }

  lemma EnterReadsIt(w: World, path: string, depth: nat, p: Progress, q: Progress)
    requires q == Entered(w, path, depth, p)
    requires VisitedWereRead(w, p)
    ensures VisitedWereRead(w, q)
  {
    forall other | w.canonical(other) in q.visited && w.text(other).Some? ensures WasRead(w, q, other) {
      if w.canonical(other) == w.canonical(path) {
        assert q.filesRead[|p.filesRead|] == (path, depth);
      } else {
        assert WasRead(w, p, other);
        var i :| 0 <= i < |p.filesRead| && w.canonical(p.filesRead[i].0) == w.canonical(other);
        assert q.filesRead[i] == p.filesRead[i];
      }
    }
  }

  lemma UnreadableReaches(w: World, path: string, p: Progress)
    requires w.text(path).None?
    ensures Reaches(w, p, p.(visited := p.visited + {w.canonical(path)}))
  {
    var q := p.(visited := p.visited + {w.canonical(path)});
    if Consistent(w) && VisitedWereRead(w, p) {
      forall other | w.canonical(other) in q.visited && w.text(other).Some? ensures WasRead(w, q, other) {
        assert w.canonical(other) != w.canonical(path);
        assert WasRead(w, p, other);
      }
    }
  }

  /** A file entered, absorbed and flushed. */
  lemma FileReaches(w: World, path: string, depth: nat, p: Progress, q: Progress, r: Progress, final: Progress)
    requires q == Entered(w, path, depth, p)
    requires Reaches(w, q, r) && (depth < MAX_INCLUDE_DEPTH ==> Covered(w, r.visited, path))
    requires Extends(r, final) && final.filesRead == r.filesRead && final.visited == r.visited
    ensures Reaches(w, p, final)
  {
    ReachesQuietly(w, r, final);
    ReachesTransitive(w, q, r, final);
    assert q.filesRead[|p.filesRead|] == (path, depth) && final.filesRead[|p.filesRead|] == q.filesRead[|p.filesRead|];
    if VisitedWereRead(w, p) {
      EnterReadsIt(w, path, depth, p, q);
    }
    ExtendsTransitive(p, q, final);
  }

  lemma {:induction false} ParseReaches(w: World, path: string, depth: nat, p: Progress, after: Progress)
    requires after == ParseInto(w, path, depth, p)
    ensures Reaches(w, p, after)
    ensures depth <= MAX_INCLUDE_DEPTH ==> w.canonical(path) in after.visited
    decreases Rank(depth), 4, 0
  {
    if depth > MAX_INCLUDE_DEPTH || w.canonical(path) in p.visited {
      ReachesQuietly(w, p, after);
    } else if w.text(path).Some? {
      var ds := Tokenize(w.text(path).value);
      var q := Entered(w, path, depth, p);
      var r := AbsorbUpTo(w, ds, |ds|, path, depth, Reading(q, None, false));
      AbsorbReaches(w, ds, |ds|, path, depth, q, r);
      FileReaches(w, path, depth, p, q, r.p, after);
    } else {
      UnreadableReaches(w, path, p);
    }
  }

  /** All that the first `n` directives include is on the visit list. */
  ghost predicate PrefixCovered(w: World, visited: set<string>, file: string, ds: seq<Directive>, n: nat)
    requires n <= |ds|
  {
    w.parent(file).Some? ==> forall t | LeadsTo(w, w.parent(file).value, ds, n, t) :: w.canonical(t) in visited
  }

  /** All that the first `n` arguments lead to is on the visit list. */
  ghost predicate ArgsCovered(w: World, visited: set<string>, base: string, d: Directive, n: nat)
    requires n <= |d.args|
  {
    forall t | ArgsLeadTo(w, base, d, n, t) :: w.canonical(t) in visited
  }

  lemma PrefixNext(w: World, visited: set<string>, more: set<string>, file: string, ds: seq<Directive>, n: nat)
    requires n < |ds| && PrefixCovered(w, visited, file, ds, n) && visited <= more
    requires ds[n].keyword == "include" && w.parent(file).Some? ==>
               ArgsCovered(w, more, w.parent(file).value, ds[n], |ds[n].args|)
    ensures PrefixCovered(w, more, file, ds, n + 1)
  {
    if w.parent(file).Some? {
      var base := w.parent(file).value;
      forall t | LeadsTo(w, base, ds, n + 1, t) ensures w.canonical(t) in more {
        var k :| 0 <= k < n + 1 && ds[k].keyword == "include" && ArgsLeadTo(w, base, ds[k], |ds[k].args|, t);
        if k < n {
          assert LeadsTo(w, base, ds, n, t);
        }
      }
    }
  }

  lemma ReadReaches(w: World, file: string, before: Reading, d: Directive, after: Reading)
    requires after == Read(w, file, before, d)
    ensures Reaches(w, before.p, after.p)
  {
    ReadShape(w, file, before, before, d);
    FlushCounts(before.p.blocks, before.current);
    ReachesQuietly(w, before.p, after.p);
  }

  lemma {:induction false} AbsorbReaches(
      w: World, ds: seq<Directive>, n: nat, file: string, depth: nat, p: Progress, r: Reading)
    requires n <= |ds| && depth <= MAX_INCLUDE_DEPTH && r == AbsorbUpTo(w, ds, n, file, depth, Reading(p, None, false))
    ensures Reaches(w, p, r.p)
    ensures depth < MAX_INCLUDE_DEPTH ==> PrefixCovered(w, r.p.visited, file, ds, n)
    decreases Rank(depth), 3, n
  {
    if n == 0 {
      ReachesQuietly(w, p, p);
    } else {
      var before := AbsorbUpTo(w, ds, n - 1, file, depth, Reading(p, None, false));
      AbsorbReaches(w, ds, n - 1, file, depth, p, before);
      if ds[n - 1].keyword == "include" {
        IncludeReaches(w, ds[n - 1], file, depth, before.p, r.p);
      } else {
        ReadReaches(w, file, before, ds[n - 1], r);
      }
      ReachesTransitive(w, p, before.p, r.p);
      if depth < MAX_INCLUDE_DEPTH {
        PrefixNext(w, before.p.visited, r.p.visited, file, ds, n - 1);
      }
    }
  }

  lemma {:induction false} IncludeReaches(w: World, d: Directive, file: string, depth: nat, p: Progress, q: Progress)
    requires depth <= MAX_INCLUDE_DEPTH && q == Include(w, d, file, depth, p)
    ensures Reaches(w, p, q)
    ensures depth < MAX_INCLUDE_DEPTH && w.parent(file).Some? ==>
              ArgsCovered(w, q.visited, w.parent(file).value, d, |d.args|)
    decreases Rank(depth), 2, 0
  {
    match w.parent(file)
    case None => ReachesQuietly(w, p, q);
    case Some(base) => ArgsReach(w, d, |d.args|, base, file, depth, p, q);
  }

  predicate AllVisited(w: World, visited: set<string>, targets: seq<string>) {
    forall i | 0 <= i < |targets| :: w.canonical(targets[i]) in visited
  }

  lemma ArgsNext(w: World, visited: set<string>, more: set<string>, base: string, d: Directive, n: nat)
    requires n < |d.args| && ArgsCovered(w, visited, base, d, n) && visited <= more
    requires AllVisited(w, more, w.targets(base, w.expandTilde(d.args[n])))
    ensures ArgsCovered(w, more, base, d, n + 1)
  {
    forall t | ArgsLeadTo(w, base, d, n + 1, t) ensures w.canonical(t) in more {
      var a :| 0 <= a < n + 1 && t in w.targets(base, w.expandTilde(d.args[a]));
      if a < n {
        assert ArgsLeadTo(w, base, d, n, t);
      }
    }
  }

  lemma {:induction false} ArgsReach(
      w: World, d: Directive, n: nat, base: string, file: string, depth: nat, p: Progress, q: Progress)
    requires n <= |d.args| && depth <= MAX_INCLUDE_DEPTH && q == IncludeUpTo(w, d, n, base, file, depth, p)
    ensures Reaches(w, p, q)
    ensures depth < MAX_INCLUDE_DEPTH ==> ArgsCovered(w, q.visited, base, d, n)
    decreases Rank(depth), 1, n
  {
    if n == 0 {
      ReachesQuietly(w, p, q);
    } else {
      var before := IncludeUpTo(w, d, n - 1, base, file, depth, p);
      ArgsReach(w, d, n - 1, base, file, depth, p, before);
      var targets := w.targets(base, w.expandTilde(d.args[n - 1]));
      if targets == [] {
        ReachesQuietly(w, before, q);
      } else {
        FilesReach(w, targets, |targets|, depth, before, q);
      }
      ReachesTransitive(w, p, before, q);
      if depth < MAX_INCLUDE_DEPTH {
        ArgsNext(w, before.visited, q.visited, base, d, n - 1);
      }
    }
  }

  lemma {:induction false} FilesReach(w: World, targets: seq<string>, n: nat, depth: nat, p: Progress, q: Progress)
    requires n <= |targets| && depth <= MAX_INCLUDE_DEPTH && q == FilesUpTo(w, targets, n, depth, p)
    ensures Reaches(w, p, q)
    ensures depth < MAX_INCLUDE_DEPTH ==> AllVisited(w, q.visited, targets[..n])
    decreases Rank(depth), 0, n
  {
    if n == 0 {
      ReachesQuietly(w, p, q);
    } else {
      var before := FilesUpTo(w, targets, n - 1, depth, p);
      FilesReach(w, targets, n - 1, depth, p, before);
      ParseReaches(w, targets[n - 1], depth + 1, before, q);
      ReachesTransitive(w, p, before, q);
      assert targets[..n] == targets[..n - 1] + [targets[n - 1]];
    }
  }

  /**
    Over every include graph: whatever a file read above the depth cap includes was visited. And where one
    canonical path has one text, whatever was visited and can be read was read, the first file among them.
   */
  lemma IncludedFilesAreRead(w: World, path: string)
    ensures
      var p := ParseInto(w, path, 0, NOTHING);
      && w.canonical(path) in p.visited
      && (forall i, t |
            0 <= i < |p.filesRead| && p.filesRead[i].1 < MAX_INCLUDE_DEPTH && Includes(w, p.filesRead[i].0, t) ::
            w.canonical(t) in p.visited)
      && (Consistent(w) ==> VisitedWereRead(w, p))
  {
    var p := ParseInto(w, path, 0, NOTHING);
    ParseReaches(w, path, 0, NOTHING, p);
    assert VisitedWereRead(w, NOTHING);
    forall i, t | 0 <= i < |p.filesRead| && p.filesRead[i].1 < MAX_INCLUDE_DEPTH && Includes(w, p.filesRead[i].0, t)
      ensures w.canonical(t) in p.visited
    {
      assert Covered(w, p.visited, p.filesRead[i].0);
    }
  }
}
