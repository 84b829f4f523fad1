/**
  The folder table of the store (crates/core-store/src/folders.rs): creation, moves guarded by an ancestor
  walk, cascading deletion, and the listing that puts parents before children.

  Foreign keys, the case-insensitive uniqueness of sibling names, the cascade and the set-null rule belong
  to the schema (crates/core-store/migrations/0001_init.sql); they are written out here as the rows they let
  in and the rows they change.
 */
module Folders {
  import opened Options
  import opened Text

  type FolderId = int
  type HostId = int

  datatype Folder = Folder(parent: Option<FolderId>, name: string, position: int)

  type Table = map<FolderId, Folder>

  /** Folders, and for each host the folder it is filed in. */
  datatype Store = Store(folders: Table, hosts: map<HostId, Option<FolderId>>)

  const EMPTY := Store(map[], map[])

  datatype Outcome = Done | InvalidName | FolderCycle | NotFound | ConstraintFailed

  // ---------------------------------------------------------------- climbing

  /** The `n`-th ancestor, the folder itself being the zeroth. */
  function Climb(f: Table, x: FolderId, n: nat): Option<FolderId> {
    if n == 0 then Some(x)
    else
      match Climb(f, x, n - 1)
      case None => None
      case Some(y) => if y in f then f[y].parent else None
  }

  /** `a` is `x` or an ancestor of it. */
  ghost predicate Under(f: Table, a: FolderId, x: FolderId) {
    exists n: nat :: Climb(f, x, n) == Some(a)
  }

  predicate ParentsExist(f: Table) {
    forall x | x in f && f[x].parent.Some? :: f[x].parent.value in f
  }

  /** Climbing from `x` comes to an end. */
  ghost predicate Grounded(f: Table, x: FolderId) {
    exists n: nat :: Climb(f, x, n) == None
  }

  /** Every parent exists and no folder is its own ancestor. */
  ghost predicate Forest(f: Table) {
    ParentsExist(f) && forall x | x in f :: Grounded(f, x)
  }

  lemma {:induction false} ClimbAdds(f: Table, x: FolderId, m: nat, n: nat)
    ensures Climb(f, x, m + n) == match Climb(f, x, m) { case None => None case Some(y) => Climb(f, y, n) }
  {
    if n > 0 {
      ClimbAdds(f, x, m, n - 1);
      assert m + n - 1 == m + (n - 1);
    }
  }

  /** Climbing seen from the bottom: one step to the parent, then on from there. */
  lemma ClimbFirst(f: Table, x: FolderId, n: nat)
    ensures Climb(f, x, n + 1) ==
            if x in f && f[x].parent.Some? then Climb(f, f[x].parent.value, n) else None
  {
    assert Climb(f, x, 0) == Some(x);
    assert Climb(f, x, 1) == if x in f then f[x].parent else None;
    ClimbAdds(f, x, 1, n);
  }

  lemma {:induction false} ClimbStaysNone(f: Table, x: FolderId, m: nat, n: nat)
    requires m <= n && Climb(f, x, m) == None
    ensures Climb(f, x, n) == None
  {
    var rest: nat := n - m;
    ClimbAdds(f, x, m, rest);
  }

  lemma {:induction false} ClimbStaysIn(f: Table, x: FolderId, n: nat)
    requires ParentsExist(f) && x in f
    ensures Climb(f, x, n).Some? ==> Climb(f, x, n).value in f
  {
    if n > 0 {
      ClimbStaysIn(f, x, n - 1);
    }
  }

  lemma {:induction false} CyclesForever(f: Table, x: FolderId, n: nat, times: nat)
    requires n > 0 && Climb(f, x, n) == Some(x)
    ensures Climb(f, x, n * times) == Some(x) && n * times >= times
  {
    if times > 0 {
      CyclesForever(f, x, n, times - 1);
      assert n * times == n * (times - 1) + n;
      ClimbAdds(f, x, n * (times - 1), n);
    }
  }

  /** In a forest no folder is found again further up. */
  lemma NoCycle(f: Table, x: FolderId, n: nat)
    requires Grounded(f, x) && n > 0
    ensures Climb(f, x, n) != Some(x)
  {
    if Climb(f, x, n) == Some(x) {
      var k: nat :| Climb(f, x, k) == None;
      CyclesForever(f, x, n, k);
      ClimbStaysNone(f, x, k, n * k);
    }
  }

  // ---------------------------------------------------------------- the rows a statement touches

  /** Another folder under the same parent with the same name, case aside. */
  predicate Clashes(f: Table, id: FolderId, parent: Option<FolderId>, name: string) {
    exists y | y in f :: y != id && f[y].parent == parent && Lower(f[y].name) == Lower(name)
  }

  predicate ForeignKeyHolds(f: Table, parent: Option<FolderId>) {
    parent.None? || parent.value in f
  }

  function Siblings(f: Table, parent: Option<FolderId>): set<FolderId> {
    set x | x in f && f[x].parent == parent
  }

  /** One more than the largest position held in `ids`. */
  ghost predicate OnePast(f: Table, ids: set<FolderId>, p: int)
    requires ids <= f.Keys
  {
    (forall x | x in ids :: f[x].position < p) && exists x | x in ids :: f[x].position + 1 == p
  }

  ghost predicate IsNext(f: Table, ids: set<FolderId>, p: int)
    requires ids <= f.Keys
  {
    if ids == {} then p == 0 else OnePast(f, ids, p)
  }

  lemma Inhabited(ids: set<FolderId>)
    ensures ids == {} || exists x :: x in ids
  {
    if forall x :: x !in ids {
      assert ids == {};
    }
  }

  lemma {:induction false} NextExists(f: Table, ids: set<FolderId>)
    requires ids <= f.Keys
    ensures exists p :: IsNext(f, ids, p)
  {
    if ids == {} {
      assert IsNext(f, ids, 0);
    } else {
      Inhabited(ids);
      var x :| x in ids;
      var others := ids - {x};
      NextExists(f, others);
      var q :| IsNext(f, others, q);
      var p := if others == {} || f[x].position >= q then f[x].position + 1 else q;
      assert forall y | y in ids :: y == x || y in others;
      assert IsNext(f, ids, p);
    }
  }

  lemma OnePastIsUnique(f: Table, ids: set<FolderId>, p: int, q: int)
    requires ids <= f.Keys && IsNext(f, ids, p) && IsNext(f, ids, q)
    ensures p == q
  {
  }

  /** Where a new folder goes: behind all its siblings. */
  ghost function NextPosition(f: Table, parent: Option<FolderId>): (p: int)
    ensures IsNext(f, Siblings(f, parent), p)
  {
    NextExists(f, Siblings(f, parent));
    var p :| IsNext(f, Siblings(f, parent), p);
    p
  }

  ghost function Subtree(f: Table, id: FolderId): set<FolderId> {
    set x | x in f && Under(f, id, x)
  }

  function Without(f: Table, gone: set<FolderId>): Table {
    map x | x in f && x !in gone :: f[x]
  }

  /** Hosts filed in a folder that is gone are filed nowhere; no host goes with it. */
  function Orphaned(hosts: map<HostId, Option<FolderId>>, gone: set<FolderId>): map<HostId, Option<FolderId>> {
    map h | h in hosts :: if hosts[h].Some? && hosts[h].value in gone then None else hosts[h]
  }

  /** `newId` and `newHost` are row ids the database hands out. */
  datatype Op =
    | Create(newId: FolderId, parent: Option<FolderId>, name: string)
    | Rename(id: FolderId, name: string)
    | Reparent(id: FolderId, to: Option<FolderId>)
    | Delete(id: FolderId)
    | AddHost(newHost: HostId, folder: Option<FolderId>)
    | FileHost(host: HostId, folder: Option<FolderId>)

  predicate Sensible(s: Store, op: Op) {
    (op.Create? ==> op.newId !in s.folders) && (op.AddHost? ==> op.newHost !in s.hosts)
  }

  ghost function Apply(s: Store, op: Op): (Store, Outcome)
    requires Sensible(s, op)
  {
    var f := s.folders;
    match op
    case Create(newId, parent, name) =>
      var n := Trim(name);
      if n == "" then (s, InvalidName)
      else if !ForeignKeyHolds(f, parent) || Clashes(f, newId, parent, n) then (s, ConstraintFailed)
      else (s.(folders := f[newId := Folder(parent, n, NextPosition(f, parent))]), Done)
    case Rename(id, name) =>
      var n := Trim(name);
      if n == "" then (s, InvalidName)
      else if id !in f then (s, NotFound)
      else if Clashes(f, id, f[id].parent, n) then (s, ConstraintFailed)
      else (s.(folders := f[id := f[id].(name := n)]), Done)
    case Reparent(id, to) =>
      if to.Some? && Under(f, id, to.value) then (s, FolderCycle)
      else if id !in f then (s, NotFound)
      else if !ForeignKeyHolds(f, to) || Clashes(f, id, to, f[id].name) then (s, ConstraintFailed)
      else (s.(folders := f[id := f[id].(parent := to)]), Done)
    case Delete(id) =>
      if id !in f then (s, NotFound)
      else (Store(Without(f, Subtree(f, id)), Orphaned(s.hosts, Subtree(f, id))), Done)
    case AddHost(newHost, folder) =>
      if !ForeignKeyHolds(f, folder) then (s, ConstraintFailed)
      else (s.(hosts := s.hosts[newHost := folder]), Done)
    case FileHost(host, folder) =>
      if host !in s.hosts then (s, NotFound)
      else if !ForeignKeyHolds(f, folder) then (s, ConstraintFailed)
      else (s.(hosts := s.hosts[host := folder]), Done)
  }

  /** Exactly the folders under the one named are gone, and of the hosts only the filing of those in them. */
  ghost predicate TakesTheSubtree(s: Store, t: Store, id: FolderId) {
    && (forall x | x in s.folders :: x in t.folders <==> !Under(s.folders, id, x))
    && (forall x | x in t.folders :: x in s.folders && t.folders[x] == s.folders[x])
    && t.hosts.Keys == s.hosts.Keys
    && (forall h | h in s.hosts ::
          t.hosts[h] == if s.hosts[h].Some? && Under(s.folders, id, s.hosts[h].value) then None else s.hosts[h])
  }

  lemma {:induction false} ClimbsFromAFolder(f: Table, x: FolderId, n: nat)
    requires Climb(f, x, n).Some? && (n == 0 ==> x in f)
    ensures x in f
  {
    if n > 1 {
      ClimbsFromAFolder(f, x, n - 1);
    } else if n == 1 {
      assert Climb(f, x, 0) == Some(x);
    }
  }

  lemma DeleteTakesTheSubtree(s: Store, id: FolderId)
    requires id in s.folders
    ensures TakesTheSubtree(s, Apply(s, Delete(id)).0, id)
  {
    forall x | Under(s.folders, id, x) ensures x in s.folders {
      var n: nat :| Climb(s.folders, x, n) == Some(id);
      ClimbsFromAFolder(s.folders, x, n);
    }
  }

  // ---------------------------------------------------------------- levels

  function Entries(rows: seq<FolderId>): set<FolderId> {
    set x | x in rows
  }

  predicate Distinct(rows: seq<FolderId>) {
    forall i, j | 0 <= i < j < |rows| :: rows[i] != rows[j]
  }

  predicate ParentBefore(f: Table, earlier: seq<FolderId>, x: FolderId) {
    x in f && (f[x].parent.Some? ==> f[x].parent.value in earlier)
  }

  /** Every row's parent stands before it. */
  predicate ParentsFirst(f: Table, rows: seq<FolderId>) {
    forall i | 0 <= i < |rows| :: ParentBefore(f, rows[..i], rows[i])
  }

  /** Lexicographic order. */
  predicate TextUpTo(a: string, b: string) {
    || a == ""
    || (b != "" && (a[0] < b[0] || (a[0] == b[0] && TextUpTo(a[1..], b[1..]))))
  }

  lemma {:induction false} TextTotal(a: string, b: string)
    ensures TextUpTo(a, b) || TextUpTo(b, a)
  {
    if a != "" && b != "" {
      TextTotal(a[1..], b[1..]);
    }
  }

  lemma {:induction false} TextTransitive(a: string, b: string, c: string)
    requires TextUpTo(a, b) && TextUpTo(b, c)
    ensures TextUpTo(a, c)
  {
    if a != "" && a[0] == b[0] == c[0] {
      TextTransitive(a[1..], b[1..], c[1..]);
    }
  }

  /** By position, then by name without regard to case. */
  predicate NotAfter(f: Table, x: FolderId, y: FolderId) {
    x in f && y in f &&
    (f[x].position < f[y].position
     || (f[x].position == f[y].position && TextUpTo(Lower(f[x].name), Lower(f[y].name))))
  }

  lemma NotAfterTotal(f: Table, x: FolderId, y: FolderId)
    requires x in f && y in f
    ensures NotAfter(f, x, y) || NotAfter(f, y, x)
  {
    TextTotal(Lower(f[x].name), Lower(f[y].name));
  }

  lemma NotAfterTransitive(f: Table, x: FolderId, y: FolderId, z: FolderId)
    requires NotAfter(f, x, y) && NotAfter(f, y, z)
    ensures NotAfter(f, x, z)
  {
    if f[x].position == f[y].position == f[z].position {
      TextTransitive(Lower(f[x].name), Lower(f[y].name), Lower(f[z].name));
    }
  }

  /** The texts agree up to `k`; there the first ends, or has the smaller character. */
  predicate DecidedAt(a: string, b: string, k: nat) {
    k <= |a| && k <= |b| && a[..k] == b[..k] && (k == |a| || (k < |b| && a[k] < b[k]))
  }

  lemma {:induction false} TextUpToMeans(a: string, b: string)
    ensures TextUpTo(a, b) <==> exists k: nat :: DecidedAt(a, b, k)
  {
    if a == "" || b == "" || a[0] != b[0] {
      assert TextUpTo(a, b) ==> DecidedAt(a, b, 0);
      if k: nat :| DecidedAt(a, b, k) && k > 0 {
        assert a[..k][0] == b[..k][0];
      }
    } else {
      TextUpToMeans(a[1..], b[1..]);
      if k: nat :| DecidedAt(a[1..], b[1..], k) {
        assert a[..k + 1] == [a[0]] + a[1..][..k] && b[..k + 1] == [b[0]] + b[1..][..k];
        assert DecidedAt(a, b, k + 1);
      }
      if k: nat :| DecidedAt(a, b, k) {
        assert k > 0 ==> a[1..][..k - 1] == a[..k][1..] && b[1..][..k - 1] == b[..k][1..];
        assert k > 0 ==> DecidedAt(a[1..], b[1..], k - 1);
      }
    }
  }

  /** The listing's order among folders as deep: the lower position first, and at one position the name, case aside. */
  lemma OrderMeans(f: Table, x: FolderId, y: FolderId)
    requires x in f && y in f
    ensures NotAfter(f, x, y) <==>
              || f[x].position < f[y].position
              || (f[x].position == f[y].position
                  && exists k: nat :: DecidedAt(Lower(f[x].name), Lower(f[y].name), k))
  {
    TextUpToMeans(Lower(f[x].name), Lower(f[y].name));
  }

  predicate First(f: Table, ids: set<FolderId>, x: FolderId) {
    x in ids && forall y | y in ids :: NotAfter(f, x, y)
  }

  lemma {:induction false} FirstExists(f: Table, ids: set<FolderId>) returns (x: FolderId)
    requires ids != {} && ids <= f.Keys
    ensures First(f, ids, x)
  {
    Inhabited(ids);
    var y :| y in ids;
    var others := ids - {y};
    NotAfterTotal(f, y, y);
    if others == {} {
      assert ids == {y};
      return y;
    }
    var z := FirstExists(f, others);
    NotAfterTotal(f, y, z);
    if NotAfter(f, z, y) {
      return z;
    }
    forall w | w in others ensures NotAfter(f, y, w) {
      NotAfterTransitive(f, y, z, w);
    }
    return y;
  }

  function ChildrenOf(f: Table, parents: set<FolderId>): set<FolderId> {
    set x | x in f && f[x].parent.Some? && f[x].parent.value in parents
  }

  /** The folders at depth `n` below the roots. */
  function Level(f: Table, n: nat): set<FolderId> {
    if n == 0 then set x | x in f && f[x].parent.None? else ChildrenOf(f, Level(f, n - 1))
  }

  /** Less deep, or as deep and not after. */
  ghost predicate RowBefore(f: Table, x: FolderId, y: FolderId) {
    forall m: nat, n: nat | x in Level(f, m) && y in Level(f, n) ::
      m < n || (m == n && NotAfter(f, x, y))
  }

  ghost predicate RowsOrdered(f: Table, rows: seq<FolderId>) {
    forall i, j | 0 <= i < j < |rows| :: RowBefore(f, rows[i], rows[j])
  }

  lemma ChildIsUnder(f: Table, a: FolderId, x: FolderId)
    requires x in f && f[x].parent.Some? && Under(f, a, f[x].parent.value)
    ensures Under(f, a, x)
  {
    var n: nat :| Climb(f, f[x].parent.value, n) == Some(a);
    ClimbFirst(f, x, n);
  }

  lemma {:induction false} ClosedUnderChildren(f: Table, gone: set<FolderId>, a: FolderId, x: FolderId, n: nat)
    requires a in gone && x in f && Climb(f, x, n) == Some(a)
    requires ChildrenOf(f, gone) <= gone
    requires ParentsExist(f)
    ensures x in gone
    decreases n
  {
    if n > 0 {
      ClimbFirst(f, x, n - 1);
      ClosedUnderChildren(f, gone, a, f[x].parent.value, n - 1);
      assert x in ChildrenOf(f, gone);
    }
  }

  /** The level of a folder is how many steps climbing takes to the root. */
  lemma {:induction false} LevelIsHeight(f: Table, x: FolderId, n: nat)
    requires x in Level(f, n)
    ensures x in f && Climb(f, x, n).Some? && Climb(f, x, n + 1) == None
    decreases n
  {
    ClimbFirst(f, x, n);
    if n > 0 {
      LevelIsHeight(f, f[x].parent.value, n - 1);
      ClimbFirst(f, x, n - 1);
    } else {
      assert Climb(f, x, 0) == Some(x);
    }
  }

  lemma LevelNotLower(f: Table, x: FolderId, m: nat, n: nat)
    requires x in Level(f, m) && x in Level(f, n)
    ensures n <= m
  {
    LevelIsHeight(f, x, m);
    LevelIsHeight(f, x, n);
    if m + 1 <= n {
      ClimbStaysNone(f, x, m + 1, n);
    }
  }

  lemma LevelUnique(f: Table, x: FolderId, m: nat, n: nat)
    requires x in Level(f, m) && x in Level(f, n)
    ensures m == n
  {
    LevelNotLower(f, x, m, n);
    LevelNotLower(f, x, n, m);
  }

  lemma {:induction false} EmptyLevelEnds(f: Table, d: nat, n: nat)
    requires Level(f, d) == {} && d <= n
    ensures Level(f, n) == {}
    decreases n - d
  {
    if d < n {
      EmptyLevelEnds(f, d, n - 1);
    }
  }

  ghost predicate Listed(f: Table, x: FolderId) {
    exists n: nat :: x in Level(f, n)
  }

  ghost predicate ListedAbove(f: Table, x: FolderId, d: nat) {
    exists n: nat :: n < d && x in Level(f, n)
  }

  lemma NothingBelow(f: Table, x: FolderId, d: nat)
    requires Level(f, d) == {}
    ensures Listed(f, x) <==> ListedAbove(f, x, d)
  {
    if Listed(f, x) {
      var n: nat :| x in Level(f, n);
      if d <= n {
        EmptyLevelEnds(f, d, n);
      }
    }
    if ListedAbove(f, x, d) {
      var n: nat :| n < d && x in Level(f, n);
    }
  }

  lemma NotYetListed(f: Table, x: FolderId, d: nat)
    requires x in Level(f, d)
    ensures !ListedAbove(f, x, d)
  {
    if ListedAbove(f, x, d) {
      var n: nat :| n < d && x in Level(f, n);
      LevelUnique(f, x, n, d);
    }
  }

  lemma ListedOneMore(f: Table, x: FolderId, d: nat)
    ensures ListedAbove(f, x, d + 1) <==> ListedAbove(f, x, d) || x in Level(f, d)
  {
    if ListedAbove(f, x, d + 1) {
      var n: nat :| n < d + 1 && x in Level(f, n);
      assert n < d || n == d;
    }
    if ListedAbove(f, x, d) {
      var n: nat :| n < d && x in Level(f, n);
      assert n < d + 1;
    }
  }

  lemma ParentOfNewRow(f: Table, rows: seq<FolderId>, x: FolderId, d: nat)
    requires forall y :: y in rows <==> ListedAbove(f, y, d)
    requires x in Level(f, d)
    ensures ParentBefore(f, rows, x)
  {
    LevelIsHeight(f, x, d);
    if f[x].parent.Some? {
      assert d > 0;
      assert f[x].parent.value in Level(f, d - 1);
      assert ListedAbove(f, f[x].parent.value, d);
    }
  }

  lemma ParentsFirstAppend(f: Table, rows: seq<FolderId>, more: seq<FolderId>)
    requires ParentsFirst(f, rows)
    requires forall x | x in more :: ParentBefore(f, rows, x)
    ensures ParentsFirst(f, rows + more)
  {
    var all := rows + more;
    forall i | 0 <= i < |all| ensures ParentBefore(f, all[..i], all[i]) {
      if i < |rows| {
        assert all[..i] == rows[..i];
        assert ParentBefore(f, rows[..i], rows[i]);
      } else {
        assert all[i] in more;
        assert all[..i] == rows + more[..i - |rows|];
      }
    }
  }

  lemma DistinctAppend(rows: seq<FolderId>, more: seq<FolderId>)
    requires Distinct(rows) && Distinct(more) && forall x | x in more :: x !in rows
    ensures Distinct(rows + more)
  {
    forall i, j | 0 <= i < j < |rows + more| ensures (rows + more)[i] != (rows + more)[j] {
      if i < |rows| <= j {
        assert (rows + more)[j] == more[j - |rows|];
        assert more[j - |rows|] in more;
      }
    }
  }

  lemma AboveIsSmaller(f: Table, x: FolderId, y: FolderId, d: nat)
    requires ListedAbove(f, x, d) && y in Level(f, d)
    ensures RowBefore(f, x, y)
  {
    var k: nat :| k < d && x in Level(f, k);
    forall m: nat, n: nat | x in Level(f, m) && y in Level(f, n)
      ensures m < n
    {
      LevelUnique(f, x, m, k);
      LevelUnique(f, y, n, d);
    }
  }

  lemma PeersInOrder(f: Table, x: FolderId, y: FolderId, d: nat)
    requires x in Level(f, d) && y in Level(f, d) && NotAfter(f, x, y)
    ensures RowBefore(f, x, y)
  {
    forall m: nat, n: nat | x in Level(f, m) && y in Level(f, n)
      ensures m == n
    {
      LevelUnique(f, x, m, d);
      LevelUnique(f, y, n, d);
    }
  }

  lemma OrderedAppend(f: Table, rows: seq<FolderId>, more: seq<FolderId>, d: nat)
    requires RowsOrdered(f, rows)
    requires forall x | x in rows :: ListedAbove(f, x, d)
    requires forall x | x in more :: x in Level(f, d)
    requires forall i, j | 0 <= i < j < |more| :: NotAfter(f, more[i], more[j])
    ensures RowsOrdered(f, rows + more)
  {
    var all := rows + more;
    forall i, j | 0 <= i < j < |all| ensures RowBefore(f, all[i], all[j]) {
      if j < |rows| {
        assert RowBefore(f, rows[i], rows[j]);
      } else if i < |rows| {
        assert all[i] in rows && all[j] in more;
        AboveIsSmaller(f, all[i], all[j], d);
      } else {
        var a, b := i - |rows|, j - |rows|;
        assert all[i] == more[a] && all[j] == more[b] && more[a] in more && more[b] in more;
        PeersInOrder(f, all[i], all[j], d);
      }
    }
  }

  // ---------------------------------------------------------------- the repository

  class FolderRepo {
    var folders: Table
    var hosts: map<HostId, Option<FolderId>>

    ghost function View(): Store
      reads this
    {
      Store(folders, hosts)
    }

    constructor ()
      ensures View() == EMPTY
    {
      folders, hosts := map[], map[];
    }

    /** One past the largest position among the siblings, or 0 when there are none. */
    method EndOfSiblings(parent: Option<FolderId>) returns (position: int)
      ensures position == NextPosition(folders, parent)
    {
      var left := Siblings(folders, parent);
      position := 0;
      if left != {} {
        Inhabited(left);
        var top :| top in left;
        left := left - {top};
        position := folders[top].position + 1;
        ghost var seen := {top};
        while left != {}
          invariant left + seen == Siblings(folders, parent) && seen !! left
          invariant OnePast(folders, seen, position)
          decreases left
        {
          Inhabited(left);
          var x :| x in left;
          if folders[x].position >= position {
            position := folders[x].position + 1;
          }
          left, seen := left - {x}, seen + {x};
        }
        assert seen == Siblings(folders, parent);
      }
      OnePastIsUnique(folders, Siblings(folders, parent), position, NextPosition(folders, parent));
    }

    method CreateFolder(newId: FolderId, parent: Option<FolderId>, name: string) returns (r: Outcome)
      requires newId !in folders
      modifies this
      ensures (View(), r) == Apply(old(View()), Create(newId, parent, name))
    {
      var n := Trim(name);
      if n == "" {
        return InvalidName;
      }
      var position := EndOfSiblings(parent);
      if !ForeignKeyHolds(folders, parent) || Clashes(folders, newId, parent, n) {
        return ConstraintFailed;
      }
      folders := folders[newId := Folder(parent, n, position)];
      return Done;
    }

    method RenameFolder(id: FolderId, name: string) returns (r: Outcome)
      modifies this
      ensures (View(), r) == Apply(old(View()), Rename(id, name))
    {
      var n := Trim(name);
      if n == "" {
        return InvalidName;
      }
      if id !in folders {
        return NotFound;
      }
      if Clashes(folders, id, folders[id].parent, n) {
        return ConstraintFailed;
      }
      folders := folders[id := folders[id].(name := n)];
      return Done;
    }

    /** The ancestor walk: is `id` met on the way up from `target`? */
    method MeetsAncestor(target: FolderId, id: FolderId) returns (met: bool)
      requires Forest(folders)
      ensures met == Under(folders, id, target)
    {
      ghost var top: nat := 1;
      if target in folders {
        top :| Climb(folders, target, top) == None;
      } else {
        assert Climb(folders, target, 0) == Some(target);
      }
      var current := Some(target);
      ghost var i: nat := 0;
      while current.Some?
        invariant i <= top && current == Climb(folders, target, i)
        invariant forall k: nat | k < i :: Climb(folders, target, k) != Some(id)
        decreases top - i
      {
        if current.value == id {
          return true;
        }
        if i == top {
          assert false;
        }
        current := if current.value in folders then folders[current.value].parent else None;
        i := i + 1;
      }
      forall n: nat ensures Climb(folders, target, n) != Some(id) {
        if n >= i {
          ClimbStaysNone(folders, target, i, n);
        }
      }
      return false;
    }

    /** The folder gets another parent; one that is the folder itself or lies below it is refused. */
    method ReparentFolder(id: FolderId, to: Option<FolderId>) returns (r: Outcome)
      requires Forest(folders)
      modifies this
      ensures (View(), r) == Apply(old(View()), Reparent(id, to))
    {
      if Some(id) == to {
        assert Climb(folders, id, 0) == Some(id);
        return FolderCycle;
      }
      if to.Some? {
        var met := MeetsAncestor(to.value, id);
        if met {
          return FolderCycle;
        }
      }
      if id !in folders {
        return NotFound;
      }
      if !ForeignKeyHolds(folders, to) || Clashes(folders, id, to, folders[id].name) {
        return ConstraintFailed;
      }
      folders := folders[id := folders[id].(parent := to)];
      return Done;
    }

    /** The cascade: rows whose parent row goes, go. */
    method Cascade(id: FolderId) returns (gone: set<FolderId>)
      requires Forest(folders) && id in folders
      ensures gone == Subtree(folders, id)
    {
      gone := {id};
      assert Climb(folders, id, 0) == Some(id);
      var next := ChildrenOf(folders, gone) - gone;
      while next != {}
        invariant id in gone && gone <= folders.Keys
        invariant forall x | x in gone :: Under(folders, id, x)
        invariant next == ChildrenOf(folders, gone) - gone
        decreases folders.Keys - gone
      {
        forall x | x in next ensures Under(folders, id, x) {
          ChildIsUnder(folders, id, x);
        }
        gone := gone + next;
        next := ChildrenOf(folders, gone) - gone;
      }
      assert ChildrenOf(folders, gone) - gone == {};
      forall x | x in ChildrenOf(folders, gone) ensures x in gone {
        assert x in gone || x in ChildrenOf(folders, gone) - gone;
      }
      forall x | x in folders && Under(folders, id, x) ensures x in gone {
        var n: nat :| Climb(folders, x, n) == Some(id);
        ClosedUnderChildren(folders, gone, id, x, n);
      }
    }

    /** Delete a folder with its subfolders; hosts stay and lose only their folder. */
    method DeleteFolder(id: FolderId) returns (r: Outcome)
      requires Forest(folders)
      modifies this
      ensures (View(), r) == Apply(old(View()), Delete(id))
      ensures r == Done ==> TakesTheSubtree(old(View()), View(), id)
    {
      if id !in folders {
        return NotFound;
      }
      DeleteTakesTheSubtree(View(), id);
      var gone := Cascade(id);
      folders := Without(folders, gone);
      hosts := Orphaned(hosts, gone);
      return Done;
    }

    method AddHostIn(newHost: HostId, folder: Option<FolderId>) returns (r: Outcome)
      requires newHost !in hosts
      modifies this
      ensures (View(), r) == Apply(old(View()), AddHost(newHost, folder))
    {
      if !ForeignKeyHolds(folders, folder) {
        return ConstraintFailed;
      }
      hosts := hosts[newHost := folder];
      return Done;
    }

    method FileHostIn(host: HostId, folder: Option<FolderId>) returns (r: Outcome)
      modifies this
      ensures (View(), r) == Apply(old(View()), FileHost(host, folder))
    {
      if host !in hosts {
        return NotFound;
      }
      if !ForeignKeyHolds(folders, folder) {
        return ConstraintFailed;
      }
      hosts := hosts[host := folder];
      return Done;
    }

    method SortedLevel(level: set<FolderId>, ghost d: nat) returns (rows: seq<FolderId>)
      requires level == Level(folders, d)
      ensures Distinct(rows) && forall x :: x in rows <==> x in level
      ensures forall i, j | 0 <= i < j < |rows| :: NotAfter(folders, rows[i], rows[j])
    {
      rows := [];
      var left := level;
      while left != {}
        invariant left <= level <= folders.Keys && Distinct(rows)
        invariant forall x :: x in rows <==> x in level && x !in left
        invariant forall x, y | x in rows && y in left :: NotAfter(folders, x, y)
        invariant forall i, j | 0 <= i < j < |rows| :: NotAfter(folders, rows[i], rows[j])
        decreases left
      {
        ghost var least := FirstExists(folders, left);
        var x: FolderId :| x in left && First(folders, left, x);
        ghost var before, remaining := rows, left;
        assert forall a, b | a in before && b in remaining :: NotAfter(folders, a, b);
        assert First(folders, remaining, x);
        assert forall b | b in remaining :: NotAfter(folders, x, b);
        rows := rows + [x];
        left := left - {x};
        forall a, b | a in rows && b in left ensures NotAfter(folders, a, b) {
          if a !in before {
            assert a == x && b in remaining;
          }
        }
        forall i, j | 0 <= i < j < |rows| ensures NotAfter(folders, rows[i], rows[j]) {
          assert rows[i] == before[i] && before[i] in before;
        }
      }
    }

    /** One more level at the end of the listing. */
    method Extended(rows: seq<FolderId>, more: seq<FolderId>, ghost d: nat) returns (longer: seq<FolderId>)
      requires Distinct(rows) && ParentsFirst(folders, rows) && RowsOrdered(folders, rows)
      requires forall x :: x in rows <==> ListedAbove(folders, x, d)
      requires Distinct(more) && more != [] && forall x :: x in more <==> x in Level(folders, d)
      requires forall i, j | 0 <= i < j < |more| :: NotAfter(folders, more[i], more[j])
      ensures Distinct(longer) && ParentsFirst(folders, longer) && RowsOrdered(folders, longer)
      ensures forall x :: x in longer <==> ListedAbove(folders, x, d + 1)
      ensures folders.Keys - Entries(longer) < folders.Keys - Entries(rows)
    {
      longer := rows + more;
      forall x | x in more ensures x !in rows && ParentBefore(folders, rows, x) {
        NotYetListed(folders, x, d);
        ParentOfNewRow(folders, rows, x, d);
      }
      DistinctAppend(rows, more);
      ParentsFirstAppend(folders, rows, more);
      OrderedAppend(folders, rows, more, d);
      forall x ensures x in longer <==> ListedAbove(folders, x, d + 1) {
        ListedOneMore(folders, x, d);
      }
      assert more[0] in more && more[0] in folders.Keys - Entries(rows) && more[0] in Entries(longer);
    }

    /** The recursive walk from the roots, level by level. */
    method Tree() returns (rows: seq<FolderId>)
      ensures Distinct(rows)
      ensures forall x :: x in rows <==> Listed(folders, x)
      ensures ParentsFirst(folders, rows)
      ensures RowsOrdered(folders, rows)
    {
      rows := [];
      var level := Level(folders, 0);
      ghost var d: nat := 0;
      while level != {}
        invariant level == Level(folders, d)
        invariant Distinct(rows) && ParentsFirst(folders, rows) && RowsOrdered(folders, rows)
        invariant forall x :: x in rows <==> ListedAbove(folders, x, d)
        decreases folders.Keys - Entries(rows)
      {
        var more := SortedLevel(level, d);
        Inhabited(level);
        rows := Extended(rows, more, d);
        level := ChildrenOf(folders, level);
        d := d + 1;
      }
      assert Level(folders, d) == {};
      forall x ensures x in rows <==> Listed(folders, x) {
        NothingBelow(folders, x, d);
      }
    }
  }

  // ---------------------------------------------------------------- the listing and the forest

  lemma {:induction false} HeightIsLevel(f: Table, x: FolderId, n: nat)
    requires ParentsExist(f) && x in f && Climb(f, x, n) == None
    ensures Listed(f, x)
    decreases n
  {
    if f[x].parent.None? {
      assert x in Level(f, 0);
    } else {
      var y := f[x].parent.value;
      assert n > 0;
      ClimbFirst(f, x, n - 1);
      HeightIsLevel(f, y, n - 1);
      var m: nat :| y in Level(f, m);
      assert x in Level(f, m + 1);
    }
  }

  /** The listing shows every folder exactly when the table is a forest: a detached loop would vanish. */
  lemma TreeShowsAllExactlyInForests(f: Table)
    requires ParentsExist(f)
    ensures (forall x | x in f :: Listed(f, x)) <==> Forest(f)
  {
    if Forest(f) {
      forall x | x in f ensures Listed(f, x) {
        var n: nat :| Climb(f, x, n) == None;
        HeightIsLevel(f, x, n);
      }
    }
    if forall x | x in f :: Listed(f, x) {
      forall x | x in f ensures Grounded(f, x) {
        var n: nat :| x in Level(f, n);
        LevelIsHeight(f, x, n);
      }
    }
  }

  // ---------------------------------------------------------------- every operation keeps the forest

  /** Where two tables give the same parents along the way, climbing is the same. */
  lemma {:induction false} ClimbAgrees(f: Table, g: Table, x: FolderId, n: nat)
    requires forall k: nat | k < n :: Climb(f, x, k).Some? ==>
               var y := Climb(f, x, k).value;
               (y in f <==> y in g) && (y in f ==> f[y].parent == g[y].parent)
    ensures Climb(g, x, n) == Climb(f, x, n)
  {
    if n > 0 {
      ClimbAgrees(f, g, x, n - 1);
    }
  }

  lemma GroundedByParent(f: Table, x: FolderId)
    requires x in f && (f[x].parent.Some? ==> Grounded(f, f[x].parent.value))
    ensures Grounded(f, x)
  {
    if f[x].parent.Some? {
      var n: nat :| Climb(f, f[x].parent.value, n) == None;
      ClimbFirst(f, x, n);
    } else {
      ClimbFirst(f, x, 0);
    }
  }

  lemma GroundedInLarger(f: Table, g: Table, x: FolderId)
    requires ParentsExist(f) && x in f && Grounded(f, x)
    requires forall y | y in f :: y in g && g[y].parent == f[y].parent
    ensures Grounded(g, x)
  {
    var n: nat :| Climb(f, x, n) == None;
    forall k: nat | k < n && Climb(f, x, k).Some?
      ensures Climb(f, x, k).value in f
    {
      ClimbStaysIn(f, x, k);
    }
    ClimbAgrees(f, g, x, n);
  }

  lemma CreateKeepsForest(f: Table, id: FolderId, folder: Folder)
    requires Forest(f) && id !in f && ForeignKeyHolds(f, folder.parent)
    ensures Forest(f[id := folder])
  {
    var g := f[id := folder];
    forall x | x in f ensures Grounded(g, x) {
      GroundedInLarger(f, g, x);
    }
    GroundedByParent(g, id);
  }

  lemma RenameKeepsForest(f: Table, id: FolderId, name: string)
    requires Forest(f) && id in f
    ensures Forest(f[id := f[id].(name := name)])
  {
    var g := f[id := f[id].(name := name)];
    forall x | x in g ensures Grounded(g, x) {
      GroundedInLarger(f, g, x);
    }
  }

  /** A folder whose way up avoids `id` keeps its way up when only `id` moves. */
  lemma AvoidingIsGrounded(f: Table, g: Table, id: FolderId, x: FolderId)
    requires x in f && Grounded(f, x) && !Under(f, id, x)
    requires f.Keys == g.Keys && forall y | y in f && y != id :: g[y].parent == f[y].parent
    ensures Grounded(g, x)
  {
    var n: nat :| Climb(f, x, n) == None;
    ClimbAgrees(f, g, x, n);
  }

  lemma {:induction false} LeastStep(f: Table, id: FolderId, x: FolderId, n: nat) returns (k: nat)
    requires Climb(f, x, n) == Some(id)
    ensures Climb(f, x, k) == Some(id) && forall j: nat | j < k :: Climb(f, x, j) != Some(id)
    decreases n
  {
    if j: nat :| j < n && Climb(f, x, j) == Some(id) {
      k := LeastStep(f, id, x, j);
    } else {
      k := n;
    }
  }

  /** A way up that ends, reached after some steps, makes the whole way end. */
  lemma GroundedBelow(f: Table, x: FolderId, k: nat)
    requires Climb(f, x, k).Some? && Grounded(f, Climb(f, x, k).value)
    ensures Grounded(f, x)
  {
    var m: nat :| Climb(f, Climb(f, x, k).value, m) == None;
    ClimbAdds(f, x, k, m);
  }

  /** Moving `id` changes no way up as far as `id`. */
  lemma WayUpToMoved(f: Table, g: Table, id: FolderId, x: FolderId) returns (k: nat)
    requires Under(f, id, x)
    requires f.Keys == g.Keys && forall y | y in f && y != id :: g[y].parent == f[y].parent
    ensures Climb(g, x, k) == Some(id)
  {
    var n: nat :| Climb(f, x, n) == Some(id);
    k := LeastStep(f, id, x, n);
    ClimbAgrees(f, g, x, k);
  }

  /** A move to a place that is not below the folder leaves every way up with an end, even to a place not there. */
  lemma MovedIsGrounded(f: Table, id: FolderId, to: Option<FolderId>, x: FolderId)
    requires Forest(f) && id in f && x in f
    requires to.Some? ==> !Under(f, id, to.value)
    ensures Grounded(f[id := f[id].(parent := to)], x)
  {
    var g := f[id := f[id].(parent := to)];
    if to.Some? {
      if to.value in f {
        AvoidingIsGrounded(f, g, id, to.value);
      } else {
        ClimbFirst(g, to.value, 0);
      }
    }
    GroundedByParent(g, id);
    if Under(f, id, x) {
      var k := WayUpToMoved(f, g, id, x);
      GroundedBelow(g, x, k);
    } else {
      AvoidingIsGrounded(f, g, id, x);
    }
  }

  /** The walk is the guard that is needed: a move that does not put a folder under itself keeps the forest. */
  lemma ReparentKeepsForest(f: Table, id: FolderId, to: Option<FolderId>)
    requires Forest(f) && id in f && ForeignKeyHolds(f, to)
    requires to.Some? ==> !Under(f, id, to.value)
    ensures Forest(f[id := f[id].(parent := to)])
  {
    forall x | x in f ensures Grounded(f[id := f[id].(parent := to)], x) {
      MovedIsGrounded(f, id, to, x);
    }
  }

  /** And it is the guard that is exact: a move refused as a cycle would have broken the forest. */
  lemma RefusedMoveWouldCycle(f: Table, id: FolderId, to: FolderId)
    requires Forest(f) && id in f && to in f && Under(f, id, to)
    ensures !Forest(f[id := f[id].(parent := Some(to))])
  {
    var g := f[id := f[id].(parent := Some(to))];
    var k := WayUpToMoved(f, g, id, to);
    ClimbFirst(g, id, k);
    if Grounded(g, id) {
      NoCycle(g, id, k + 1);
    }
  }

  lemma SurvivorsClimbSurvivors(f: Table, id: FolderId, x: FolderId, k: nat)
    requires ParentsExist(f) && x in f && !Under(f, id, x) && Climb(f, x, k).Some?
    ensures Climb(f, x, k).value in f && !Under(f, id, Climb(f, x, k).value)
  {
    var y := Climb(f, x, k).value;
    ClimbStaysIn(f, x, k);
    forall m: nat ensures Climb(f, y, m) != Some(id) {
      ClimbAdds(f, x, k, m);
      assert Climb(f, x, k + m) != Some(id);
    }
  }

  lemma DeleteKeepsForest(f: Table, id: FolderId)
    requires Forest(f) && id in f
    ensures Forest(Without(f, Subtree(f, id)))
  {
    var gone := Subtree(f, id);
    var g := Without(f, gone);
    forall x | x in g && f[x].parent.Some? ensures f[x].parent.value in g {
      if f[x].parent.value in gone {
        ChildIsUnder(f, id, x);
      }
    }
    forall x | x in g ensures Grounded(g, x) {
      var n: nat :| Climb(f, x, n) == None;
      forall k: nat | k < n && Climb(f, x, k).Some?
        ensures Climb(f, x, k).value in g
      {
        SurvivorsClimbSurvivors(f, id, x, k);
      }
      ClimbAgrees(f, g, x, n);
    }
  }

  /** Hosts are filed in folders that exist. */
  predicate HostsFiled(s: Store) {
    forall h | h in s.hosts && s.hosts[h].Some? :: s.hosts[h].value in s.folders
  }

  /** Names are trimmed and not empty, and no two siblings share one, case aside; the roots are siblings too. */
  predicate WellNamed(f: Table) {
    && (forall x | x in f :: f[x].name != "" && Trim(f[x].name) == f[x].name)
    && (forall x, y | x in f && y in f && x != y && f[x].parent == f[y].parent :: Lower(f[x].name) != Lower(f[y].name))
  }

  lemma PutKeepsNames(f: Table, id: FolderId, folder: Folder)
    requires WellNamed(f) && folder.name != "" && Trim(folder.name) == folder.name
    requires !Clashes(f, id, folder.parent, folder.name)
    ensures WellNamed(f[id := folder])
  {
  }

  lemma OpKeepsNames(s: Store, op: Op)
    requires Sensible(s, op) && WellNamed(s.folders)
    ensures WellNamed(Apply(s, op).0.folders)
  {
    var f := s.folders;
    if Apply(s, op).1 == Done {
      match op
      case Create(newId, parent, name) =>
        TrimIdempotent(name);
        PutKeepsNames(f, newId, Folder(parent, Trim(name), NextPosition(f, parent)));
      case Rename(id, name) =>
        TrimIdempotent(name);
        PutKeepsNames(f, id, f[id].(name := Trim(name)));
      case Reparent(id, to) => PutKeepsNames(f, id, f[id].(parent := to));
      case _ =>
    }
  }

  ghost predicate Sound(s: Store) {
    Forest(s.folders) && HostsFiled(s) && WellNamed(s.folders)
  }

  lemma OpKeepsSound(s: Store, op: Op)
    requires Sensible(s, op) && Sound(s)
    ensures Sound(Apply(s, op).0)
    ensures Apply(s, op).1 != Done ==> Apply(s, op).0 == s
    ensures op.Delete? ==> Apply(s, op).0.hosts.Keys == s.hosts.Keys
  {
    OpKeepsNames(s, op);
    if Apply(s, op).1 == Done {
      match op
      case Create(newId, parent, name) =>
        CreateKeepsForest(s.folders, newId, Folder(parent, Trim(name), NextPosition(s.folders, parent)));
      case Rename(id, name) => RenameKeepsForest(s.folders, id, Trim(name));
      case Reparent(id, to) => ReparentKeepsForest(s.folders, id, to);
      case Delete(id) => DeleteKeepsForest(s.folders, id);
      case _ =>
    }
  }

  // ---------------------------------------------------------------- what an operation writes

  /** Some other folder under the parent has the name, but for the case of letters. */
  predicate NameTaken(f: Table, id: FolderId, parent: Option<FolderId>, name: string) {
    exists y | y in f :: y != id && f[y].parent == parent && SameButCase(f[y].name, name)
  }

  lemma ClashesMeans(f: Table, id: FolderId, parent: Option<FolderId>, name: string)
    ensures Clashes(f, id, parent, name) <==> NameTaken(f, id, parent, name)
  {
    forall y | y in f ensures Lower(f[y].name) == Lower(name) <==> SameButCase(f[y].name, name) {
      LowerComparesCase(f[y].name, name);
    }
  }

  predicate Exists(f: Table, folder: Option<FolderId>) {
    folder.Some? ==> folder.value in f
  }

  /** The folders but one, and all hosts, are as they were. */
  predicate OthersStay(s: Store, t: Store, id: FolderId) {
    && t.hosts == s.hosts && t.folders.Keys == s.folders.Keys + {id}
    && forall x | x in s.folders && x != id :: t.folders[x] == s.folders[x]
  }

  /** Behind all folders of the same parent, with no gap; the first has position zero. */
  predicate Last(f: Table, parent: Option<FolderId>, position: int) {
    && (forall x | x in f && f[x].parent == parent :: f[x].position < position)
    && (position == 0 || exists x | x in f && f[x].parent == parent :: f[x].position + 1 == position)
    && ((forall x | x in f :: f[x].parent != parent) ==> position == 0)
  }

  /** A new folder has the parent asked for, the trimmed name, and the place behind its siblings. */
  lemma CreateWrites(s: Store, newId: FolderId, parent: Option<FolderId>, name: string)
    requires newId !in s.folders
    ensures
      var (t, r) := Apply(s, Create(newId, parent, name));
      var f, n := s.folders, Trim(name);
      && (r == InvalidName <==> n == "")
      && (r == ConstraintFailed <==> n != "" && (!Exists(f, parent) || NameTaken(f, newId, parent, n)))
      && (r != Done ==> t == s && (r == InvalidName || r == ConstraintFailed))
      && (r == Done ==>
            && OthersStay(s, t, newId)
            && t.folders[newId].parent == parent && t.folders[newId].name == n
            && Last(f, parent, t.folders[newId].position))
  {
    var f := s.folders;
    ClashesMeans(f, newId, parent, Trim(name));
    var p := NextPosition(f, parent);
    assert forall x :: x in Siblings(f, parent) <==> x in f && f[x].parent == parent;
    if Siblings(f, parent) != {} {
      var x :| x in Siblings(f, parent) && f[x].position + 1 == p;
    }
  }

  /** A rename changes the name, to the trimmed one, and nothing else. */
  lemma RenameWrites(s: Store, id: FolderId, name: string)
    ensures
      var (t, r) := Apply(s, Rename(id, name));
      var f, n := s.folders, Trim(name);
      && (r == InvalidName <==> n == "")
      && (r == NotFound <==> n != "" && id !in f)
      && (r == ConstraintFailed <==> n != "" && id in f && NameTaken(f, id, f[id].parent, n))
      && (r != Done ==> t == s && r != FolderCycle)
      && (r == Done ==>
            && OthersStay(s, t, id) && t.folders[id].name == n
            && t.folders[id].parent == f[id].parent && t.folders[id].position == f[id].position)
  {
    if id in s.folders {
      ClashesMeans(s.folders, id, s.folders[id].parent, Trim(name));
    }
  }

  /** Some folder is its own ancestor. */
  ghost predicate Cyclic(f: Table) {
    exists x, n: nat :: n > 0 && Climb(f, x, n) == Some(x)
  }

  lemma MoveBelowItselfIsCyclic(f: Table, id: FolderId, to: FolderId)
    requires id in f && Under(f, id, to)
    ensures Cyclic(f[id := f[id].(parent := Some(to))])
  {
    var g := f[id := f[id].(parent := Some(to))];
    var k := WayUpToMoved(f, g, id, to);
    ClimbFirst(g, id, k);
  }

  lemma OtherMoveIsNotCyclic(f: Table, id: FolderId, to: Option<FolderId>)
    requires Forest(f) && id in f
    requires to.Some? ==> !Under(f, id, to.value)
    ensures !Cyclic(f[id := f[id].(parent := to)])
  {
    var g := f[id := f[id].(parent := to)];
    forall x, n: nat | n > 0 ensures Climb(g, x, n) != Some(x) {
      if x in f {
        MovedIsGrounded(f, id, to, x);
        NoCycle(g, x, n);
      } else {
        ClimbFirst(g, x, n - 1);
      }
    }
  }

  /** The table as it would be after the move. */
  function Moved(f: Table, id: FolderId, to: Option<FolderId>): Table
    requires id in f
  {
    map x | x in f :: if x == id then Folder(to, f[id].name, f[id].position) else f[x]
  }

  lemma CycleExactly(f: Table, id: FolderId, to: Option<FolderId>)
    requires Forest(f) && id in f
    ensures to.Some? && Under(f, id, to.value) <==> Cyclic(Moved(f, id, to))
  {
    assert Moved(f, id, to) == f[id := f[id].(parent := to)];
    if to.Some? && Under(f, id, to.value) {
      MoveBelowItselfIsCyclic(f, id, to.value);
    } else {
      OtherMoveIsNotCyclic(f, id, to);
    }
  }

  /** Above a folder that is there no folder is missing. */
  lemma NothingMissingAbove(f: Table, id: FolderId, to: FolderId)
    requires Forest(f) && id !in f
    ensures Under(f, id, to) <==> to == id
  {
    if to == id {
      assert Climb(f, to, 0) == Some(id);
    } else {
      forall n: nat ensures Climb(f, to, n) != Some(id) {
        if to in f {
          ClimbStaysIn(f, to, n);
        } else if n > 0 {
          ClimbFirst(f, to, n - 1);
        }
      }
    }
  }

  /**
    A move puts the folder under the parent asked for, name and position kept, and changes nothing else. It is refused
    as a cycle exactly when some folder would be its own ancestor afterwards.
   */
  lemma ReparentWrites(s: Store, id: FolderId, to: Option<FolderId>)
    requires Forest(s.folders)
    ensures
      var (t, r) := Apply(s, Reparent(id, to));
      var f := s.folders;
      && (r == FolderCycle <==> if id in f then Cyclic(Moved(f, id, to)) else to == Some(id))
      && (r == NotFound <==> id !in f && to != Some(id))
      && (r == ConstraintFailed <==>
            && id in f && !Cyclic(Moved(f, id, to))
            && (!Exists(f, to) || NameTaken(f, id, to, f[id].name)))
      && (r != Done ==> t == s && r != InvalidName)
      && (r == Done ==>
            && OthersStay(s, t, id) && t.folders[id].parent == to
            && t.folders[id].name == f[id].name && t.folders[id].position == f[id].position)
  {
    var f := s.folders;
    if id in f {
      CycleExactly(f, id, to);
      ClashesMeans(f, id, to, f[id].name);
    } else if to.Some? {
      NothingMissingAbove(f, id, to.value);
    }
  }

  /** The host is in the folder; the folders and the other hosts are as they were. */
  predicate Filed(s: Store, t: Store, host: HostId, folder: Option<FolderId>) {
    && t.folders == s.folders && t.hosts.Keys == s.hosts.Keys + {host} && t.hosts[host] == folder
    && forall h | h in s.hosts && h != host :: t.hosts[h] == s.hosts[h]
  }

  /** Filing changes the folder of one host that is there; a new host comes with its folder. Nothing else changes. */
  lemma FilingWrites(s: Store, host: HostId, folder: Option<FolderId>)
    ensures
      var (t, r) := Apply(s, FileHost(host, folder));
      && (r == NotFound <==> host !in s.hosts)
      && (r == ConstraintFailed <==> host in s.hosts && !Exists(s.folders, folder))
      && (r != Done ==> t == s && (r == NotFound || r == ConstraintFailed))
      && (r == Done ==> Filed(s, t, host, folder))
    ensures host !in s.hosts ==>
              var (t, r) := Apply(s, AddHost(host, folder));
              && (r == ConstraintFailed <==> !Exists(s.folders, folder))
              && (r != Done ==> t == s && r == ConstraintFailed)
              && (r == Done ==> Filed(s, t, host, folder))
  {
  }

  lemma DeleteWrites(s: Store, id: FolderId)
    ensures
      var (t, r) := Apply(s, Delete(id));
      && (r == NotFound <==> id !in s.folders)
      && (r != Done ==> t == s && r == NotFound)
      && (r == Done ==> TakesTheSubtree(s, t, id))
  {
    if id in s.folders {
      DeleteTakesTheSubtree(s, id);
    }
  }

  ghost predicate SensibleRun(ops: seq<Op>, n: nat)
    requires n <= |ops|
    decreases n, 0
  {
    n == 0 || (SensibleRun(ops, n - 1) && Sensible(Run(ops, n - 1), ops[n - 1]))
  }

  ghost function Run(ops: seq<Op>, n: nat): Store
    requires n <= |ops| && SensibleRun(ops, n)
    decreases n, 1
  {
    if n == 0 then EMPTY else Apply(Run(ops, n - 1), ops[n - 1]).0
  }

  /** Every store reachable by operations is a forest, so its listing shows every folder. */
  lemma {:induction false} EveryReachableStoreIsAForest(ops: seq<Op>, n: nat)
    requires n <= |ops| && SensibleRun(ops, n)
    ensures Sound(Run(ops, n))
    ensures forall x | x in Run(ops, n).folders :: Listed(Run(ops, n).folders, x)
  {
    if n > 0 {
      EveryReachableStoreIsAForest(ops, n - 1);
      OpKeepsSound(Run(ops, n - 1), ops[n - 1]);
    }
    TreeShowsAllExactlyInForests(Run(ops, n).folders);
  }
}
