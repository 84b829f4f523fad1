/**
  The sidebar's tree builder (ui/src/components/HostSidebar.tsx): flat folder and host lists become nested
  nodes by filling a map from id to node and pushing onto the child lists of shared nodes.

  The items of a tree are numbered: the folders in list order, then the hosts in list order.
 */
module SidebarTree {
  import opened Options
  import Store = Folders

  datatype Folder = Folder(id: int, parent: Option<int>, name: string)

  datatype Host = Host(id: int, folder: Option<int>, name: string)

  /** The node's value string: `folder:` or `host:` followed by the id. */
  datatype Value = OfFolder(id: int) | OfHost(id: int)

  class Node {
    const value: Value
    const caption: string
    var children: seq<Node>

    constructor (value: Value, caption: string)
      ensures this.value == value && this.caption == caption && children == []
    {
      this.value, this.caption, children := value, caption, [];
    }
  }

  function Count(folders: seq<Folder>, hosts: seq<Host>): nat {
    |folders| + |hosts|
  }

  predicate HasFolder(folders: seq<Folder>, id: int) {
    exists i | 0 <= i < |folders| :: folders[i].id == id
  }

  /** The folder an item says it belongs in. */
  function Named(folders: seq<Folder>, hosts: seq<Host>, k: nat): Option<int>
    requires k < Count(folders, hosts)
  {
    if k < |folders| then folders[k].parent else hosts[k - |folders|].folder
  }

  /** The folder an item hangs in: the one it names, if that is in the list, and otherwise the root. */
  function Place(folders: seq<Folder>, hosts: seq<Host>, k: nat): Option<int>
    requires k < Count(folders, hosts)
  {
    var named := Named(folders, hosts, k);
    if named.Some? && HasFolder(folders, named.value) then named else None
  }

  /** The first `n` items' share of one child list, in item order. */
  function Picked(folders: seq<Folder>, hosts: seq<Host>, n: nat, place: Option<int>): (r: seq<nat>)
    requires n <= Count(folders, hosts)
    ensures forall i | 0 <= i < |r| :: r[i] < n
  {
    if n == 0 then []
    else if Place(folders, hosts, n - 1) == place then Picked(folders, hosts, n - 1, place) + [n - 1]
    else Picked(folders, hosts, n - 1, place)
  }

  function Kids(folders: seq<Folder>, hosts: seq<Host>, place: Option<int>): seq<nat> {
    Picked(folders, hosts, Count(folders, hosts), place)
  }

  /** `list` holds the nodes made for the items `picks`, in that order. */
  ghost predicate Shows(list: seq<Node>, made: seq<Node>, picks: seq<nat>) {
    |list| == |picks| && forall i | 0 <= i < |list| :: picks[i] < |made| && list[i] == made[picks[i]]
  }

  /** The map holds a node for every folder id and nothing else; a node carries its own id, so none is shared. */
  ghost predicate Linked(folders: seq<Folder>, nodes: map<int, Node>, pool: set<Node>) {
    && (forall id :: id in nodes <==> HasFolder(folders, id))
    && forall id | id in nodes :: nodes[id] in pool && nodes[id].value == OfFolder(id)
  }

  /** Every child list built from the first `n` items. */
  ghost predicate ListsBuilt(folders: seq<Folder>, hosts: seq<Host>, nodes: map<int, Node>, pool: set<Node>,
                             roots: seq<Node>, made: seq<Node>, n: nat)
    requires n <= Count(folders, hosts) && Linked(folders, nodes, pool)
    reads pool
  {
    && Shows(roots, made, Picked(folders, hosts, n, None))
    && forall id | id in nodes :: Shows(nodes[id].children, made, Picked(folders, hosts, n, Some(id)))
  }

  /** A folder item's node is the one the map holds for its id. */
  ghost predicate FolderNodes(folders: seq<Folder>, nodes: map<int, Node>, made: seq<Node>) {
    |folders| <= |made| && forall k | 0 <= k < |folders| :: folders[k].id in nodes && made[k] == nodes[folders[k].id]
  }

  /** The host items' nodes carry the host's id and name. */
  ghost predicate HostNodes(folders: seq<Folder>, hosts: seq<Host>, made: seq<Node>) {
    && |folders| <= |made| <= Count(folders, hosts)
    && forall k | |folders| <= k < |made| ::
         made[k].value == OfHost(hosts[k - |folders|].id) && made[k].caption == hosts[k - |folders|].name
  }

  ghost predicate Leaves(leaves: set<Node>)
    reads leaves
  {
    forall node | node in leaves :: node.children == []
  }

  ghost function HostPool(made: seq<Node>, n: nat): set<Node>
    requires n <= |made|
  {
    set node | node in made[n..]
  }

  /** Each folder without a later namesake has its own name on its node. */
  ghost predicate Captioned(folders: seq<Folder>, nodes: map<int, Node>, n: nat)
    requires n <= |folders|
  {
    forall k | 0 <= k < n && (forall j | k < j < n :: folders[j].id != folders[k].id) ::
      folders[k].id in nodes && nodes[folders[k].id].caption == folders[k].name
  }

  /** The state after `i` hosts. */
  ghost predicate HostsHung(folders: seq<Folder>, hosts: seq<Host>, nodes: map<int, Node>, pool: set<Node>,
                            roots: seq<Node>, made: seq<Node>, i: nat)
    requires Linked(folders, nodes, pool)
    reads pool, HostPool(made, if |folders| <= |made| then |folders| else 0)
  {
    && i <= |hosts| && |made| == |folders| + i
    && FolderNodes(folders, nodes, made) && HostNodes(folders, hosts, made) && Leaves(HostPool(made, |folders|))
    && ListsBuilt(folders, hosts, nodes, pool, roots, made, |folders| + i)
  }

  lemma NoHostYet(folders: seq<Folder>, hosts: seq<Host>, nodes: map<int, Node>, pool: set<Node>, roots: seq<Node>,
                  made: seq<Node>)
    requires Linked(folders, nodes, pool) && |made| == |folders| && FolderNodes(folders, nodes, made)
    requires ListsBuilt(folders, hosts, nodes, pool, roots, made, |folders|)
    ensures HostsHung(folders, hosts, nodes, pool, roots, made, 0) && HostPool(made, |folders|) == {}
  {
    assert made[|folders|..] == [];
  }

  /** The item reached from the roots by following child positions. */
  function At(folders: seq<Folder>, hosts: seq<Host>, path: seq<nat>): (r: Option<nat>)
    ensures r.Some? ==> r.value < Count(folders, hosts)
    decreases |path|, 0
  {
    if path == [] then None
    else
      var i := path[|path| - 1];
      var list := ListAt(folders, hosts, path[..|path| - 1]);
      if i < |list| then Some(list[i]) else None
  }

  /** The node reached by following child positions in the nodes themselves. */
  ghost function NodeAt(roots: seq<Node>, path: seq<nat>): Option<Node>
    reads *
    decreases |path|
  {
    if path == [] then None
    else
      var (init, i) := (path[..|path| - 1], path[|path| - 1]);
      if init == [] then if i < |roots| then Some(roots[i]) else None
      else
        match NodeAt(roots, init)
        case None => None
        case Some(node) => if i < |node.children| then Some(node.children[i]) else None
  }

  /** The node at a path is the one made for the item at that path, and there is one only if there is the other. */
  ghost predicate SameItem(folders: seq<Folder>, hosts: seq<Host>, roots: seq<Node>, made: seq<Node>, path: seq<nat>)
    requires |made| == Count(folders, hosts)
    reads *
  {
    match At(folders, hosts, path)
    case None => NodeAt(roots, path) == None
    case Some(k) => NodeAt(roots, path) == Some(made[k])
  }

  lemma ChildrenAreKids(
      folders: seq<Folder>, hosts: seq<Host>, nodes: map<int, Node>, pool: set<Node>, roots: seq<Node>,
      made: seq<Node>, k: nat)
    requires Linked(folders, nodes, pool) && |made| == Count(folders, hosts) && FolderNodes(folders, nodes, made)
    requires Leaves(HostPool(made, |folders|))
    requires ListsBuilt(folders, hosts, nodes, pool, roots, made, Count(folders, hosts))
    requires k < Count(folders, hosts)
    ensures Shows(made[k].children, made,
                  if k < |folders| then Kids(folders, hosts, Some(folders[k].id)) else [])
  {
    if k >= |folders| {
      assert made[k] == made[|folders|..][k - |folders|];
      assert made[k] in HostPool(made, |folders|);
    }
  }

  /** The child list at the end of a path; a host has none. */
  function ListAt(folders: seq<Folder>, hosts: seq<Host>, path: seq<nat>): (r: seq<nat>)
    ensures forall i | 0 <= i < |r| :: r[i] < Count(folders, hosts)
    decreases |path|, 1
  {
    if path == [] then Kids(folders, hosts, None)
    else
      match At(folders, hosts, path)
      case None => []
      case Some(k) => if k < |folders| then Kids(folders, hosts, Some(folders[k].id)) else []
  }

  /** Following the nodes the builder returned is following the item numbers. */
  lemma {:induction false} NodesAreItems(
      folders: seq<Folder>, hosts: seq<Host>, nodes: map<int, Node>, pool: set<Node>, roots: seq<Node>,
      made: seq<Node>, path: seq<nat>)
    requires Linked(folders, nodes, pool) && |made| == Count(folders, hosts) && FolderNodes(folders, nodes, made)
    requires Leaves(HostPool(made, |folders|))
    requires ListsBuilt(folders, hosts, nodes, pool, roots, made, Count(folders, hosts))
    ensures SameItem(folders, hosts, roots, made, path)
    decreases |path|
  {
    if path != [] {
      var (init, i) := (path[..|path| - 1], path[|path| - 1]);
      var list := ListAt(folders, hosts, init);
      if init == [] {
        assert Shows(roots, made, list);
      } else {
        NodesAreItems(folders, hosts, nodes, pool, roots, made, init);
        var at := At(folders, hosts, init);
        if at.Some? {
          ChildrenAreKids(folders, hosts, nodes, pool, roots, made, at.value);
          assert Shows(made[at.value].children, made, list);
        }
      }
    }
  }

  lemma AllHung(folders: seq<Folder>, hosts: seq<Host>, nodes: map<int, Node>, pool: set<Node>, roots: seq<Node>,
                made: seq<Node>)
    requires Linked(folders, nodes, pool) && HostsHung(folders, hosts, nodes, pool, roots, made, |hosts|)
    ensures |made| == Count(folders, hosts) && FolderNodes(folders, nodes, made) && HostNodes(folders, hosts, made)
    ensures Leaves(HostPool(made, |folders|))
    ensures ListsBuilt(folders, hosts, nodes, pool, roots, made, Count(folders, hosts))
    ensures forall path :: SameItem(folders, hosts, roots, made, path)
  {
    forall path ensures SameItem(folders, hosts, roots, made, path) {
      NodesAreItems(folders, hosts, nodes, pool, roots, made, path);
    }
  }

  ghost function NodeOf(folders: seq<Folder>, nodes: map<int, Node>, pool: set<Node>, k: nat): Node
    requires k < |folders| && Linked(folders, nodes, pool)
  {
    assert HasFolder(folders, folders[k].id);
    nodes[folders[k].id]
  }

  lemma HasOneMore(folders: seq<Folder>, i: nat, id: int)
    requires i < |folders|
    ensures HasFolder(folders[..i + 1], id) <==> HasFolder(folders[..i], id) || id == folders[i].id
  {
    var before, after := folders[..i], folders[..i + 1];
    assert after[i] == folders[i];
    if HasFolder(before, id) {
      var k :| 0 <= k < |before| && before[k].id == id;
      assert after[k].id == id;
    }
    if HasFolder(after, id) {
      var k :| 0 <= k < |after| && after[k].id == id;
      assert k == i || before[k].id == id;
    }
  }

  lemma OneMoreLinked(folders: seq<Folder>, nodes: map<int, Node>, pool: set<Node>, i: nat, node: Node)
    requires i < |folders| && node.value == OfFolder(folders[i].id)
    requires Linked(folders[..i], nodes, pool)
    ensures Linked(folders[..i + 1], nodes[folders[i].id := node], pool + {node})
  {
    var more := nodes[folders[i].id := node];
    forall id ensures id in more <==> HasFolder(folders[..i + 1], id) {
      HasOneMore(folders, i, id);
    }
  }

  lemma OneMoreCaptioned(folders: seq<Folder>, nodes: map<int, Node>, i: nat, node: Node)
    requires i < |folders| && node.caption == folders[i].name
    requires Captioned(folders, nodes, i)
    ensures Captioned(folders, nodes[folders[i].id := node], i + 1)
  {
  }

  method MakeFolderNodes(folders: seq<Folder>) returns (nodes: map<int, Node>, ghost pool: set<Node>)
    ensures Linked(folders, nodes, pool) && Captioned(folders, nodes, |folders|)
    ensures fresh(pool) && forall node | node in pool :: node.children == []
  {
    nodes, pool := map[], {};
    for i := 0 to |folders|
      invariant Linked(folders[..i], nodes, pool) && Captioned(folders, nodes, i)
      invariant fresh(pool) && forall node | node in pool :: node.children == []
    {
      var node := new Node(OfFolder(folders[i].id), folders[i].name);
      OneMoreLinked(folders, nodes, pool, i, node);
      OneMoreCaptioned(folders, nodes, i, node);
      nodes := nodes[folders[i].id := node];
      pool := pool + {node};
    }
    assert folders[..|folders|] == folders;
  }

  lemma FolderItem(
      folders: seq<Folder>, hosts: seq<Host>, nodes: map<int, Node>, pool: set<Node>, made: seq<Node>, i: nat)
    requires i < |folders| && Linked(folders, nodes, pool) && FolderNodes(folders, nodes, made)
    ensures var id := folders[i].id; id in nodes && made[i] == nodes[id]
    ensures Named(folders, hosts, i) == folders[i].parent
  {
  }

  /** Hang item `n`'s node under the folder it names, or at the root. */
  method Hang(folders: seq<Folder>, hosts: seq<Host>, nodes: map<int, Node>, ghost pool: set<Node>, roots: seq<Node>,
              ghost made: seq<Node>, ghost n: nat, named: Option<int>, node: Node)
    returns (more: seq<Node>)
    requires Linked(folders, nodes, pool) && n < Count(folders, hosts) && named == Named(folders, hosts, n)
    requires n < |made| && made[n] == node
    requires ListsBuilt(folders, hosts, nodes, pool, roots, made, n)
    modifies pool
    ensures ListsBuilt(folders, hosts, nodes, pool, more, made, n + 1)
  {
    more := roots;
    if named.Some? {
      var id := named.value;
      if id in nodes {
        var parent := nodes[id];
        parent.children := parent.children + [node];
        return;
      }
    }
    more := more + [node];
  }

  method HangFolder(folders: seq<Folder>, hosts: seq<Host>, nodes: map<int, Node>, ghost pool: set<Node>,
                    roots: seq<Node>, ghost made: seq<Node>, i: nat)
    returns (more: seq<Node>)
    requires Linked(folders, nodes, pool) && i < |folders| == |made| && FolderNodes(folders, nodes, made)
    requires ListsBuilt(folders, hosts, nodes, pool, roots, made, i)
    modifies pool
    ensures ListsBuilt(folders, hosts, nodes, pool, more, made, i + 1)
  {
    FolderItem(folders, hosts, nodes, pool, made, i);
    var id := folders[i].id;
    more := Hang(folders, hosts, nodes, pool, roots, made, i, folders[i].parent, nodes[id]);
  }

  method HangFolders(folders: seq<Folder>, hosts: seq<Host>, nodes: map<int, Node>, ghost pool: set<Node>,
                     ghost made: seq<Node>)
    returns (roots: seq<Node>)
    requires Linked(folders, nodes, pool) && |made| == |folders| && FolderNodes(folders, nodes, made)
    requires forall node | node in pool :: node.children == []
    modifies pool
    ensures ListsBuilt(folders, hosts, nodes, pool, roots, made, |folders|)
  {
    roots := [];
    for i := 0 to |folders|
      invariant ListsBuilt(folders, hosts, nodes, pool, roots, made, i)
    {
      roots := HangFolder(folders, hosts, nodes, pool, roots, made, i);
    }
  }

  lemma OneMoreHost(folders: seq<Folder>, hosts: seq<Host>, nodes: map<int, Node>, pool: set<Node>, roots: seq<Node>,
                    made: seq<Node>, i: nat, node: Node)
    requires i < |hosts| && |made| == |folders| + i && Linked(folders, nodes, pool)
    requires FolderNodes(folders, nodes, made) && HostNodes(folders, hosts, made)
    requires ListsBuilt(folders, hosts, nodes, pool, roots, made, |folders| + i)
    requires node.value == OfHost(hosts[i].id) && node.caption == hosts[i].name
    ensures FolderNodes(folders, nodes, made + [node]) && HostNodes(folders, hosts, made + [node])
    ensures HostPool(made + [node], |folders|) == HostPool(made, |folders|) + {node}
    ensures ListsBuilt(folders, hosts, nodes, pool, roots, made + [node], |folders| + i)
  {
    assert (made + [node])[|folders|..] == made[|folders|..] + [node];
  }

  method HangHost(folders: seq<Folder>, hosts: seq<Host>, nodes: map<int, Node>, ghost pool: set<Node>,
                  before: seq<Node>, ghost madeBefore: seq<Node>, i: nat)
    returns (roots: seq<Node>, ghost made: seq<Node>)
    requires Linked(folders, nodes, pool) && i < |hosts|
    requires HostsHung(folders, hosts, nodes, pool, before, madeBefore, i)
    requires HostPool(madeBefore, |folders|) !! pool
    modifies pool
    ensures HostsHung(folders, hosts, nodes, pool, roots, made, i + 1)
    ensures HostPool(made, |folders|) !! pool
  {
    var node := new Node(OfHost(hosts[i].id), hosts[i].name);
    OneMoreHost(folders, hosts, nodes, pool, before, madeBefore, i, node);
    made := madeBefore + [node];
    roots := Hang(folders, hosts, nodes, pool, before, made, |folders| + i, hosts[i].folder, node);
  }

  method HangHosts(folders: seq<Folder>, hosts: seq<Host>, nodes: map<int, Node>, ghost pool: set<Node>,
                   before: seq<Node>, ghost madeBefore: seq<Node>)
    returns (roots: seq<Node>, ghost made: seq<Node>)
    requires Linked(folders, nodes, pool)
    requires HostsHung(folders, hosts, nodes, pool, before, madeBefore, 0) && HostPool(madeBefore, |folders|) !! pool
    modifies pool
    ensures HostsHung(folders, hosts, nodes, pool, roots, made, |hosts|)
  {
    roots, made := before, madeBefore;
    for i := 0 to |hosts|
      invariant HostsHung(folders, hosts, nodes, pool, roots, made, i)
      invariant HostPool(made, |folders|) !! pool
    {
      roots, made := HangHost(folders, hosts, nodes, pool, roots, made, i);
    }
  }

  method BuildTree(hosts: seq<Host>, folders: seq<Folder>)
    returns (roots: seq<Node>, ghost nodes: map<int, Node>, ghost pool: set<Node>, ghost made: seq<Node>)
    ensures fresh(pool) && Linked(folders, nodes, pool) && Captioned(folders, nodes, |folders|)
    ensures |made| == Count(folders, hosts) && FolderNodes(folders, nodes, made) && HostNodes(folders, hosts, made)
    ensures Leaves(HostPool(made, |folders|))
    ensures ListsBuilt(folders, hosts, nodes, pool, roots, made, Count(folders, hosts))
    ensures forall path :: SameItem(folders, hosts, roots, made, path)
  {
    var folderNodes;
    folderNodes, pool := MakeFolderNodes(folders);
    nodes := folderNodes;
    made := seq(|folders|, k requires 0 <= k < |folders| => NodeOf(folders, nodes, pool, k));
    roots := HangFolders(folders, hosts, folderNodes, pool, made);
    NoHostYet(folders, hosts, nodes, pool, roots, made);
    roots, made := HangHosts(folders, hosts, folderNodes, pool, roots, made);
    AllHung(folders, hosts, nodes, pool, roots, made);
  }

  // ---------------------------------------------------------------- what a child list holds

  /** A child list holds exactly the items placed there. */
  lemma {:induction false} PickedHolds(folders: seq<Folder>, hosts: seq<Host>, n: nat, place: Option<int>, k: nat)
    requires n <= Count(folders, hosts)
    ensures k in Picked(folders, hosts, n, place) <==> k < n && Place(folders, hosts, k) == place
  {
    if n > 0 {
      PickedHolds(folders, hosts, n - 1, place, k);
      var r := Picked(folders, hosts, n - 1, place);
      assert k in r + [n - 1] <==> k in r || k == n - 1;
    }
  }

  predicate Listed(folders: seq<Folder>, id: Option<int>) {
    id.Some? && exists i | 0 <= i < |folders| :: folders[i].id == id.value
  }

  /**
    In terms of the rows alone: a listed folder holds the folders that name it as parent and the hosts filed in it; the
    root holds those whose folder is missing or not given.
   */
  lemma KidsMean(folders: seq<Folder>, hosts: seq<Host>, place: Option<int>, k: nat)
    ensures k < |folders| ==>
              (k in Kids(folders, hosts, place) <==>
                 if Listed(folders, folders[k].parent) then place == folders[k].parent else place == None)
    ensures k < |hosts| ==>
              (|folders| + k in Kids(folders, hosts, place) <==>
                 if Listed(folders, hosts[k].folder) then place == hosts[k].folder else place == None)
    ensures k >= Count(folders, hosts) ==> k !in Kids(folders, hosts, place)
  {
    PickedHolds(folders, hosts, Count(folders, hosts), place, k);
    PickedHolds(folders, hosts, Count(folders, hosts), place, |folders| + k);
  }

  predicate Increasing(list: seq<nat>) {
    forall i, j | 0 <= i < j < |list| :: list[i] < list[j]
  }

  /** It holds them in list order, folders before hosts, none twice. */
  lemma {:induction false} PickedInOrder(folders: seq<Folder>, hosts: seq<Host>, n: nat, place: Option<int>)
    requires n <= Count(folders, hosts)
    ensures Increasing(Picked(folders, hosts, n, place))
  {
    if n > 0 {
      PickedInOrder(folders, hosts, n - 1, place);
    }
  }

  // ---------------------------------------------------------------- the tree on screen

  predicate UniqueIds(folders: seq<Folder>) {
    forall i, j | 0 <= i < j < |folders| :: folders[i].id != folders[j].id
  }

  /** A path that reaches something has the list it stands in, and its place there. */
  lemma AtIsInItsList(folders: seq<Folder>, hosts: seq<Host>, path: seq<nat>)
    requires path != [] && At(folders, hosts, path).Some?
    ensures
      var (init, last) := (path[..|path| - 1], path[|path| - 1]);
      var list := ListAt(folders, hosts, init);
      last < |list| && list[last] == At(folders, hosts, path).value
  {
  }

  /** What reaches an item goes through the folder it is placed in, and through nothing when it is at the root. */
  lemma ParentOnPath(folders: seq<Folder>, hosts: seq<Host>, path: seq<nat>, k: nat)
    requires path != [] && k in ListAt(folders, hosts, path)
    ensures
      var up := At(folders, hosts, path);
      && k < Count(folders, hosts)
      && up.Some? && up.value < |folders| && Place(folders, hosts, k) == Some(folders[up.value].id)
  {
    var up := At(folders, hosts, path).value;
    PickedHolds(folders, hosts, Count(folders, hosts), Some(folders[up].id), k);
  }

  lemma RootHasNoPlace(folders: seq<Folder>, hosts: seq<Host>, k: nat)
    requires k in ListAt(folders, hosts, [])
    ensures k < Count(folders, hosts) && Place(folders, hosts, k) == None
  {
    PickedHolds(folders, hosts, Count(folders, hosts), None, k);
  }

  lemma BothAtRoot(folders: seq<Folder>, hosts: seq<Host>, p: seq<nat>, q: seq<nat>, k: nat)
    requires k in ListAt(folders, hosts, p) && k in ListAt(folders, hosts, q) && (p == [] || q == [])
    ensures p == q == []
  {
    RootHasNoPlace(folders, hosts, k);
    if p != [] {
      ParentOnPath(folders, hosts, p, k);
    }
    if q != [] {
      ParentOnPath(folders, hosts, q, k);
    }
  }

  lemma SamePosition(folders: seq<Folder>, hosts: seq<Host>, path: seq<nat>, i: nat, j: nat)
    requires i < |ListAt(folders, hosts, path)| && j < |ListAt(folders, hosts, path)|
    requires ListAt(folders, hosts, path)[i] == ListAt(folders, hosts, path)[j]
    ensures i == j
  {
    var n := Count(folders, hosts);
    var list := ListAt(folders, hosts, path);
    if path == [] {
      PickedInOrder(folders, hosts, n, None);
    } else {
      var k := At(folders, hosts, path).value;
      PickedInOrder(folders, hosts, n, Some(folders[k].id));
    }
    assert Increasing(list);
  }

  /** No item is shown twice: two paths to the same item are the same path. */
  lemma {:induction false} ShownOnce(folders: seq<Folder>, hosts: seq<Host>, p: seq<nat>, q: seq<nat>)
    requires UniqueIds(folders)
    requires At(folders, hosts, p).Some? && At(folders, hosts, p) == At(folders, hosts, q)
    ensures p == q
    decreases |p|
  {
    var k := At(folders, hosts, p).value;
    var pi, qi := p[..|p| - 1], q[..|q| - 1];
    AtIsInItsList(folders, hosts, p);
    AtIsInItsList(folders, hosts, q);
    if pi == [] || qi == [] {
      BothAtRoot(folders, hosts, pi, qi, k);
    } else {
      ParentOnPath(folders, hosts, pi, k);
      ParentOnPath(folders, hosts, qi, k);
      ShownOnce(folders, hosts, pi, qi);
    }
    SamePosition(folders, hosts, pi, p[|p| - 1], q[|q| - 1]);
    assert p == pi + [p[|p| - 1]] && q == qi + [q[|q| - 1]];
  }

  // ---------------------------------------------------------------- which items are shown

  predicate IsParent(folders: seq<Folder>, hosts: seq<Host>, j: nat, k: nat)
    requires k < Count(folders, hosts)
  {
    j < |folders| && Place(folders, hosts, k) == Some(folders[j].id)
  }

  /** Going up from item `k` by `n` folders comes to the root. */
  ghost predicate Rooted(folders: seq<Folder>, hosts: seq<Host>, k: nat, n: nat)
    requires k < Count(folders, hosts)
    decreases n
  {
    || Place(folders, hosts, k) == None
    || (n > 0 && exists j: nat :: IsParent(folders, hosts, j, k) && Rooted(folders, hosts, j, n - 1))
  }

  ghost predicate ComesToRoot(folders: seq<Folder>, hosts: seq<Host>, k: nat)
    requires k < Count(folders, hosts)
  {
    exists n: nat :: Rooted(folders, hosts, k, n)
  }

  ghost predicate Shown(folders: seq<Folder>, hosts: seq<Host>, k: nat) {
    exists path :: At(folders, hosts, path) == Some(k)
  }

  lemma ShownAsChild(folders: seq<Folder>, hosts: seq<Host>, path: seq<nat>, k: nat)
    requires k in ListAt(folders, hosts, path)
    ensures Shown(folders, hosts, k)
  {
    var list := ListAt(folders, hosts, path);
    var i: nat :| i < |list| && list[i] == k;
    var longer := path + [i];
    assert longer[..|longer| - 1] == path;
    assert At(folders, hosts, longer) == Some(k);
  }

  lemma {:induction false} RootedIsShown(folders: seq<Folder>, hosts: seq<Host>, k: nat, n: nat)
    requires k < Count(folders, hosts) && Rooted(folders, hosts, k, n)
    ensures Shown(folders, hosts, k)
    decreases n
  {
    var place := Place(folders, hosts, k);
    PickedHolds(folders, hosts, Count(folders, hosts), place, k);
    if place == None {
      ShownAsChild(folders, hosts, [], k);
    } else {
      var j: nat :| IsParent(folders, hosts, j, k) && Rooted(folders, hosts, j, n - 1);
      RootedIsShown(folders, hosts, j, n - 1);
      var path :| At(folders, hosts, path) == Some(j);
      ShownAsChild(folders, hosts, path, k);
    }
  }

  lemma {:induction false} ShownIsRooted(folders: seq<Folder>, hosts: seq<Host>, path: seq<nat>)
    requires At(folders, hosts, path).Some?
    ensures Rooted(folders, hosts, At(folders, hosts, path).value, |path|)
    decreases |path|
  {
    var k := At(folders, hosts, path).value;
    var init := path[..|path| - 1];
    AtIsInItsList(folders, hosts, path);
    if init == [] {
      RootHasNoPlace(folders, hosts, k);
    } else {
      ParentOnPath(folders, hosts, init, k);
      ShownIsRooted(folders, hosts, init);
      assert IsParent(folders, hosts, At(folders, hosts, init).value, k);
    }
  }

  /**
    An item is on screen exactly when the folders above it come to an end. In an acyclic list that is every
    item; a folder on a loop, and all that hangs below it, is not shown at all.
   */
  lemma ShownExactlyWhenRooted(folders: seq<Folder>, hosts: seq<Host>, k: nat)
    requires k < Count(folders, hosts)
    ensures Shown(folders, hosts, k) <==> ComesToRoot(folders, hosts, k)
  {
    if Shown(folders, hosts, k) {
      var path :| At(folders, hosts, path) == Some(k);
      ShownIsRooted(folders, hosts, path);
      assert Rooted(folders, hosts, k, |path|);
    }
    if ComesToRoot(folders, hosts, k) {
      var n: nat :| Rooted(folders, hosts, k, n);
      RootedIsShown(folders, hosts, k, n);
    }
  }

  lemma {:induction false} NeverRooted(folders: seq<Folder>, hosts: seq<Host>, n: nat)
    requires folders == [Folder(1, Some(2), "a"), Folder(2, Some(1), "b")]
    ensures !Rooted(folders, hosts, 0, n) && !Rooted(folders, hosts, 1, n)
    decreases n
  {
    assert folders[0].id == 1 && folders[1].id == 2;
    assert HasFolder(folders, 1) && HasFolder(folders, 2);
    if n > 0 {
      NeverRooted(folders, hosts, n - 1);
      forall j: nat, k: nat | k < 2 && IsParent(folders, hosts, j, k)
        ensures !Rooted(folders, hosts, j, n - 1)
      {
        assert j == 0 || j == 1;
      }
    }
  }

  /** Two folders inside each other take each other off the screen. */
  lemma LoopVanishes(hosts: seq<Host>)
    ensures
      var folders := [Folder(1, Some(2), "a"), Folder(2, Some(1), "b")];
      !Shown(folders, hosts, 0) && !Shown(folders, hosts, 1)
  {
    var folders := [Folder(1, Some(2), "a"), Folder(2, Some(1), "b")];
    forall n: nat ensures !Rooted(folders, hosts, 0, n) && !Rooted(folders, hosts, 1, n) {
      NeverRooted(folders, hosts, n);
    }
    ShownExactlyWhenRooted(folders, hosts, 0);
    ShownExactlyWhenRooted(folders, hosts, 1);
  }

  // ---------------------------------------------------------------- folders from the store

  /** The listed folders are rows of a table, perhaps not all and in any order. */
  predicate RowsOf(folders: seq<Folder>, table: Store.Table) {
    forall i | 0 <= i < |folders| :: folders[i].id in table && table[folders[i].id].parent == folders[i].parent
  }

  lemma {:induction false} ClimbIsRooted(folders: seq<Folder>, hosts: seq<Host>, table: Store.Table, k: nat, n: nat)
    requires RowsOf(folders, table) && k < |folders|
    requires Store.Climb(table, folders[k].id, n) == None
    ensures Rooted(folders, hosts, k, n)
    decreases n
  {
    var place := Place(folders, hosts, k);
    if place.Some? {
      Store.ClimbFirst(table, folders[k].id, n - 1);
      var j: nat :| j < |folders| && folders[j].id == place.value;
      ClimbIsRooted(folders, hosts, table, j, n - 1);
      assert IsParent(folders, hosts, j, k);
    }
  }

  /** Whatever part of a store's forest is listed, and wherever the hosts say they are, everything is on screen. */
  lemma ForestIsShown(folders: seq<Folder>, hosts: seq<Host>, table: Store.Table, k: nat)
    requires RowsOf(folders, table) && Store.Forest(table) && k < Count(folders, hosts)
    ensures Shown(folders, hosts, k)
  {
    if k < |folders| {
      var n: nat :| Store.Climb(table, folders[k].id, n) == None;
      ClimbIsRooted(folders, hosts, table, k, n);
      RootedIsShown(folders, hosts, k, n);
    } else if Place(folders, hosts, k) == None {
      assert Rooted(folders, hosts, k, 0);
      RootedIsShown(folders, hosts, k, 0);
    } else {
      var j: nat :| j < |folders| && folders[j].id == Place(folders, hosts, k).value;
      var n: nat :| Store.Climb(table, folders[j].id, n) == None;
      ClimbIsRooted(folders, hosts, table, j, n);
      assert IsParent(folders, hosts, j, k);
      assert Rooted(folders, hosts, k, n + 1);
      RootedIsShown(folders, hosts, k, n + 1);
    }
  }

  // ---------------------------------------------------------------- the nodes on screen
}
