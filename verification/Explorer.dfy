/** buildTree and toNodes: a trie of heap nodes, and the listing read off it. */
module Explorer {
  import opened Prelude
  import opened Text
  import opened FileTree

  class TreeNode {
    var name: string
    var order: seq<string>
    var children: map<string, TreeNode>
    ghost const path: Path

    constructor (name: string, ghost path: Path)
      ensures this.name == name && order == [] && children == map[] && this.path == path
    {
      this.name, order, children, this.path := name, [], map[], path;
    }
  }

  // ----- the shape of the heap ------------------------------------------------------

  /** A node for path p that lists order and links children: exactly the paths one component longer. */
  ghost predicate Links(at: map<Path, TreeNode>, p: Path, order: seq<string>, children: map<string, TreeNode>) {
    && Distinct(order)
    && (forall k :: k in order <==> k in children)
    && (forall k :: k in children <==> p + [k] in at)
    && (forall k :: k in children ==> children[k] == at[p + [k]])
  }

  ghost predicate NodeOk(at: map<Path, TreeNode>, p: Path)
    requires p in at
    reads at[p]
  {
    Links(at, p, at[p].order, at[p].children)
  }

  function Parent(p: Path): Path
    requires p != []
  {
    p[..|p| - 1]
  }

  /** at names every node by its path: a tree, no node shared, all hanging off root. */
  ghost predicate Trie(root: TreeNode, at: map<Path, TreeNode>, nodes: set<TreeNode>)
    reads nodes
  {
    && [] in at && at[[]] == root
    && (forall p {:trigger at[p]} :: p in at ==> at[p] in nodes && at[p].path == p)
    && (forall p {:trigger NodeOk(at, p)} :: p in at ==> NodeOk(at, p))
    && (forall p {:trigger Parent(p)} :: p in at && p != [] ==> Parent(p) in at)
  }

  // ----- toNodes ----------------------------------------------------------------------

  function InsertNode(x: FileNode, nodes: seq<FileNode>): seq<FileNode> {
    if nodes == [] then [x]
    else if Le(x.name, nodes[0].name) then [x] + nodes
    else [nodes[0]] + InsertNode(x, nodes[1..])
  }

  /** sort.Slice by name; sibling names differ, so there is only one sorted order. */
  function SortNodes(nodes: seq<FileNode>): seq<FileNode> {
    if nodes == [] then [] else InsertNode(nodes[0], SortNodes(nodes[1..]))
  }

  lemma {:induction false} InsertFile(k: string, names: seq<string>)
    ensures InsertNode(Leaf(k), Files(names)) == Files(Insert(k, names))
  {
    if names != [] { InsertFile(k, names[1..]); }
  }

  lemma {:induction false} SortFiles(names: seq<string>)
    ensures SortNodes(Files(names)) == Files(Sort(names))
  {
    if names != [] {
      SortFiles(names[1..]);
      InsertFile(names[0], Sort(names[1..]));
    }
  }

  lemma {:induction false} InsertFolder(paths: set<Path>, p: Path, k: string, names: seq<string>)
    requires k in Kids(paths, p) && forall n :: n in names ==> n in Kids(paths, p)
    ensures forall n :: n in Insert(k, names) ==> n in Kids(paths, p)
    ensures InsertNode(Folder(k, NodesOf(paths, p + [k])), Folders(paths, p, names)) == Folders(paths, p, Insert(k, names))
  {
    if names != [] {
      InsertFolder(paths, p, k, names[1..]);
      assert Folders(paths, p, names)[1..] == Folders(paths, p, names[1..]);
      assert ([k] + names)[1..] == names;
    }
  }

  lemma {:induction false} SortFolders(paths: set<Path>, p: Path, names: seq<string>)
    requires forall n :: n in names ==> n in Kids(paths, p)
    ensures forall n :: n in Sort(names) ==> n in Kids(paths, p)
    ensures SortNodes(Folders(paths, p, names)) == Folders(paths, p, Sort(names))
  {
    if names != [] {
      SortFolders(paths, p, names[1..]);
      InsertFolder(paths, p, names[0], Sort(names[1..]));
    }
  }

  function Among(names: seq<string>, kept: set<string>): (r: seq<string>)
    ensures forall k :: k in r <==> k in names && k in kept
    ensures Distinct(names) ==> Distinct(r)
  {
    if names == [] then []
    else Among(names[..|names| - 1], kept) + if names[|names| - 1] in kept then [names[|names| - 1]] else []
  }

  lemma {:induction false} FoldersSnoc(paths: set<Path>, p: Path, names: seq<string>, k: string)
    requires k in Kids(paths, p) && forall n :: n in names ==> n in Kids(paths, p)
    ensures Folders(paths, p, names + [k]) == Folders(paths, p, names) + [Folder(k, NodesOf(paths, p + [k]))]
  {
    if names == [] {
      assert names + [k] == [k];
    } else {
      assert (names + [k])[1..] == names[1..] + [k];
      FoldersSnoc(paths, p, names[1..], k);
    }
  }

  lemma {:induction false} FilesSnoc(names: seq<string>, k: string)
    ensures Files(names + [k]) == Files(names) + [Leaf(k)]
  {
    if names == [] {
      assert names + [k] == [k];
    } else {
      assert (names + [k])[1..] == names[1..] + [k];
      FilesSnoc(names[1..], k);
    }
  }

  lemma KidsAreChildren(at: map<Path, TreeNode>, p: Path)
    requires p in at && NodeOk(at, p)
    ensures Kids(at.Keys, p) == at[p].children.Keys
  {
    forall k ensures k in Kids(at.Keys, p) <==> k in at[p].children { KidPath(at.Keys, p, k); }
  }

  /** The folders and the files among the first children, in the order they were added. */
  ghost function FoldersAmong(paths: set<Path>, p: Path, names: seq<string>): seq<FileNode> {
    Folders(paths, p, Among(names, FolderNames(paths, p)))
  }

  function FilesAmong(paths: set<Path>, p: Path, names: seq<string>): seq<FileNode> {
    Files(Among(names, FileNames(paths, p)))
  }

  lemma OneMoreChild(paths: set<Path>, p: Path, names: seq<string>, k: string)
    requires k in Kids(paths, p)
    ensures FoldersAmong(paths, p, names + [k]) == FoldersAmong(paths, p, names)
              + if Kids(paths, p + [k]) != {} then [Folder(k, NodesOf(paths, p + [k]))] else []
    ensures FilesAmong(paths, p, names + [k]) == FilesAmong(paths, p, names)
              + if Kids(paths, p + [k]) != {} then [] else [Leaf(k)]
  {
    OneMoreFolder(paths, p, Among(names, FolderNames(paths, p)), names, k);
    OneMoreFile(paths, p, Among(names, FileNames(paths, p)), names, k);
  }

  lemma OneMoreFolder(paths: set<Path>, p: Path, was: seq<string>, names: seq<string>, k: string)
    requires k in Kids(paths, p) && was == Among(names, FolderNames(paths, p))
    ensures FoldersAmong(paths, p, names + [k])
            == Folders(paths, p, was) + if Kids(paths, p + [k]) != {} then [Folder(k, NodesOf(paths, p + [k]))] else []
  {
    AmongSnoc(names, k, FolderNames(paths, p));
    assert k in FolderNames(paths, p) <==> Kids(paths, p + [k]) != {};
    if k in FolderNames(paths, p) { FoldersSnoc(paths, p, was, k); }
  }

  lemma OneMoreFile(paths: set<Path>, p: Path, was: seq<string>, names: seq<string>, k: string)
    requires k in Kids(paths, p) && was == Among(names, FileNames(paths, p))
    ensures FilesAmong(paths, p, names + [k]) == Files(was) + if Kids(paths, p + [k]) != {} then [] else [Leaf(k)]
  {
    AmongSnoc(names, k, FileNames(paths, p));
    assert k in FileNames(paths, p) <==> Kids(paths, p + [k]) == {};
    if k in FileNames(paths, p) { FilesSnoc(was, k); }
  }

  /** toNodes */
  method ToNodes(n: TreeNode, ghost root: TreeNode, ghost at: map<Path, TreeNode>, ghost all: set<TreeNode>, ghost p: Path)
      returns (nodes: seq<FileNode>)
    requires Trie(root, at, all) && p in at && at[p] == n
    ensures nodes == NodesOf(at.Keys, p)
    decreases |Below(at.Keys, p)|
  {
    var dirs: seq<FileNode>, files: seq<FileNode> := [], [];
    ghost var paths := at.Keys;
    assert NodeOk(at, p);
    KidsAreChildren(at, p);
    for i := 0 to |n.order|
      invariant dirs == FoldersAmong(paths, p, n.order[..i]) && files == FilesAmong(paths, p, n.order[..i])
    {
      var k := n.order[i];
      assert k in n.order && n.order[..i + 1] == n.order[..i] + [k];
      var c := n.children[k];
      assert NodeOk(at, p + [k]);
      KidsAreChildren(at, p + [k]);
      KidBelow(paths, p, k);
      OneMoreChild(paths, p, n.order[..i], k);
      if |c.children| > 0 {
        var sub := ToNodes(c, root, at, all, p + [k]);
        dirs := dirs + [Folder(k, sub)];
      } else {
        files := files + [Leaf(k)];
      }
    }
    assert n.order[..|n.order|] == n.order;
    SortedListing(paths, p, n.order);
    nodes := SortNodes(dirs) + SortNodes(files);
  }

  lemma AmongSnoc(names: seq<string>, k: string, kept: set<string>)
    ensures Among(names + [k], kept) == Among(names, kept) + if k in kept then [k] else []
  {
    assert (names + [k])[..|names|] == names;
  }

  /** Collecting the children in insertion order and sorting gives the listing. */
  lemma SortedListing(paths: set<Path>, p: Path, order: seq<string>)
    requires Distinct(order) && forall k :: k in order <==> k in Kids(paths, p)
    ensures SortNodes(FoldersAmong(paths, p, order)) + SortNodes(FilesAmong(paths, p, order)) == NodesOf(paths, p)
  {
    var folderNames, fileNames := FolderNames(paths, p), FileNames(paths, p);
    SortFolders(paths, p, Among(order, folderNames));
    SortFiles(Among(order, fileNames));
    SortIsInOrder(Among(order, folderNames), folderNames);
    SortIsInOrder(Among(order, fileNames), fileNames);
  }

  // ----- buildTree ----------------------------------------------------------------------

  /** One step down: the child called part, made if it is not there. */
  method Descend(cur: TreeNode, part: string, ghost root: TreeNode, ghost at: map<Path, TreeNode>,
                 ghost all: set<TreeNode>, ghost p: Path)
      returns (next: TreeNode, ghost at': map<Path, TreeNode>, ghost all': set<TreeNode>)
    requires Trie(root, at, all) && p in at && at[p] == cur
    modifies cur
    ensures Trie(root, at', all') && at'.Keys == at.Keys + {p + [part]} && at'[p + [part]] == next
    ensures all <= all' && fresh(all' - all)
  {
    assert NodeOk(at, p);
    if part in cur.children {
      next, at', all' := cur.children[part], at, all;
      assert p + [part] in at;
    } else {
      next := new TreeNode(part, p + [part]);
      at', all' := at[p + [part] := next], all + {next};
      LinkNew(at, p, part, next);
      LinkParent(at, p, part, next, cur.order, cur.children);
      forall q | q in at && q != p ensures Links(at', q, at[q].order, at[q].children) {
        assert NodeOk(at, q);
        LinkOther(at, p, part, next, q, at[q].order, at[q].children);
      }
      label linked:
      cur.children := cur.children[part := next];
      cur.order := cur.order + [part];
      assert Parent(p + [part]) == p;
      forall q | q in at' ensures NodeOk(at', q) {
        if q != p && q != p + [part] {
          assert at[q].path == q && at'[q] != cur;
          assert old@linked(Links(at', q, at[q].order, at[q].children));
        }
      }
    }
  }

  // Hanging an empty node under p keeps every node's links right.

  lemma LinkNew(at: map<Path, TreeNode>, p: Path, part: string, next: TreeNode)
    requires p + [part] !in at && forall q {:trigger Parent(q)} :: q in at && q != [] ==> Parent(q) in at
    ensures Links(at[p + [part] := next], p + [part], [], map[])
  {
    forall k ensures p + [part] + [k] !in at { assert Parent(p + [part] + [k]) == p + [part]; }
  }

  lemma LinkParent(at: map<Path, TreeNode>, p: Path, part: string, next: TreeNode, order: seq<string>,
                   children: map<string, TreeNode>)
    requires Links(at, p, order, children) && part !in children
    ensures Links(at[p + [part] := next], p, order + [part], children[part := next])
  {
    forall k ensures p + [k] == p + [part] <==> k == part { SnocInjective(p, k, p, part); }
  }

  lemma LinkOther(at: map<Path, TreeNode>, p: Path, part: string, next: TreeNode, q: Path, order: seq<string>,
                  children: map<string, TreeNode>)
    requires Links(at, q, order, children) && q != p && p + [part] !in at
    ensures Links(at[p + [part] := next], q, order, children)
  {
    forall k ensures q + [k] != p + [part] { SnocInjective(q, k, p, part); }
  }

  lemma SnocInjective(q: Path, k: string, p: Path, part: string)
    ensures q + [k] == p + [part] <==> q == p && k == part
  {
    if q + [k] == p + [part] {
      assert (q + [k])[..|q|] == q && (p + [part])[..|p|] == p;
      assert (q + [k])[|q|] == k;
    }
  }

  function NonEmptyParts(parts: seq<string>): Path {
    if parts == [] then []
    else NonEmptyParts(parts[..|parts| - 1]) + if parts[|parts| - 1] == "" then [] else [parts[|parts| - 1]]
  }

  /** A path's components; empty ones are passed over. */
  function Components(p: string): Path {
    NonEmptyParts(SplitOn(p, '/'))
  }

  function ComponentsOf(ps: seq<string>): seq<Path> {
    seq(|ps|, i requires 0 <= i < |ps| => Components(ps[i]))
  }

  lemma PrefixesSnoc(p: Path, k: string)
    ensures Prefixes(p + [k]) == Prefixes(p) + {p + [k]}
  {
    forall x ensures x in Prefixes(p + [k]) <==> x in Prefixes(p) + {p + [k]} {
      PrefixesAre(p + [k], x);
      PrefixesAre(p, x);
      assert x <= p ==> x <= p + [k];
      assert x <= p + [k] && |x| <= |p| ==> x <= p;
      assert x <= p + [k] && |x| == |p| + 1 ==> x == p + [k];
    }
  }

  /** The walk down one path: it adds that path and its prefixes, and nothing else. */
  method AddPath(path: string, root: TreeNode, ghost at: map<Path, TreeNode>, ghost all: set<TreeNode>)
      returns (ghost at': map<Path, TreeNode>, ghost all': set<TreeNode>)
    requires Trie(root, at, all)
    modifies all
    ensures Trie(root, at', all') && at'.Keys == at.Keys + Prefixes(Components(path))
    ensures all <= all' && fresh(all' - all)
  {
    var cur := root;
    var parts := SplitOn(path, '/');
    at', all' := at, all;
    for i := 0 to |parts|
      invariant Trie(root, at', all') && all <= all' && fresh(all' - all)
      invariant NonEmptyParts(parts[..i]) in at' && at'[NonEmptyParts(parts[..i])] == cur
      invariant at'.Keys == at.Keys + Prefixes(NonEmptyParts(parts[..i]))
    {
      var part := parts[i];
      ghost var p := NonEmptyParts(parts[..i]);
      assert parts[..i + 1][..i] == parts[..i];
      assert NonEmptyParts(parts[..i + 1]) == if part == "" then p else p + [part];
      if part != "" {
        PrefixesSnoc(p, part);
        ghost var before := all';
        cur, at', all' := Descend(cur, part, root, at', all', p);
        assert all' - all == (all' - before) + (before - all);
      }
    }
    assert parts[..|parts|] == parts;
  }

  /** buildTree: the tree of the paths' components, whatever order they come in. */
  method BuildTree(paths: seq<string>) returns (nodes: seq<FileNode>)
    ensures nodes == Tree(ComponentsOf(paths))
  {
    var root := new TreeNode("", []);
    ghost var at, all := map[[] := root], {root};
    for i := 0 to |paths|
      invariant Trie(root, at, all) && fresh(all)
      invariant at.Keys == Closure(ComponentsOf(paths[..i]))
    {
      assert ComponentsOf(paths[..i + 1])[..i] == ComponentsOf(paths[..i]);
      at, all := AddPath(paths[i], root, at, all);
    }
    assert paths[..|paths|] == paths;
    nodes := ToNodes(root, root, at, all, []);
  }
}
