/**
  The explorer's file tree as a function of a set of paths: folders before
  files, each in order. Nothing here depends on the order the paths came in.
*/
module FileTree {
  import opened Prelude
  import opened Text

  /** The components of a slash-separated path. */
  type Path = seq<string>

  datatype FileNode = Leaf(name: string) | Folder(name: string, children: seq<FileNode>)

  function Below(paths: set<Path>, p: Path): set<Path> {
    set q | q in paths && p < q
  }

  function Kids(paths: set<Path>, p: Path): set<string> {
    set q | q in paths && p < q && |q| == |p| + 1 :: q[|p|]
  }

  /** With every path come all its prefixes. */
  ghost predicate Closed(paths: set<Path>) {
    forall q, i :: q in paths && 0 <= i <= |q| ==> q[..i] in paths
  }

  lemma KidPath(paths: set<Path>, p: Path, k: string)
    ensures k in Kids(paths, p) <==> p + [k] in paths
  {
    if p + [k] in paths {
      var q := p + [k];
      assert p < q && q[|p|] == k;
    }
    if k in Kids(paths, p) {
      var q :| q in paths && p < q && |q| == |p| + 1 && q[|p|] == k;
      assert q == p + [k];
    }
  }

  lemma KidBelow(paths: set<Path>, p: Path, k: string)
    requires k in Kids(paths, p)
    ensures |Below(paths, p + [k])| < |Below(paths, p)|
  {
    KidPath(paths, p, k);
    Smaller(Below(paths, p + [k]), Below(paths, p), p + [k]);
  }

  lemma {:induction false} Smaller<T>(a: set<T>, b: set<T>, x: T)
    requires a <= b && x in b && x !in a
    ensures |a| < |b|
  {
    assert |b| == |a| + |b - a| by { assert b == a + (b - a); }
    assert x in b - a;
  }

  function FolderNames(paths: set<Path>, p: Path): set<string> {
    set k | k in Kids(paths, p) && Kids(paths, p + [k]) != {}
  }

  function FileNames(paths: set<Path>, p: Path): set<string> {
    set k | k in Kids(paths, p) && Kids(paths, p + [k]) == {}
  }

  /** The listing of the folder at p. */
  ghost function NodesOf(paths: set<Path>, p: Path): seq<FileNode>
    decreases |Below(paths, p)|, 1, 0
  {
    InOrderMembers(FolderNames(paths, p));
    Folders(paths, p, InOrder(FolderNames(paths, p))) + Files(InOrder(FileNames(paths, p)))
  }

  ghost function Folders(paths: set<Path>, p: Path, names: seq<string>): (r: seq<FileNode>)
    requires forall k :: k in names ==> k in Kids(paths, p)
    ensures |r| == |names| && forall i :: 0 <= i < |r| ==> r[i].Folder? && r[i].name == names[i]
    decreases |Below(paths, p)|, 0, |names|
  {
    if names == [] then []
    else
      KidBelow(paths, p, names[0]);
      [Folder(names[0], NodesOf(paths, p + [names[0]]))] + Folders(paths, p, names[1..])
  }

  function Files(names: seq<string>): (r: seq<FileNode>)
    ensures |r| == |names| && forall i :: 0 <= i < |r| ==> r[i] == Leaf(names[i])
  {
    if names == [] then [] else [Leaf(names[0])] + Files(names[1..])
  }

  lemma {:induction false} FolderAt(paths: set<Path>, p: Path, names: seq<string>, i: nat)
    requires (forall k :: k in names ==> k in Kids(paths, p)) && i < |names|
    ensures Folders(paths, p, names)[i] == Folder(names[i], NodesOf(paths, p + [names[i]]))
  {
    if i > 0 { FolderAt(paths, p, names[1..], i - 1); }
  }

  // ----- leaves --------------------------------------------------------------------

  /** The paths of the files in a listing of the folder at p, in the order they appear. */
  function Leaves(nodes: seq<FileNode>, p: Path): seq<Path>
    decreases nodes
  {
    if nodes == [] then []
    else
      (match nodes[0] case Leaf(k) => [p + [k]] case Folder(k, children) => Leaves(children, p + [k]))
      + Leaves(nodes[1..], p)
  }

  lemma {:induction false} LeavesConcat(a: seq<FileNode>, b: seq<FileNode>, p: Path)
    ensures Leaves(a + b, p) == Leaves(a, p) + Leaves(b, p)
    decreases |a|
  {
    if a == [] {
      assert a + b == b;
    } else {
      assert (a + b)[1..] == a[1..] + b;
      LeavesConcat(a[1..], b, p);
    }
  }

  /** x ends the path: it lies below p, and nothing lies below it. */
  predicate Ends(paths: set<Path>, p: Path, x: Path) {
    x in paths && p < x && Kids(paths, x) == {}
  }

  /** The leaves under a folder listing are exactly the ends below it. */
  lemma {:induction false} LeavesAreEnds(paths: set<Path>, p: Path, x: Path)
    requires Closed(paths)
    ensures x in Leaves(NodesOf(paths, p), p) <==> Ends(paths, p, x)
    decreases |Below(paths, p)|, 1, 0
  {
    var dirs, files := InOrder(FolderNames(paths, p)), InOrder(FileNames(paths, p));
    InOrderMembers(FolderNames(paths, p));
    InOrderMembers(FileNames(paths, p));
    LeavesConcat(Folders(paths, p, dirs), Files(files), p);
    FolderLeaves(paths, p, dirs, x);
    FileLeaves(files, p, x);
    EndsBelowKid(paths, p, x);
  }

  lemma {:induction false} FileLeaves(names: seq<string>, p: Path, x: Path)
    ensures x in Leaves(Files(names), p) <==> |x| == |p| + 1 && p < x && x[|p|] in names
  {
    if names != [] {
      FileLeaves(names[1..], p, x);
      assert x == p + [names[0]] <==> |x| == |p| + 1 && p < x && x[|p|] == names[0];
    }
  }

  /** Below a folder an end lies in one of its entries. */
  lemma EndsBelowKid(paths: set<Path>, p: Path, x: Path)
    requires Closed(paths)
    ensures Ends(paths, p, x) <==>
              || (p < x && |x| == |p| + 1 && x[|p|] in FileNames(paths, p))
              || (p < x && x[|p|] in FolderNames(paths, p) && Ends(paths, p + [x[|p|]], x))
  {
    if p < x {
      var kid := p + [x[|p|]];
      assert x[..|p| + 1] == kid;
      KidPath(paths, p, x[|p|]);
      if |x| == |p| + 1 {
        assert x == kid;
      } else if x in paths {
        assert x[..|p| + 2] == kid + [x[|p| + 1]];
        KidPath(paths, kid, x[|p| + 1]);
      }
    }
  }

  lemma {:induction false} FolderLeaves(paths: set<Path>, p: Path, names: seq<string>, x: Path)
    requires Closed(paths) && forall k :: k in names ==> k in Kids(paths, p)
    ensures x in Leaves(Folders(paths, p, names), p) <==> p < x && x[|p|] in names && Ends(paths, p + [x[|p|]], x)
    decreases |Below(paths, p)|, 0, |names|
  {
    if names != [] {
      var kid := p + [names[0]];
      KidBelow(paths, p, names[0]);
      LeavesAreEnds(paths, kid, x);
      FolderLeaves(paths, p, names[1..], x);
      assert kid < x ==> p < x && x[|p|] == names[0];
    }
  }

  lemma DistinctConcat<T>(a: seq<T>, b: seq<T>)
    requires Distinct(a) && Distinct(b) && forall x :: !(x in a && x in b)
    ensures Distinct(a + b)
  {
    forall i, j | 0 <= i < j < |a + b| ensures (a + b)[i] != (a + b)[j] {
      if i < |a| <= j { assert a[i] in a && b[j - |a|] in b; }
    }
  }

  /** No file appears twice. */
  lemma {:induction false} LeavesAreDistinct(paths: set<Path>, p: Path)
    requires Closed(paths)
    ensures Distinct(Leaves(NodesOf(paths, p), p))
    decreases |Below(paths, p)|, 1, 0
  {
    var dirs, files := InOrder(FolderNames(paths, p)), InOrder(FileNames(paths, p));
    InOrderMembers(FolderNames(paths, p));
    InOrderMembers(FileNames(paths, p));
    InOrderIsDistinct(FolderNames(paths, p));
    InOrderIsDistinct(FileNames(paths, p));
    FolderLeavesAreDistinct(paths, p, dirs);
    FileLeavesAreDistinct(files, p);
    forall x ensures !(x in Leaves(Folders(paths, p, dirs), p) && x in Leaves(Files(files), p)) {
      FolderLeaves(paths, p, dirs, x);
      FileLeaves(files, p, x);
    }
    LeavesConcat(Folders(paths, p, dirs), Files(files), p);
    DistinctConcat(Leaves(Folders(paths, p, dirs), p), Leaves(Files(files), p));
  }

  lemma {:induction false} FileLeavesAreDistinct(names: seq<string>, p: Path)
    requires Distinct(names)
    ensures Distinct(Leaves(Files(names), p))
  {
    if names != [] {
      FileLeavesAreDistinct(names[1..], p);
      FileLeaves(names[1..], p, p + [names[0]]);
      DistinctConcat([p + [names[0]]], Leaves(Files(names[1..]), p));
    }
  }

  lemma {:induction false} FolderLeavesAreDistinct(paths: set<Path>, p: Path, names: seq<string>)
    requires Closed(paths) && Distinct(names) && forall k :: k in names ==> k in Kids(paths, p)
    ensures Distinct(Leaves(Folders(paths, p, names), p))
    decreases |Below(paths, p)|, 0, |names|
  {
    if names != [] {
      var kid := p + [names[0]];
      KidBelow(paths, p, names[0]);
      LeavesAreDistinct(paths, kid);
      FolderLeavesAreDistinct(paths, p, names[1..]);
      var here, rest := Leaves(NodesOf(paths, kid), kid), Leaves(Folders(paths, p, names[1..]), p);
      forall x ensures !(x in here && x in rest) {
        LeavesAreEnds(paths, kid, x);
        FolderLeaves(paths, p, names[1..], x);
        assert kid < x ==> x[|p|] == names[0];
      }
      DistinctConcat(here, rest);
    }
  }

  // ----- shape -----------------------------------------------------------------------

  /** a may stand before b. */
  predicate InListingOrder(a: FileNode, b: FileNode) {
    a.name != b.name && (a.Leaf? ==> b.Leaf?) && (a.Leaf? == b.Leaf? ==> Le(a.name, b.name))
  }

  /** Sibling names differ, folders come first, each kind is in order, and no folder is empty. */
  predicate Shaped(nodes: seq<FileNode>)
    decreases nodes
  {
    && (forall i, j :: 0 <= i < j < |nodes| ==> InListingOrder(nodes[i], nodes[j]))
    && (forall i :: 0 <= i < |nodes| && nodes[i].Folder? ==> nodes[i].children != [] && Shaped(nodes[i].children))
  }

  lemma {:induction false} ListingsAreShaped(paths: set<Path>, p: Path)
    ensures Shaped(NodesOf(paths, p))
    decreases |Below(paths, p)|
  {
    var dirs := InOrder(FolderNames(paths, p));
    var nodes := NodesOf(paths, p);
    InOrderMembers(FolderNames(paths, p));
    ListingIsInOrder(paths, p);
    forall i | 0 <= i < |nodes| && nodes[i].Folder? ensures nodes[i].children != [] && Shaped(nodes[i].children) {
      assert dirs[i] in dirs;
      FolderAt(paths, p, dirs, i);
      KidBelow(paths, p, dirs[i]);
      ListingsAreShaped(paths, p + [dirs[i]]);
      ListingIsNotEmpty(paths, p + [dirs[i]]);
    }
  }

  lemma ListingIsInOrder(paths: set<Path>, p: Path)
    ensures var nodes := NodesOf(paths, p);
            forall i, j :: 0 <= i < j < |nodes| ==> InListingOrder(nodes[i], nodes[j])
  {
    var dirs, files := InOrder(FolderNames(paths, p)), InOrder(FileNames(paths, p));
    var nodes := NodesOf(paths, p);
    InOrderSorts(FolderNames(paths, p));
    InOrderSorts(FileNames(paths, p));
    InOrderIsDistinct(FolderNames(paths, p));
    InOrderIsDistinct(FileNames(paths, p));
    forall i, j | 0 <= i < j < |nodes| ensures InListingOrder(nodes[i], nodes[j]) {
      NodeAt(paths, p, i);
      NodeAt(paths, p, j);
    }
  }

  lemma NodeAt(paths: set<Path>, p: Path, i: nat)
    requires i < |NodesOf(paths, p)|
    ensures var dirs, files := InOrder(FolderNames(paths, p)), InOrder(FileNames(paths, p));
            var node := NodesOf(paths, p)[i];
            if i < |dirs| then node.Folder? && node.name == dirs[i] && node.name in FolderNames(paths, p)
            else i - |dirs| < |files| && node == Leaf(files[i - |dirs|]) && node.name in FileNames(paths, p)
  {
    var dirs, files := InOrder(FolderNames(paths, p)), InOrder(FileNames(paths, p));
    InOrderMembers(FolderNames(paths, p));
    if i < |dirs| {
      assert dirs[i] in dirs;
    } else {
      assert Files(files)[i - |dirs|] == Leaf(files[i - |dirs|]);
      InOrderMembers(FileNames(paths, p));
      assert files[i - |dirs|] in files;
    }
  }

  lemma ListingIsNotEmpty(paths: set<Path>, p: Path)
    requires Kids(paths, p) != {}
    ensures NodesOf(paths, p) != []
  {
    var k :| k in Kids(paths, p);
    InOrderMembers(FolderNames(paths, p));
    InOrderMembers(FileNames(paths, p));
    assert k in FolderNames(paths, p) || k in FileNames(paths, p);
    assert k in InOrder(FolderNames(paths, p)) || k in InOrder(FileNames(paths, p));
  }

  // ----- shape and leaves say everything ------------------------------------------------

  /** A leaf under one node bears the node's name, and is deeper exactly if the node is a folder. */
  lemma {:induction false} LeafOfNode(node: FileNode, p: Path, x: Path)
    requires x in Leaves([node], p)
    ensures p < x && x[|p|] == node.name && (node.Leaf? <==> |x| == |p| + 1)
  {
    assert [node][1..] == [];
    if node.Folder? {
      LeafBelow(node.children, p + [node.name], x);
    }
  }

  lemma {:induction false} LeafBelow(nodes: seq<FileNode>, p: Path, x: Path)
    requires x in Leaves(nodes, p)
    ensures p < x
    decreases nodes
  {
    match nodes[0]
    case Leaf(k) => if x != p + [k] { LeafBelow(nodes[1..], p, x); }
    case Folder(k, children) =>
      if x in Leaves(children, p + [k]) { LeafBelow(children, p + [k], x); } else { LeafBelow(nodes[1..], p, x); }
  }

  /** A leaf of a listing lies under one of its nodes. */
  lemma {:induction false} LeafSomewhere(nodes: seq<FileNode>, p: Path, x: Path) returns (i: nat)
    requires x in Leaves(nodes, p)
    ensures i < |nodes| && x in Leaves([nodes[i]], p)
  {
    LeavesConcat([nodes[0]], nodes[1..], p);
    assert nodes == [nodes[0]] + nodes[1..];
    if x in Leaves([nodes[0]], p) {
      i := 0;
    } else {
      i := LeafSomewhere(nodes[1..], p, x);
      i := i + 1;
    }
  }

  lemma {:induction false} LeafOfListing(nodes: seq<FileNode>, p: Path, i: nat, x: Path)
    requires i < |nodes| && x in Leaves([nodes[i]], p)
    ensures x in Leaves(nodes, p)
  {
    LeavesConcat([nodes[0]], nodes[1..], p);
    assert nodes == [nodes[0]] + nodes[1..];
    if i > 0 { LeafOfListing(nodes[1..], p, i - 1, x); }
  }

  /** Every node has a leaf. */
  lemma {:induction false} SomeLeaf(node: FileNode, p: Path) returns (x: Path)
    requires Shaped([node])
    ensures x in Leaves([node], p)
    decreases node
  {
    assert [node][1..] == [] && [node][0] == node;
    match node
    case Leaf(k) => x := p + [k];
    case Folder(k, children) =>
      assert Shaped(children) && children != [];
      assert Shaped([children[0]]);
      x := SomeLeaf(children[0], p + [k]);
      LeafOfListing(children, p + [k], 0, x);
  }

  /** The two listings have the same leaves. */
  ghost predicate SameLeaves(a: seq<FileNode>, b: seq<FileNode>, p: Path) {
    forall x :: x in Leaves(a, p) <==> x in Leaves(b, p)
  }

  /** A listing has a node of the same kind and name wherever the other has one. */
  lemma Counterpart(a: seq<FileNode>, b: seq<FileNode>, p: Path, i: nat) returns (j: nat)
    requires Shaped(a) && SameLeaves(a, b, p) && i < |a|
    ensures j < |b| && b[j].name == a[i].name && b[j].Leaf? == a[i].Leaf?
  {
    assert Shaped([a[i]]);
    var x := SomeLeaf(a[i], p);
    LeafOfListing(a, p, i, x);
    LeafOfNode(a[i], p, x);
    j := LeafSomewhere(b, p, x);
    LeafOfNode(b[j], p, x);
  }

  /** So the first nodes correspond. */
  lemma FirstsCorrespond(a: seq<FileNode>, b: seq<FileNode>, p: Path)
    requires Shaped(a) && Shaped(b) && SameLeaves(a, b, p) && a != []
    ensures b != [] && a[0].name == b[0].name && a[0].Leaf? == b[0].Leaf?
  {
    var j := Counterpart(a, b, p, 0);
    var i := Counterpart(b, a, p, 0);
    LeTotal(a[0].name, b[0].name);
    assert i > 0 ==> InListingOrder(a[0], a[i]);
    assert j > 0 ==> InListingOrder(b[0], b[j]);
  }

  lemma LeavesUnderFirst(nodes: seq<FileNode>, p: Path, x: Path)
    requires Shaped(nodes) && nodes != []
    ensures x in Leaves([nodes[0]], p) <==> x in Leaves(nodes, p) && p < x && x[|p|] == nodes[0].name
    ensures x in Leaves(nodes[1..], p) <==> x in Leaves(nodes, p) && p < x && x[|p|] != nodes[0].name
  {
    LeavesConcat([nodes[0]], nodes[1..], p);
    assert nodes == [nodes[0]] + nodes[1..];
    if x in Leaves([nodes[0]], p) { LeafOfNode(nodes[0], p, x); }
    if x in Leaves(nodes[1..], p) { LeafOfTail(nodes, p, x); }
  }

  lemma LeafOfTail(nodes: seq<FileNode>, p: Path, x: Path)
    requires Shaped(nodes) && nodes != [] && x in Leaves(nodes[1..], p)
    ensures p < x && x[|p|] != nodes[0].name
  {
    var i := LeafSomewhere(nodes[1..], p, x);
    var node := nodes[1..][i];
    LeafOfNode(node, p, x);
    assert node == nodes[i + 1] && InListingOrder(nodes[0], nodes[i + 1]);
  }

  lemma ChildLeaves(node: FileNode, p: Path)
    requires node.Folder?
    ensures Leaves([node], p) == Leaves(node.children, p + [node.name])
  {
    assert [node][1..] == [];
    assert Leaves(node.children, p + [node.name]) + [] == Leaves(node.children, p + [node.name]);
  }

  /** There is only one well-shaped listing with given leaves. */
  lemma {:induction false} ListingIsUnique(a: seq<FileNode>, b: seq<FileNode>, p: Path)
    requires Shaped(a) && Shaped(b) && SameLeaves(a, b, p)
    ensures a == b
    decreases a
  {
    if a == [] {
      if b != [] { FirstsCorrespond(b, a, p); }
    } else {
      FirstsCorrespond(a, b, p);
      forall x ensures x in Leaves([a[0]], p) <==> x in Leaves([b[0]], p) {
        LeavesUnderFirst(a, p, x);
        LeavesUnderFirst(b, p, x);
      }
      forall x ensures x in Leaves(a[1..], p) <==> x in Leaves(b[1..], p) {
        LeavesUnderFirst(a, p, x);
        LeavesUnderFirst(b, p, x);
      }
      ShapedTail(a);
      ShapedTail(b);
      ListingIsUnique(a[1..], b[1..], p);
      if a[0].Folder? {
        ChildLeaves(a[0], p);
        ChildLeaves(b[0], p);
        ListingIsUnique(a[0].children, b[0].children, p + [a[0].name]);
      }
      assert a == [a[0]] + a[1..] && b == [b[0]] + b[1..];
    }
  }

  lemma ShapedTail(nodes: seq<FileNode>)
    requires Shaped(nodes) && nodes != []
    ensures Shaped(nodes[1..])
  {
  }

  // ----- the tree of a list of paths -------------------------------------------------

  function Prefixes(q: Path): set<Path> {
    set i | 0 <= i <= |q| :: q[..i]
  }

  /** The given paths with all their prefixes. */
  function Closure(ps: seq<Path>): set<Path> {
    if ps == [] then {[]} else Closure(ps[..|ps| - 1]) + Prefixes(ps[|ps| - 1])
  }

  lemma PrefixesAre(q: Path, x: Path)
    ensures x in Prefixes(q) <==> x <= q
  {
    if x <= q { assert x == q[..|x|]; }
  }

  lemma {:induction false} ClosureIs(ps: seq<Path>, x: Path)
    ensures x in Closure(ps) <==> x == [] || exists q :: q in ps && x <= q
  {
    if ps != [] {
      var init, last := ps[..|ps| - 1], ps[|ps| - 1];
      assert ps == init + [last];
      ClosureIs(init, x);
      PrefixesAre(last, x);
      if x in Closure(init) && x != [] {
        var q :| q in init && x <= q;
        assert q in ps && x <= q;
      }
      if x <= last { assert last in ps && x <= last; }
      if q :| q in ps && x <= q { assert q in init || q == last; }
    }
  }

  lemma ClosureIsClosed(ps: seq<Path>)
    ensures Closed(Closure(ps))
  {
    forall q, i | q in Closure(ps) && 0 <= i <= |q| ensures q[..i] in Closure(ps) {
      ClosureIs(ps, q);
      ClosureIs(ps, q[..i]);
      if q != [] {
        var r :| r in ps && q <= r;
        assert q[..i] <= r;
      }
    }
  }

  /** buildTree as a function: the listing of the root. */
  ghost function Tree(ps: seq<Path>): seq<FileNode> {
    NodesOf(Closure(ps), [])
  }

  /** Some other path continues x. */
  predicate Continued(ps: seq<Path>, x: Path) {
    exists q :: q in ps && x < q
  }

  /** No path is a component-prefix of another. */
  predicate Antichain(ps: seq<Path>) {
    forall x :: x in ps ==> !Continued(ps, x)
  }

  /** The leaves of the tree are the given paths that no other path continues, each once. */
  lemma LeavesAreUncontinuedPaths(ps: seq<Path>)
    requires [] !in ps
    ensures Distinct(Leaves(Tree(ps), []))
    ensures forall x :: x in Leaves(Tree(ps), []) <==> x in ps && !Continued(ps, x)
  {
    var paths := Closure(ps);
    ClosureIsClosed(ps);
    LeavesAreDistinct(paths, []);
    forall x ensures x in Leaves(Tree(ps), []) <==> x in ps && !Continued(ps, x) {
      LeavesAreEnds(paths, [], x);
      EndsAreUncontinued(ps, x);
    }
  }

  lemma EndsAreUncontinued(ps: seq<Path>, x: Path)
    requires [] !in ps
    ensures Ends(Closure(ps), [], x) <==> x in ps && !Continued(ps, x)
  {
    ClosureIs(ps, x);
    if Continued(ps, x) {
      var q :| q in ps && x < q;
      assert x + [q[|x|]] <= q;
      ClosureIs(ps, x + [q[|x|]]);
      KidPath(Closure(ps), x, q[|x|]);
    } else if k :| k in Kids(Closure(ps), x) {
      KidPath(Closure(ps), x, k);
      ClosureIs(ps, x + [k]);
      var q :| q in ps && x + [k] <= q;
      assert x < q;
    }
    if x != [] && x in Closure(ps) && !Continued(ps, x) {
      var q :| q in ps && x <= q;
      assert x == q;
    }
  }

  /** Exactly the given paths come out as files if and only if none is a component-prefix of another. */
  lemma LeavesAreTheInputsIff(ps: seq<Path>)
    requires [] !in ps
    ensures (forall x :: x in Leaves(Tree(ps), []) <==> x in ps) <==> Antichain(ps)
  {
    LeavesAreUncontinuedPaths(ps);
  }

  /** The tree is the same for every order, and every repetition, of the same paths. */
  lemma TreeIgnoresOrder(ps: seq<Path>, qs: seq<Path>)
    requires forall x :: x in ps <==> x in qs
    ensures Tree(ps) == Tree(qs)
  {
    forall x ensures x in Closure(ps) <==> x in Closure(qs) {
      ClosureIs(ps, x);
      ClosureIs(qs, x);
    }
    assert Closure(ps) == Closure(qs);
  }

  /** The tree is the one well-shaped listing whose files are the paths that no other path continues. */
  lemma TreeIsTheOnlyListing(ps: seq<Path>, nodes: seq<FileNode>)
    requires [] !in ps
    ensures nodes == Tree(ps) <==> Shaped(nodes) && forall x :: x in Leaves(nodes, []) <==> x in ps && !Continued(ps, x)
  {
    LeavesAreUncontinuedPaths(ps);
    ListingsAreShaped(Closure(ps), []);
    if Shaped(nodes) && forall x :: x in Leaves(nodes, []) <==> x in ps && !Continued(ps, x) {
      ListingIsUnique(nodes, Tree(ps), []);
    }
  }
}
