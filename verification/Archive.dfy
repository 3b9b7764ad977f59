/** The chart archive: what zipDir writes, which entry names unzipArchive accepts, and the round trip. */
module Archive {
  import opened Prelude
  import opened Text
  import opened FileTree
  import opened Explorer

  // ----- path.Clean -------------------------------------------------------------------

  /** One component met on the way: nothing for "" and ".", one level up for "..". */
  function WalkStep(stack: seq<string>, part: string, rooted: bool): seq<string> {
    if part == "" || part == "." then stack
    else if part != ".." then stack + [part]
    else if stack != [] && stack[|stack| - 1] != ".." then stack[..|stack| - 1]
    else if rooted then stack
    else stack + [part]
  }

  function Walk(parts: seq<string>, rooted: bool): seq<string> {
    if parts == [] then [] else WalkStep(Walk(parts[..|parts| - 1], rooted), parts[|parts| - 1], rooted)
  }

  function Clean(p: string): string {
    var rooted := p != "" && p[0] == '/';
    var out := JoinWith(Walk(SplitOn(p, '/'), rooted), '/');
    if rooted then "/" + out else if out == "" then "." else out
  }

  function Slashed(p: string): string {
    seq(|p|, i requires 0 <= i < |p| => if p[i] == '\\' then '/' else p[i])
  }

  // ----- acceptance --------------------------------------------------------------------

  /** unzipArchive's check of an entry name, after "./" is trimmed off. */
  predicate Accepted(p: string) {
    var clean := Clean(Slashed(p));
    p != "" && p[0] != '/' && clean != ".." && !("../" <= clean) && clean == p
  }

  predicate PlainPart(part: string) {
    part != "" && part != "." && part != ".."
  }

  predicate PlainPath(p: string) {
    '\\' !in p && forall part :: part in SplitOn(p, '/') ==> PlainPart(part)
  }

  /** What is on the stack of path.Clean: no empty or "." component, and ".." only at the bottom. */
  predicate StackOk(stack: seq<string>) {
    && (forall i :: 0 <= i < |stack| ==> stack[i] != "" && stack[i] != "." && '/' !in stack[i] && '\\' !in stack[i])
    && (forall i :: 0 < i < |stack| && stack[i] == ".." ==> stack[i - 1] == "..")
  }

  lemma {:induction false} WalkIsOk(parts: seq<string>, rooted: bool)
    requires forall part :: part in parts ==> '/' !in part && '\\' !in part
    ensures StackOk(Walk(parts, rooted))
  {
    if parts != [] { WalkIsOk(parts[..|parts| - 1], rooted); }
  }

  lemma {:induction false} PlainWalk(parts: seq<string>, rooted: bool)
    requires forall part :: part in parts ==> PlainPart(part)
    ensures Walk(parts, rooted) == parts
  {
    if parts != [] {
      PlainWalk(parts[..|parts| - 1], rooted);
      assert parts[|parts| - 1] in parts;
      assert parts == parts[..|parts| - 1] + [parts[|parts| - 1]];
    }
  }

  lemma {:induction false} BottomDots(stack: seq<string>, i: nat)
    requires StackOk(stack) && i < |stack| && stack[i] == ".."
    ensures stack[0] == ".."
  {
    if i > 0 { BottomDots(stack, i - 1); }
  }

  lemma {:induction false} JoinedChars(parts: seq<string>, sep: char, c: char)
    requires c != sep && forall part :: part in parts ==> c !in part
    ensures c !in JoinWith(parts, sep)
  {
    if |parts| == 1 {
      assert parts[0] in parts;
    } else if parts != [] {
      JoinedChars(parts[1..], sep, c);
      assert parts[0] in parts;
    }
  }

  lemma {:induction false} SplitChars(s: string, sep: char, c: char)
    requires c !in s
    ensures forall part :: part in SplitOn(s, sep) ==> c !in part
    decreases |s|
  {
    match IndexOf(s, sep)
    case None => assert SplitOn(s, sep) == [s];
    case Some(i) => SplitChars(s[i + 1..], sep, c);
  }

  /** The first component of a path, read off its start. */
  lemma FirstPart(p: string)
    ensures SplitOn(p, '/')[0] == Before(p, '/')
    ensures p != "" && p[0] == '/' ==> Before(p, '/') == ""
  {
  }

  lemma PlainIsAccepted(p: string)
    requires PlainPath(p)
    ensures Accepted(p)
  {
    var parts := SplitOn(p, '/');
    assert parts[0] in parts && PlainPart(parts[0]);
    FirstPart(p);
    assert Slashed(p) == p;
    PlainWalk(parts, false);
    JoinSplits(p, '/');
    if "../" <= p || p == ".." { DotsFirst(p); }
  }

  lemma DotsFirst(p: string)
    requires "../" <= p || p == ".."
    ensures SplitOn(p, '/')[0] == ".."
  {
    FirstPart(p);
    if p == ".." {
      BeforeAppend("..", '/', "");
    } else {
      BeforeAppend("..", '/', p[3..]);
      assert p == ".." + ['/'] + p[3..];
    }
  }

  lemma RootedClean(p: string)
    requires p != "" && p[0] == '/'
    ensures Clean(p) != "" && Clean(p)[0] == '/'
  {
  }

  lemma AcceptedIsPlain(p: string)
    requires Accepted(p) && p != "."
    ensures PlainPath(p)
  {
    var r := Slashed(p);
    var parts := SplitOn(r, '/');
    var stack := Walk(parts, false);
    assert '\\' !in r;
    JoinSplits(r, '/');
    SplitChars(r, '/', '\\');
    WalkIsOk(parts, false);
    if r[0] == '/' { RootedClean(r); }
    assert p == JoinWith(stack, '/') && stack != [];
    SplitJoins(stack, '/');
    JoinedChars(stack, '/', '\\');
    assert stack[0] == ".." ==> p == ".." || "../" <= p;
    forall i | 0 <= i < |stack| ensures PlainPart(stack[i]) {
      if stack[i] == ".." { BottomDots(stack, i); }
    }
  }

  /** Accepted are "." and the backslash-free paths whose every component is a plain name. */
  lemma AcceptedIff(p: string)
    ensures Accepted(p) <==> p == "." || PlainPath(p)
  {
    if PlainPath(p) { PlainIsAccepted(p); }
    if Accepted(p) && p != "." { AcceptedIsPlain(p); }
    if p == "." {
      assert Slashed(p) == ".";
      assert SplitOn(".", '/') == ["."];
      assert Walk(["."], false) == [] by { assert ["."][..0] == []; }
    }
  }

  // ----- zip and unzip -------------------------------------------------------------------

  const MAX_ARCHIVE := 33554432

  /** A zip entry and a zip archive; their encoding is not part of the model. */
  datatype Entry = Entry(name: string, dir: bool, data: string)
  datatype Zip = Zip(size: nat, entries: seq<Entry>)

  datatype ArchiveError = TooLarge | UnsafePath

  /** zipDir: one entry for each file, in the order the directory is walked. */
  method ZipDir(walk: seq<string>, files: map<string, string>) returns (entries: seq<Entry>)
    requires Distinct(walk) && forall p :: p in walk <==> p in files
    ensures Holds(entries, files)
  {
    entries := [];
    for i := 0 to |walk|
      invariant |entries| == i && forall j :: 0 <= j < i ==> entries[j] == Entry(walk[j], false, files[walk[j]])
    {
      assert walk[i] in walk;
      entries := entries + [Entry(walk[i], false, files[walk[i]])];
    }
    forall p | p in files ensures exists i :: 0 <= i < |entries| && entries[i].name == p {
      var i :| 0 <= i < |walk| && walk[i] == p;
      assert entries[i].name == p;
    }
  }

  /** Each file once, whole, under its path. */
  ghost predicate Holds(entries: seq<Entry>, files: map<string, string>) {
    && (forall i, j :: 0 <= i < j < |entries| ==> entries[i].name != entries[j].name)
    && (forall i :: 0 <= i < |entries| ==>
          !entries[i].dir && entries[i].name in files && entries[i].data == files[entries[i].name])
    && (forall p :: p in files ==> exists i :: 0 <= i < |entries| && entries[i].name == p)
  }

  /** strings.TrimPrefix(name, "./") */
  function EntryPath(e: Entry): string {
    if "./" <= e.name then e.name[2..] else e.name
  }

  /** io.LimitReader */
  function Limited(data: string): string {
    if |data| <= MAX_ARCHIVE then data else data[..MAX_ARCHIVE]
  }

  predicate Safe(entries: seq<Entry>) {
    forall i :: 0 <= i < |entries| && !entries[i].dir ==> Accepted(EntryPath(entries[i]))
  }

  /** The contents by path: the last entry of a path wins. */
  function ContentsOf(entries: seq<Entry>): map<string, string> {
    if entries == [] then map[]
    else
      var init, last := ContentsOf(entries[..|entries| - 1]), entries[|entries| - 1];
      if last.dir then init else init[EntryPath(last) := Limited(last.data)]
  }

  lemma SafeSoFar(entries: seq<Entry>, i: nat)
    requires i < |entries| && Safe(entries[..i])
    ensures Safe(entries[..i + 1]) <==> entries[i].dir || Accepted(EntryPath(entries[i]))
    ensures Safe(entries) ==> Safe(entries[..i + 1])
  {
    assert entries[..i + 1] == entries[..i] + [entries[i]];
  }

  method ReadEntries(entries: seq<Entry>) returns (safe: bool, files: map<string, string>, paths: seq<string>)
    ensures safe == Safe(entries)
    ensures safe ==> files == ContentsOf(entries) && forall p :: p in paths <==> p in files
  {
    files, paths := map[], [];
    for i := 0 to |entries|
      invariant Safe(entries[..i]) && files == ContentsOf(entries[..i])
      invariant forall p :: p in paths <==> p in files
    {
      var f := entries[i];
      assert entries[..i + 1][..i] == entries[..i];
      SafeSoFar(entries, i);
      if !f.dir {
        var p := EntryPath(f);
        if !Accepted(p) { return false, files, paths; }
        files := files[p := Limited(f.data)];
        paths := paths + [p];
      }
    }
    assert entries[..|entries|] == entries;
    return true, files, paths;
  }

  /** unzipArchive: the file contents and the tree of exactly their paths, or what is wrong. */
  method UnzipArchive(zip: Zip) returns (r: Result<(seq<FileNode>, map<string, string>), ArchiveError>)
    ensures r == Err(TooLarge) <==> zip.size > MAX_ARCHIVE
    ensures r == Err(UnsafePath) <==> zip.size <= MAX_ARCHIVE && !Safe(zip.entries)
    ensures r.Ok? ==> r.value.1 == ContentsOf(zip.entries) && r.value.0 == Tree(ComponentsOf(InOrder(r.value.1.Keys)))
  {
    if zip.size > MAX_ARCHIVE { return Err(TooLarge); }
    var safe, files, paths := ReadEntries(zip.entries);
    if !safe { return Err(UnsafePath); }
    SortMembers(paths);
    InOrderMembers(files.Keys);
    SameTree(Sort(paths), InOrder(files.Keys));
    var nodes := BuildTree(Sort(paths));
    return Ok((nodes, files));
  }

  lemma SameTree(ps: seq<string>, qs: seq<string>)
    requires forall p :: p in ps <==> p in qs
    ensures Tree(ComponentsOf(ps)) == Tree(ComponentsOf(qs))
  {
    SameComponents(ps, qs);
    SameComponents(qs, ps);
    TreeIgnoresOrder(ComponentsOf(ps), ComponentsOf(qs));
  }

  lemma SameComponents(ps: seq<string>, qs: seq<string>)
    requires forall p :: p in ps ==> p in qs
    ensures forall x :: x in ComponentsOf(ps) ==> x in ComponentsOf(qs)
  {
    forall x | x in ComponentsOf(ps) ensures x in ComponentsOf(qs) {
      var i :| 0 <= i < |ps| && x == Components(ps[i]);
      assert ps[i] in qs;
      var j :| 0 <= j < |qs| && qs[j] == ps[i];
      assert ComponentsOf(qs)[j] == x;
    }
  }

  // ----- round trip -----------------------------------------------------------------------

  lemma PlainEntryPath(name: string)
    requires PlainPath(name)
    ensures !("./" <= name)
  {
    if "./" <= name { DotFirst(name); }
  }

  lemma DotFirst(name: string)
    requires "./" <= name
    ensures "." in SplitOn(name, '/')
  {
    FirstPart(name);
    BeforeAppend(".", '/', name[2..]);
    assert name == "." + ['/'] + name[2..];
    assert SplitOn(name, '/')[0] in SplitOn(name, '/');
  }

  lemma {:induction false} PlainComponents(parts: seq<string>)
    requires "" !in parts
    ensures NonEmptyParts(parts) == parts
  {
    if parts != [] {
      PlainComponents(parts[..|parts| - 1]);
      assert parts[|parts| - 1] in parts;
      assert parts == parts[..|parts| - 1] + [parts[|parts| - 1]];
    }
  }

  /** A plain path is its components joined. */
  lemma PlainPathJoins(p: string)
    requires PlainPath(p)
    ensures Components(p) == SplitOn(p, '/') && JoinWith(Components(p), '/') == p
  {
    PlainComponents(SplitOn(p, '/'));
    JoinSplits(p, '/');
  }

  /** Unzipping gives a file back whole exactly if it is within the limit; a larger one is cut off silently. */
  lemma LimitedIff(data: string)
    ensures Limited(data) == data <==> |data| <= MAX_ARCHIVE
  {
  }

  /** Entries with plain names: what each contributes. */
  ghost predicate AllPlain(entries: seq<Entry>) {
    forall i :: 0 <= i < |entries| ==> !entries[i].dir && EntryPath(entries[i]) == entries[i].name
  }

  lemma {:induction false} ContentAt(entries: seq<Entry>, i: nat)
    requires AllPlain(entries) && i < |entries|
    requires forall j, k :: 0 <= j < k < |entries| ==> entries[j].name != entries[k].name
    ensures var m, e := ContentsOf(entries), entries[i]; e.name in m && m[e.name] == Limited(e.data)
  {
    var init := entries[..|entries| - 1];
    if i < |init| {
      ContentAt(init, i);
      assert entries[i].name != entries[|init|].name;
    }
  }

  lemma {:induction false} ContentFrom(entries: seq<Entry>, p: string) returns (i: nat)
    requires AllPlain(entries) && p in ContentsOf(entries)
    ensures i < |entries| && entries[i].name == p
  {
    var init := entries[..|entries| - 1];
    if p == entries[|init|].name { i := |init|; } else { i := ContentFrom(init, p); }
  }

  lemma PlainFilesAreSafe(entries: seq<Entry>, files: map<string, string>)
    requires Holds(entries, files) && forall p :: p in files ==> PlainPath(p)
    ensures Safe(entries)
  {
    forall i | 0 <= i < |entries| ensures Accepted(EntryPath(entries[i])) {
      PlainEntryPath(entries[i].name);
      AcceptedIff(entries[i].name);
    }
  }

  /** Of what zipDir wrote, unzipping keeps every path, and all contents exactly if each is within the limit. */
  lemma ContentsComeBack(entries: seq<Entry>, files: map<string, string>)
    requires Holds(entries, files) && forall p :: p in files ==> PlainPath(p)
    ensures Safe(entries) && ContentsOf(entries).Keys == files.Keys
    ensures ContentsOf(entries) == files <==> forall p :: p in files ==> |files[p]| <= MAX_ARCHIVE
  {
    PlainFilesAreSafe(entries, files);
    PlainFilesArePlain(entries, files);
    KeysComeBack(entries, files);
    var m := ContentsOf(entries);
    forall p | p in m ensures m[p] == Limited(files[p]) { ContentOfFile(entries, files, p); }
    WholeIff(m, files);
  }

  lemma PlainFilesArePlain(entries: seq<Entry>, files: map<string, string>)
    requires Holds(entries, files) && forall p :: p in files ==> PlainPath(p)
    ensures AllPlain(entries)
  {
    forall i | 0 <= i < |entries| ensures EntryPath(entries[i]) == entries[i].name { PlainEntryPath(entries[i].name); }
  }

  lemma KeysComeBack(entries: seq<Entry>, files: map<string, string>)
    requires Holds(entries, files) && AllPlain(entries)
    ensures ContentsOf(entries).Keys == files.Keys
  {
    forall p ensures p in ContentsOf(entries) <==> p in files {
      if p in ContentsOf(entries) { var i := ContentFrom(entries, p); }
      if p in files { ContentOfFile(entries, files, p); }
    }
  }

  lemma ContentOfFile(entries: seq<Entry>, files: map<string, string>, p: string)
    requires Holds(entries, files) && AllPlain(entries) && p in files
    ensures p in ContentsOf(entries) && ContentsOf(entries)[p] == Limited(files[p])
  {
    var i :| 0 <= i < |entries| && entries[i].name == p;
    ContentAt(entries, i);
  }

  lemma WholeIff(m: map<string, string>, files: map<string, string>)
    requires m.Keys == files.Keys && forall p :: p in m ==> m[p] == Limited(files[p])
    ensures m == files <==> forall p :: p in files ==> |files[p]| <= MAX_ARCHIVE
  {
    forall p | p in files ensures m[p] == files[p] <==> |files[p]| <= MAX_ARCHIVE { LimitedIff(files[p]); }
    if m == files {
      forall p | p in files ensures |files[p]| <= MAX_ARCHIVE { assert m[p] == files[p]; }
    }
  }

  /** The leaves of the tree are the archived files' paths, if no file is called like another file's folder. */
  lemma LeavesAreTheFiles(files: map<string, string>)
    requires forall p :: p in files ==> PlainPath(p)
    requires Antichain(ComponentsOf(InOrder(files.Keys)))
    ensures var leaves := Leaves(Tree(ComponentsOf(InOrder(files.Keys))), []);
            Distinct(leaves) && forall p :: p in files <==> exists x :: x in leaves && p == JoinWith(x, '/')
  {
    var names := InOrder(files.Keys);
    var leaves := Leaves(Tree(ComponentsOf(names)), []);
    InOrderMembers(files.Keys);
    forall i | 0 <= i < |names| ensures ComponentsOf(names)[i] != [] && JoinWith(ComponentsOf(names)[i], '/') == names[i] {
      assert names[i] in names;
      PlainPathJoins(names[i]);
    }
    LeavesAreUncontinuedPaths(ComponentsOf(names));
    forall p ensures p in files <==> exists x :: x in leaves && p == JoinWith(x, '/') {
      if p in files {
        var i :| 0 <= i < |names| && names[i] == p;
        assert ComponentsOf(names)[i] in leaves;
      }
      if x :| x in leaves && p == JoinWith(x, '/') {
        var i :| 0 <= i < |names| && ComponentsOf(names)[i] == x;
        assert names[i] in names;
      }
    }
  }
}
