/**
  The two renamers: ReplaceAll on the umbrella chart, a single-pass Replacer on
  each subchart. Every template name a subchart refers to keeps its definition.
*/
module Renaming {
  import opened Prelude
  import opened Text
  import opened Specs
  import opened Replacing

  const PLACEHOLDER := "umbrella-chart"
  const COMPONENT := "component"

  // ----- template files -------------------------------------------------------------

  /**
    How a quoted string is used: define; include or template; the end of a name
    that begins with the chart's own at render time (include (print .Chart.Name
    ".labels")); or otherwise.
  */
  datatype Use = Defines | Refers | Computes | Quotes

  /** A quoted string and the code up to the next one. */
  datatype Mention = Mention(use: Use, name: string, code: string)

  /** A template file: code, then quoted strings with code between them. */
  datatype Body = Body(code: string, mentions: seq<Mention>)

  function PrintMentions(ms: seq<Mention>): string {
    if ms == [] then "" else "\"" + ms[0].name + "\"" + ms[0].code + PrintMentions(ms[1..])
  }

  function Print(b: Body): string {
    b.code + PrintMentions(b.mentions)
  }

  function RenameMentions(ms: seq<Mention>, swaps: seq<Swap>): (r: seq<Mention>)
    requires Proper(swaps)
    ensures |r| == |ms|
    ensures forall i :: 0 <= i < |ms| ==>
              r[i] == Mention(ms[i].use, Replaced(ms[i].name, swaps), Replaced(ms[i].code, swaps))
  {
    if ms == [] then []
    else [Mention(ms[0].use, Replaced(ms[0].name, swaps), Replaced(ms[0].code, swaps))] + RenameMentions(ms[1..], swaps)
  }

  function RenameBody(b: Body, swaps: seq<Swap>): Body
    requires Proper(swaps)
  {
    Body(Replaced(b.code, swaps), RenameMentions(b.mentions, swaps))
  }

  lemma PrintCons(code: string, m: Mention, rest: seq<Mention>)
    ensures code + PrintMentions([m] + rest) == code + "\"" + (m.name + "\"" + (m.code + PrintMentions(rest)))
  {
    assert ([m] + rest)[1..] == rest;
  }

  lemma {:induction false} RenamingMentions(code: string, ms: seq<Mention>, swaps: seq<Swap>)
    requires Proper(swaps)
    ensures Replaced(code + PrintMentions(ms), swaps) == Replaced(code, swaps) + PrintMentions(RenameMentions(ms, swaps))
    decreases |ms|
  {
    if ms == [] {
      assert code + "" == code;
    } else {
      var m, rest := ms[0], ms[1..];
      var m' := Mention(m.use, Replaced(m.name, swaps), Replaced(m.code, swaps));
      var tail := m.code + PrintMentions(rest);
      RenamingMentions(m.code, rest, swaps);
      ReplacedAtQuote(m.name, tail, swaps);
      ReplacedAtQuote(code, m.name + "\"" + tail, swaps);
      assert ms == [m] + rest && RenameMentions(ms, swaps) == [m'] + RenameMentions(rest, swaps);
      PrintCons(code, m, rest);
      PrintCons(Replaced(code, swaps), m', RenameMentions(rest, swaps));
    }
  }

  /** Replacing in the text is renaming name by name in the file's structure. */
  lemma RenamingIsByName(b: Body, swaps: seq<Swap>)
    requires Proper(swaps)
    ensures Replaced(Print(b), swaps) == Print(RenameBody(b, swaps))
  {
    RenamingMentions(b.code, b.mentions, swaps);
  }

  function MentionPieces(ms: seq<Mention>): seq<string> {
    if ms == [] then [] else [ms[0].name, ms[0].code] + MentionPieces(ms[1..])
  }

  /** What the quotes in the text separate. */
  function Pieces(b: Body): seq<string> {
    [b.code] + MentionPieces(b.mentions)
  }

  predicate WellQuoted(b: Body) {
    forall p :: p in Pieces(b) ==> '"' !in p
  }

  lemma JoinCons(first: string, parts: seq<string>, c: char)
    requires parts != []
    ensures JoinWith([first] + parts, c) == first + [c] + JoinWith(parts, c)
  {
    assert ([first] + parts)[1..] == parts;
  }

  lemma {:induction false} PrintIsJoin(code: string, ms: seq<Mention>)
    ensures code + PrintMentions(ms) == JoinWith([code] + MentionPieces(ms), '"')
    decreases |ms|
  {
    if ms == [] {
      assert code + "" == code && [code] + MentionPieces(ms) == [code];
    } else {
      var m, tail := ms[0], [ms[0].code] + MentionPieces(ms[1..]);
      PrintIsJoin(m.code, ms[1..]);
      assert [code] + MentionPieces(ms) == [code] + ([m.name] + tail);
      JoinCons(code, [m.name] + tail, '"');
      JoinCons(m.name, tail, '"');
      assert ms == [m] + ms[1..];
      PrintCons(code, m, ms[1..]);
    }
  }

  lemma {:induction false} RenamedPieces(ms: seq<Mention>, swaps: seq<Swap>)
    requires Proper(swaps)
    ensures |MentionPieces(RenameMentions(ms, swaps))| == |MentionPieces(ms)|
    ensures forall i :: 0 <= i < |MentionPieces(ms)| ==>
              MentionPieces(RenameMentions(ms, swaps))[i] == Replaced(MentionPieces(ms)[i], swaps)
  {
    if ms != [] {
      RenamedPieces(ms[1..], swaps);
      assert RenameMentions(ms, swaps)[1..] == RenameMentions(ms[1..], swaps);
    }
  }

  /** The pieces can be read off the text, before and after renaming. */
  lemma PiecesAreInTheText(b: Body, swaps: seq<Swap>)
    requires WellQuoted(b) && Proper(swaps)
    ensures SplitOn(Print(b), '"') == Pieces(b) && WellQuoted(RenameBody(b, swaps))
  {
    PrintIsJoin(b.code, b.mentions);
    SplitJoins(Pieces(b), '"');
    RenamedPieces(b.mentions, swaps);
    var rs := Pieces(RenameBody(b, swaps));
    forall i | 0 <= i < |rs| ensures '"' !in rs[i] {
      assert rs[i] == Replaced(Pieces(b)[i], swaps) && Pieces(b)[i] in Pieces(b);
      NoNewQuotes(Pieces(b)[i], swaps);
    }
  }

  function LastTwo(words: seq<string>): (r: seq<string>)
    requires words != []
    ensures |r| == 2
  {
    if |words| < 2 then ["", words[0]] else words[|words| - 2..]
  }

  /** The last two words of a piece of code: split at spaces, as it stands in front of a quoted string. */
  function LastWords(code: string): (r: seq<string>)
    ensures |r| == 2
  {
    LastTwo(SplitOn(code, ' '))
  }

  /** How a string quoted right behind this code is used. */
  function UseAfter(code: string): Use {
    var words := LastWords(code);
    if words[1] != "" then Quotes
    else if words[0] == "define" then Defines
    else if words[0] == "include" || words[0] == "(include" || words[0] == "template" then Refers
    else if words[0] == ".Chart.Name" then Computes
    else Quotes
  }

  function ReadMentions(before: string, pieces: seq<string>): seq<Mention>
    decreases |pieces|
  {
    if |pieces| < 2 then []
    else [Mention(UseAfter(before), pieces[0], pieces[1])] + ReadMentions(pieces[1], pieces[2..])
  }

  /** A template file as its text has it. */
  function Read(text: string): Body {
    var pieces := SplitOn(text, '"');
    Body(pieces[0], ReadMentions(pieces[0], pieces[1..]))
  }

  /** Every use is the one its code says. */
  predicate Labelled(before: string, ms: seq<Mention>)
    decreases |ms|
  {
    ms == [] || (ms[0].use == UseAfter(before) && Labelled(ms[0].code, ms[1..]))
  }

  /** No word holds a placeholder. */
  predicate Free(words: seq<string>, swaps: seq<Swap>) {
    forall w, word :: w in swaps && word in words ==> Absent(w.was, word)
  }

  /** No placeholder stands in the last two words in front of a quoted string. */
  predicate Steady(before: string, ms: seq<Mention>, swaps: seq<Swap>)
    decreases |ms|
  {
    ms == [] ||
    (Free(LastWords(before), swaps) && Steady(ms[0].code, ms[1..], swaps))
  }

  lemma {:induction false} ReadBack(before: string, ms: seq<Mention>)
    requires Labelled(before, ms)
    ensures ReadMentions(before, MentionPieces(ms)) == ms
    decreases |ms|
  {
    if ms != [] {
      var pieces := MentionPieces(ms);
      ReadBack(ms[0].code, ms[1..]);
      assert pieces[2..] == MentionPieces(ms[1..]);
    }
  }

  lemma ReadPrint(b: Body)
    requires WellQuoted(b) && Labelled(b.code, b.mentions)
    ensures Read(Print(b)) == b
  {
    PrintIsJoin(b.code, b.mentions);
    SplitJoins(Pieces(b), '"');
    ReadBack(b.code, b.mentions);
    assert Pieces(b)[1..] == MentionPieces(b.mentions);
  }

  /** Replacing keeps the words apart. */
  lemma {:induction false} WordsReplaced(s: string, c: char, swaps: seq<Swap>)
    requires Proper(swaps) && Separates(c, swaps) && !Brings(c, swaps)
    ensures var a, b := SplitOn(s, c), SplitOn(Replaced(s, swaps), c);
            |a| == |b| && forall i :: 0 <= i < |a| ==> b[i] == Replaced(a[i], swaps)
    decreases |s|
  {
    match IndexOf(s, c)
    case None =>
      NothingNew(s, c, swaps);
      assert SplitOn(Replaced(s, swaps), c) == [Replaced(s, swaps)];
    case Some(i) =>
      var first, rest := s[..i], s[i + 1..];
      assert s == first + [c] + rest;
      ReplacedAt(first, c, rest, swaps);
      NothingNew(first, c, swaps);
      SplitFirst(first, c, rest);
      SplitFirst(Replaced(first, swaps), c, Replaced(rest, swaps));
      WordsReplaced(rest, c, swaps);
  }

  lemma LastTwoKept(a: seq<string>, b: seq<string>, swaps: seq<Swap>)
    requires Proper(swaps) && a != [] && |a| == |b| && forall i :: 0 <= i < |a| ==> b[i] == Replaced(a[i], swaps)
    requires Free(LastTwo(a), swaps)
    ensures LastTwo(b) == LastTwo(a)
  {
    var k := |a| - 1;
    assert LastTwo(a)[1] == a[k] && a[k] in LastTwo(a);
    Untouched(a[k], swaps);
    if 0 < k {
      assert LastTwo(a)[0] == a[k - 1] && a[k - 1] in LastTwo(a);
      Untouched(a[k - 1], swaps);
      assert LastTwo(a) == [a[k - 1], a[k]] && LastTwo(b) == [b[k - 1], b[k]];
    }
  }

  lemma LastWordsKept(code: string, swaps: seq<Swap>)
    requires Proper(swaps) && Separates(' ', swaps) && !Brings(' ', swaps)
    requires Free(LastWords(code), swaps)
    ensures LastWords(Replaced(code, swaps)) == LastWords(code)
  {
    WordsReplaced(code, ' ', swaps);
    LastTwoKept(SplitOn(code, ' '), SplitOn(Replaced(code, swaps), ' '), swaps);
  }

  lemma UseKept(code: string, swaps: seq<Swap>)
    requires Proper(swaps) && Separates(' ', swaps) && !Brings(' ', swaps)
    requires Free(LastWords(code), swaps)
    ensures UseAfter(Replaced(code, swaps)) == UseAfter(code)
  {
    LastWordsKept(code, swaps);
    SameWordsSameUse(code, Replaced(code, swaps));
  }

  lemma SameWordsSameUse(a: string, b: string)
    requires LastWords(a) == LastWords(b)
    ensures UseAfter(a) == UseAfter(b)
  {
  }

  lemma {:induction false} LabelsKept(before: string, ms: seq<Mention>, swaps: seq<Swap>)
    requires Proper(swaps) && Separates(' ', swaps) && !Brings(' ', swaps)
    requires Labelled(before, ms) && Steady(before, ms, swaps)
    ensures Labelled(Replaced(before, swaps), RenameMentions(ms, swaps))
    decreases |ms|
  {
    if ms != [] {
      UseKept(before, swaps);
      LabelsKept(ms[0].code, ms[1..], swaps);
      assert RenameMentions(ms, swaps)[1..] == RenameMentions(ms[1..], swaps);
    }
  }

  /**
    Which names a file defines, refers to, computes and merely quotes is in its
    text, and what the renamer writes reads as the renamed file.
  */
  lemma StructureIsInTheText(b: Body, swaps: seq<Swap>)
    requires Proper(swaps) && Separates(' ', swaps) && !Brings(' ', swaps)
    requires WellQuoted(b) && Labelled(b.code, b.mentions) && Steady(b.code, b.mentions, swaps)
    ensures Read(Print(b)) == b
    ensures Read(Replaced(Print(b), swaps)) == RenameBody(b, swaps)
  {
    ReadPrint(b);
    PiecesAreInTheText(b, swaps);
    LabelsKept(b.code, b.mentions, swaps);
    ReadPrint(RenameBody(b, swaps));
    RenamingIsByName(b, swaps);
  }

  // ----- links ---------------------------------------------------------------------

  function Names(b: Body, use: Use): set<string> {
    set m | m in b.mentions && m.use == use :: m.name
  }

  lemma NameBefore(b: Body, use: Use, swaps: seq<Swap>, n: string) returns (m: string)
    requires Proper(swaps) && n in Names(RenameBody(b, swaps), use)
    ensures m in Names(b, use) && n == Replaced(m, swaps)
  {
    var ms, rs := b.mentions, RenameBody(b, swaps).mentions;
    var i :| 0 <= i < |rs| && rs[i].use == use && rs[i].name == n;
    assert ms[i] in ms;
    m := ms[i].name;
  }

  lemma NameAfter(b: Body, use: Use, swaps: seq<Swap>, m: string)
    requires Proper(swaps) && m in Names(b, use)
    ensures Replaced(m, swaps) in Names(RenameBody(b, swaps), use)
  {
    var ms, rs := b.mentions, RenameBody(b, swaps).mentions;
    var i :| 0 <= i < |ms| && ms[i].use == use && ms[i].name == m;
    assert rs[i] in rs;
  }

  /** A chart's templates by file name. */
  datatype TemplateFile = TemplateFile(name: string, body: Body)

  type Templates = seq<TemplateFile>

  ghost predicate Mentions(ts: Templates, use: Use, n: string) {
    exists t :: t in ts && n in Names(t.body, use)
  }

  function RenameAll(ts: Templates, swaps: seq<Swap>): (r: Templates)
    requires Proper(swaps)
    ensures |r| == |ts|
    ensures forall i :: 0 <= i < |ts| ==> r[i] == TemplateFile(ts[i].name, RenameBody(ts[i].body, swaps))
  {
    if ts == [] then [] else [TemplateFile(ts[0].name, RenameBody(ts[0].body, swaps))] + RenameAll(ts[1..], swaps)
  }

  lemma MentionsRenamed(ts: Templates, use: Use, swaps: seq<Swap>, n: string)
    requires Proper(swaps)
    ensures Mentions(RenameAll(ts, swaps), use, n) <==> exists m :: Mentions(ts, use, m) && n == Replaced(m, swaps)
  {
    if Mentions(RenameAll(ts, swaps), use, n) { var m := MentionBefore(ts, use, swaps, n); }
    if m :| Mentions(ts, use, m) && n == Replaced(m, swaps) { MentionAfter(ts, use, swaps, m); }
  }

  lemma MentionBefore(ts: Templates, use: Use, swaps: seq<Swap>, n: string) returns (m: string)
    requires Proper(swaps) && Mentions(RenameAll(ts, swaps), use, n)
    ensures Mentions(ts, use, m) && n == Replaced(m, swaps)
  {
    var rs := RenameAll(ts, swaps);
    var i :| 0 <= i < |rs| && n in Names(rs[i].body, use);
    m := NameBefore(ts[i].body, use, swaps, n);
    assert ts[i] in ts;
  }

  lemma MentionAfter(ts: Templates, use: Use, swaps: seq<Swap>, m: string)
    requires Proper(swaps) && Mentions(ts, use, m)
    ensures Mentions(RenameAll(ts, swaps), use, Replaced(m, swaps))
  {
    var rs := RenameAll(ts, swaps);
    var i :| 0 <= i < |ts| && m in Names(ts[i].body, use);
    NameAfter(ts[i].body, use, swaps, m);
    assert rs[i] in rs;
  }

  function UmbrellaSwaps(umbrella: string): (r: seq<Swap>)
    requires ValidName(umbrella)
    ensures Proper(r)
  {
    [Swap(PLACEHOLDER, umbrella)]
  }

  function SubchartSwaps(umbrella: string, component: string): (r: seq<Swap>)
    requires ValidName(umbrella) && ValidName(component)
    ensures Proper(r)
  {
    [Swap(PLACEHOLDER, umbrella), Swap(COMPONENT, component)]
  }

  /** Neither the placeholders nor chart names hold a space, so the structure is in the text for both renamers. */
  lemma NamesAreWords(u: string, c: string)
    requires ValidName(u) && ValidName(c)
    ensures Separates(' ', UmbrellaSwaps(u)) && !Brings(' ', UmbrellaSwaps(u))
    ensures Separates(' ', SubchartSwaps(u, c)) && !Brings(' ', SubchartSwaps(u, c))
  {
    assert ' ' !in PLACEHOLDER && ' ' !in COMPONENT;
    assert ' ' !in u && ' ' !in c;
  }

  /** So for both renamers: what they write reads as the renamed file, definitions and references told apart by the text alone. */
  lemma RenamedFilesRead(b: Body, u: string, c: string)
    requires ValidName(u) && ValidName(c)
    requires WellQuoted(b) && Labelled(b.code, b.mentions) && Steady(b.code, b.mentions, SubchartSwaps(u, c))
    ensures Read(Print(b)) == b
    ensures Read(Replaced(Print(b), SubchartSwaps(u, c))) == RenameBody(b, SubchartSwaps(u, c))
    ensures Read(Replaced(Print(b), UmbrellaSwaps(u))) == RenameBody(b, UmbrellaSwaps(u))
  {
    NamesAreWords(u, c);
    StructureIsInTheText(b, SubchartSwaps(u, c));
    FewerSwapsAreSteady(b.code, b.mentions, SubchartSwaps(u, c), UmbrellaSwaps(u));
    StructureIsInTheText(b, UmbrellaSwaps(u));
  }

  lemma {:induction false} FewerSwapsAreSteady(before: string, ms: seq<Mention>, swaps: seq<Swap>, fewer: seq<Swap>)
    requires Steady(before, ms, swaps) && forall w :: w in fewer ==> w in swaps
    ensures Steady(before, ms, fewer)
    decreases |ms|
  {
    if ms != [] { FewerSwapsAreSteady(ms[0].code, ms[1..], swaps, fewer); }
  }

  /** The two placeholders do not overlap. */
  lemma PlaceholdersAreDisjoint()
    ensures Disjoint(PLACEHOLDER, COMPONENT)
  {
    forall s: string, i: nat | PLACEHOLDER <= s && 0 < i < |PLACEHOLDER| && i <= |s| ensures !(COMPONENT <= s[i..]) {
      assert s[i] == PLACEHOLDER[i] && s[i..] == [s[i]] + s[i + 1..];
      assert i + 1 < |PLACEHOLDER| ==> s[i + 1] == PLACEHOLDER[i + 1] && s[i..][1] == s[i + 1];
      assert COMPONENT[0] == 'c' && COMPONENT[1] == 'o';
    }
    forall s: string, i: nat | COMPONENT <= s && 0 < i < |COMPONENT| && i <= |s| ensures !(PLACEHOLDER <= s[i..]) {
      assert s[i] == COMPONENT[i] && s[i..] == [s[i]] + s[i + 1..];
      assert PLACEHOLDER[0] == 'u';
    }
    assert PLACEHOLDER[0] != COMPONENT[0];
  }

  /** The two renamers agree on a name exactly if it does not hold "component", or the subchart is called that. */
  lemma RenamersAgreeIff(s: string, u: string, c: string)
    requires ValidName(u) && ValidName(c)
    ensures Replaced(s, SubchartSwaps(u, c)) == Replaced(s, UmbrellaSwaps(u)) <==> c == COMPONENT || Absent(COMPONENT, s)
  {
    PlaceholdersAreDisjoint();
    PairAgreesIff(s, PLACEHOLDER, u, COMPONENT, c);
  }

  /** A template of the umbrella chart that the subchart refers to by name. */
  ghost predicate CrossLink(umbrella: Templates, sub: Templates, n: string) {
    Mentions(sub, Refers, n) && Mentions(umbrella, Defines, n)
  }

  /** Every link into the umbrella chart still leads to its own definition exactly if no linked name is torn apart. */
  lemma LinksLeadHomeIff(umbrella: Templates, sub: Templates, u: string, c: string)
    requires ValidName(u) && ValidName(c)
    ensures (forall n :: CrossLink(umbrella, sub, n) ==> Replaced(n, SubchartSwaps(u, c)) == Replaced(n, UmbrellaSwaps(u))) <==>
              c == COMPONENT || forall n :: CrossLink(umbrella, sub, n) ==> Absent(COMPONENT, n)
  {
    forall n
      ensures Replaced(n, SubchartSwaps(u, c)) == Replaced(n, UmbrellaSwaps(u)) <==> c == COMPONENT || Absent(COMPONENT, n)
    {
      RenamersAgreeIff(n, u, c);
    }
  }

  /** The end of a name computed where the subchart renders: in its own templates or in the umbrella's .tpl files. */
  ghost predicate ComputedEnd(umbrella: Templates, sub: Templates, x: string) {
    Mentions(sub, Computes, x) || x in Names(Collected(umbrella), Computes)
  }

  /** n is whole under both renamers, or the subchart keeps the name "component". */
  predicate Whole(n: string, c: string) {
    c == COMPONENT || Absent(COMPONENT, n)
  }

  /**
    Every template referred to has a definition, in the subchart or in the
    umbrella; a link into the umbrella chart must not be torn apart, and a
    computed name leads to a definition component.x of the subchart.
  */
  ghost predicate Linked(umbrella: Templates, sub: Templates, c: string) {
    && (forall n :: Mentions(sub, Refers, n) ==>
          Mentions(sub, Defines, n) || (Mentions(umbrella, Defines, n) && Whole(n, c)))
    && (forall x :: ComputedEnd(umbrella, sub, x) ==>
          x != "" && x[0] == '.' && Whole(x, c) && Mentions(sub, Defines, COMPONENT + x))
  }

  ghost predicate Defined(umbrella: Templates, sub: Templates, n: string) {
    Mentions(sub, Defines, n) || Mentions(umbrella, Defines, n)
  }

  /** Every reference of a subchart called c has a definition when it renders. */
  ghost predicate Resolves(umbrella: Templates, sub: Templates, c: string) {
    && (forall n :: Mentions(sub, Refers, n) ==> Defined(umbrella, sub, n))
    && (forall x :: ComputedEnd(umbrella, sub, x) ==> Defined(umbrella, sub, c + x))
  }

  /**
    What may become of a chart's templates once they are renamed: definitions stay,
    and new references are computed ones that lead to definitions of the chart.
  */
  ghost predicate Develops(before: Templates, after: Templates, c: string) {
    && (forall n :: Mentions(before, Defines, n) ==> Mentions(after, Defines, n))
    && (forall n :: Mentions(after, Refers, n) ==> Mentions(before, Refers, n))
    && (forall x :: Mentions(after, Computes, x) ==> Mentions(before, Computes, x) || Mentions(before, Defines, c + x))
  }

  /**
    A manifest added after the renaming, as applyIngress does: it refers to nothing
    by a literal name, and computes names of definitions component.x whose x holds
    no placeholder.
  */
  ghost predicate Adjoins(manifest: TemplateFile, sub: Templates) {
    && Names(manifest.body, Refers) == {} && Names(manifest.body, Defines) == {}
    && forall x :: x in Names(manifest.body, Computes) ==>
         x != "" && x[0] == '.' && Absent(PLACEHOLDER, x) && Absent(COMPONENT, x) && Mentions(sub, Defines, COMPONENT + x)
  }

  lemma AdjoinedIsDefined(sub: Templates, manifest: TemplateFile, u: string, c: string, x: string)
    requires ValidName(u) && ValidName(c) && Adjoins(manifest, sub) && x in Names(manifest.body, Computes)
    ensures Mentions(RenameAll(sub, SubchartSwaps(u, c)), Defines, c + x)
  {
    Untouched(x, SubchartSwaps(u, c));
    ComponentDefinition(x, u, c);
    MentionAfter(sub, Defines, SubchartSwaps(u, c), COMPONENT + x);
  }

  /** Drops of manifests, which define nothing, and such an addition are a development. */
  lemma ManifestsDevelop(sub: Templates, kept: Templates, manifest: TemplateFile, u: string, c: string)
    requires ValidName(u) && ValidName(c) && Adjoins(manifest, sub)
    requires var rs := RenameAll(sub, SubchartSwaps(u, c));
             && (forall t :: t in kept ==> t in rs)
             && (forall t :: t in rs && t !in kept ==> Names(t.body, Defines) == {})
    ensures var rs := RenameAll(sub, SubchartSwaps(u, c)); Develops(rs, kept, c) && Develops(rs, kept + [manifest], c)
  {
    var rs := RenameAll(sub, SubchartSwaps(u, c));
    forall use, n ensures Mentions(kept + [manifest], use, n) <==> Mentions(kept, use, n) || n in Names(manifest.body, use) {
      MentionsSnoc(kept, manifest, use, n);
    }
    forall n | Mentions(rs, Defines, n) ensures Mentions(kept, Defines, n) {
      var t :| t in rs && n in Names(t.body, Defines);
      assert t in kept;
    }
    forall x | x in Names(manifest.body, Computes) ensures Mentions(rs, Defines, c + x) {
      AdjoinedIsDefined(sub, manifest, u, c, x);
    }
  }

  lemma MentionsSnoc(ts: Templates, t: TemplateFile, use: Use, n: string)
    ensures Mentions(ts + [t], use, n) <==> Mentions(ts, use, n) || n in Names(t.body, use)
  {
    if Mentions(ts, use, n) {
      var s :| s in ts && n in Names(s.body, use);
      assert s in ts + [t];
    }
    if n in Names(t.body, use) { assert t in ts + [t]; }
  }

  /**
    After both renamers ran, every reference of the subchart still has a definition,
    and so it stays when manifests are dropped, added or rewritten afterwards.
  */
  lemma RenamingKeepsLinks(umbrella: Templates, sub: Templates, built: Templates, u: string, c: string)
    requires ValidName(u) && ValidName(c) && Linked(umbrella, sub, c)
    requires Develops(RenameAll(sub, SubchartSwaps(u, c)), built, c)
    ensures Resolves(RenameAll(umbrella, UmbrellaSwaps(u)), built, c)
  {
    var umbrella', sub' := RenameAll(umbrella, UmbrellaSwaps(u)), RenameAll(sub, SubchartSwaps(u, c));
    forall n | Mentions(built, Refers, n) ensures Defined(umbrella', built, n) {
      ReferenceKept(umbrella, sub, u, c, n);
    }
    forall x | ComputedEnd(umbrella', built, x) ensures Defined(umbrella', built, c + x) {
      if ComputedEnd(umbrella', sub', x) { ComputedKept(umbrella, sub, u, c, x); }
    }
  }

  lemma ReferenceKept(umbrella: Templates, sub: Templates, u: string, c: string, n: string)
    requires ValidName(u) && ValidName(c) && Linked(umbrella, sub, c)
    requires Mentions(RenameAll(sub, SubchartSwaps(u, c)), Refers, n)
    ensures Defined(RenameAll(umbrella, UmbrellaSwaps(u)), RenameAll(sub, SubchartSwaps(u, c)), n)
  {
    var m := MentionBefore(sub, Refers, SubchartSwaps(u, c), n);
    if Mentions(sub, Defines, m) {
      MentionAfter(sub, Defines, SubchartSwaps(u, c), m);
    } else {
      RenamersAgreeIff(m, u, c);
      MentionAfter(umbrella, Defines, UmbrellaSwaps(u), m);
    }
  }

  /** The subchart's name and a computed end meet in the renamed definition. */
  lemma ComputedKept(umbrella: Templates, sub: Templates, u: string, c: string, x: string)
    requires ValidName(u) && ValidName(c) && Linked(umbrella, sub, c)
    requires ComputedEnd(RenameAll(umbrella, UmbrellaSwaps(u)), RenameAll(sub, SubchartSwaps(u, c)), x)
    ensures Defined(RenameAll(umbrella, UmbrellaSwaps(u)), RenameAll(sub, SubchartSwaps(u, c)), c + x)
  {
    var m: string;
    if Mentions(RenameAll(sub, SubchartSwaps(u, c)), Computes, x) {
      m := MentionBefore(sub, Computes, SubchartSwaps(u, c), x);
    } else {
      CollectedRenamed(umbrella, Computes, UmbrellaSwaps(u), x);
      m :| m in Names(Collected(umbrella), Computes) && x == Replaced(m, UmbrellaSwaps(u));
    }
    assert ComputedEnd(umbrella, sub, m);
    RenamersAgreeIff(m, u, c);
    ComponentDefinition(m, u, c);
    MentionAfter(sub, Defines, SubchartSwaps(u, c), COMPONENT + m);
  }

  lemma DottedEnd(y: string, u: string, c: string)
    requires ValidName(u) && ValidName(c)
    ensures Replaced("." + y, SubchartSwaps(u, c)) == "." + Replaced(y, SubchartSwaps(u, c))
  {
    DotSeparates(u, c);
    SeparatorStays('.', y, SubchartSwaps(u, c));
    assert "" + ['.'] + y == "." + y;
  }

  lemma Dotted(front: string, y: string)
    ensures front + ("." + y) == front + "." + y
  {
  }

  lemma ComponentDefinition(x: string, u: string, c: string)
    requires ValidName(u) && ValidName(c) && x != "" && x[0] == '.'
    ensures Replaced(COMPONENT + x, SubchartSwaps(u, c)) == c + Replaced(x, SubchartSwaps(u, c))
  {
    var y := x[1..];
    assert x == "." + y;
    ComponentNames(y, u, c);
    DottedEnd(y, u, c);
    Dotted(COMPONENT, y);
    Dotted(c, Replaced(y, SubchartSwaps(u, c)));
  }

  /** No reference is mistaken for another definition that comes to bear its name. */
  ghost predicate Unmistaken(umbrella: Templates, sub: Templates, u: string, c: string)
    requires ValidName(u) && ValidName(c)
  {
    forall n, d :: Mentions(sub, Refers, n) ==>
      && (Mentions(sub, Defines, d) && Replaced(d, SubchartSwaps(u, c)) == Replaced(n, SubchartSwaps(u, c)) ==> d == n)
      && (Mentions(umbrella, Defines, d) && Replaced(d, UmbrellaSwaps(u)) == Replaced(n, SubchartSwaps(u, c)) ==> d == n)
  }

  /** A literal reference is resolved after renaming exactly if it was, by a definition its name is not torn from. */
  lemma ReferenceResolvesIff(umbrella: Templates, sub: Templates, u: string, c: string, n: string)
    requires ValidName(u) && ValidName(c) && Unmistaken(umbrella, sub, u, c) && Mentions(sub, Refers, n)
    ensures Defined(RenameAll(umbrella, UmbrellaSwaps(u)), RenameAll(sub, SubchartSwaps(u, c)),
                    Replaced(n, SubchartSwaps(u, c))) <==>
              Mentions(sub, Defines, n) || (Mentions(umbrella, Defines, n) && Whole(n, c))
  {
    var n' := Replaced(n, SubchartSwaps(u, c));
    RenamersAgreeIff(n, u, c);
    if Mentions(RenameAll(sub, SubchartSwaps(u, c)), Defines, n') {
      var d := MentionBefore(sub, Defines, SubchartSwaps(u, c), n');
      OnlyItself(umbrella, sub, u, c, n, d);
    }
    if Mentions(RenameAll(umbrella, UmbrellaSwaps(u)), Defines, n') {
      var d := MentionBefore(umbrella, Defines, UmbrellaSwaps(u), n');
      OnlyItself(umbrella, sub, u, c, n, d);
    }
    if Mentions(sub, Defines, n) { MentionAfter(sub, Defines, SubchartSwaps(u, c), n); }
    if Mentions(umbrella, Defines, n) && Whole(n, c) { MentionAfter(umbrella, Defines, UmbrellaSwaps(u), n); }
  }

  lemma OnlyItself(umbrella: Templates, sub: Templates, u: string, c: string, n: string, d: string)
    requires ValidName(u) && ValidName(c) && Unmistaken(umbrella, sub, u, c) && Mentions(sub, Refers, n)
    requires || (Mentions(sub, Defines, d) && Replaced(d, SubchartSwaps(u, c)) == Replaced(n, SubchartSwaps(u, c)))
             || (Mentions(umbrella, Defines, d) && Replaced(d, UmbrellaSwaps(u)) == Replaced(n, SubchartSwaps(u, c)))
    ensures d == n
  {
  }

  // ----- names before and after ----------------------------------------------------------

  lemma DotSeparates(u: string, c: string)
    requires ValidName(u) && ValidName(c)
    ensures Separates('.', UmbrellaSwaps(u)) && Separates('.', SubchartSwaps(u, c))
    ensures FirstMatch(PLACEHOLDER, UmbrellaSwaps(u)) == Some(Swap(PLACEHOLDER, u))
    ensures FirstMatch(PLACEHOLDER, SubchartSwaps(u, c)) == Some(Swap(PLACEHOLDER, u))
    ensures FirstMatch(COMPONENT, SubchartSwaps(u, c)) == Some(Swap(COMPONENT, c))
  {
    assert SubchartSwaps(u, c)[1..][0] == Swap(COMPONENT, c);
    assert COMPONENT[0] != PLACEHOLDER[0];
  }

  /** umbrella-chart.x becomes u.x' in both charts, also when u itself holds "component". */
  lemma UmbrellaNames(x: string, u: string, c: string)
    requires ValidName(u) && ValidName(c)
    ensures Replaced(PLACEHOLDER + "." + x, UmbrellaSwaps(u)) == u + "." + Replaced(x, UmbrellaSwaps(u))
    ensures Replaced(PLACEHOLDER + "." + x, SubchartSwaps(u, c)) == u + "." + Replaced(x, SubchartSwaps(u, c))
  {
    DotSeparates(u, c);
    ReplacedAt(PLACEHOLDER, '.', x, UmbrellaSwaps(u));
    ReplacedAt(PLACEHOLDER, '.', x, SubchartSwaps(u, c));
    WholeSwap(Swap(PLACEHOLDER, u), UmbrellaSwaps(u));
    WholeSwap(Swap(PLACEHOLDER, u), SubchartSwaps(u, c));
  }

  lemma ComponentNames(y: string, u: string, c: string)
    requires ValidName(u) && ValidName(c)
    ensures Replaced(COMPONENT + "." + y, SubchartSwaps(u, c)) == c + "." + Replaced(y, SubchartSwaps(u, c))
  {
    DotSeparates(u, c);
    ReplacedAt(COMPONENT, '.', y, SubchartSwaps(u, c));
    WholeSwap(Swap(COMPONENT, c), SubchartSwaps(u, c));
  }

  /** A link to umbrella-chart.x survives both renamers exactly if x is whole, or the subchart is called "component". */
  lemma UmbrellaLinkIff(x: string, u: string, c: string)
    requires ValidName(u) && ValidName(c)
    ensures var n := PLACEHOLDER + "." + x;
            Replaced(n, SubchartSwaps(u, c)) == Replaced(n, UmbrellaSwaps(u)) <==> c == COMPONENT || Absent(COMPONENT, x)
  {
    UmbrellaNames(x, u, c);
    RenamersAgreeIff(x, u, c);
    FrontsDiffer(u + ".", Replaced(x, SubchartSwaps(u, c)), u + ".", Replaced(x, UmbrellaSwaps(u)));
  }

  /**
    Why one pass and not one ReplaceAll after another: the second would look at
    the umbrella's name again, and change it exactly if that holds "component".
  */
  lemma TwoPassesWouldRescan(x: string, u: string, c: string)
    requires ValidName(u) && ValidName(c)
    ensures ReplaceAll(ReplaceAll(PLACEHOLDER + "." + x, PLACEHOLDER, u), COMPONENT, c)
            == ReplaceAll(u, COMPONENT, c) + "." + ReplaceAll(Replaced(x, UmbrellaSwaps(u)), COMPONENT, c)
    ensures ReplaceAll(u, COMPONENT, c) == u <==> c == COMPONENT || Absent(COMPONENT, u)
  {
    DotSeparates(u, c);
    ReplacedAt(PLACEHOLDER, '.', x, UmbrellaSwaps(u));
    WholeSwap(Swap(PLACEHOLDER, u), UmbrellaSwaps(u));
    ReplacedAt(u, '.', Replaced(x, UmbrellaSwaps(u)), [Swap(COMPONENT, c)]);
    ReplaceAllKeepsIff(u, COMPONENT, c);
  }

  lemma NoDot(s: string)
    requires ValidName(s)
    ensures '.' !in s
  {
  }

  /**
    A definition of the subchart takes the place of one of the umbrella's exactly
    if both charts bear the same name, which Validate does not rule out.
  */
  lemma CaptureIff(x: string, y: string, u: string, c: string)
    requires ValidName(u) && ValidName(c)
    ensures Replaced(PLACEHOLDER + "." + x, UmbrellaSwaps(u)) == Replaced(COMPONENT + "." + y, SubchartSwaps(u, c)) <==>
              u == c && Replaced(x, UmbrellaSwaps(u)) == Replaced(y, SubchartSwaps(u, c))
  {
    UmbrellaNames(x, u, c);
    ComponentNames(y, u, c);
    NoDot(u);
    NoDot(c);
    var x', y' := Replaced(x, UmbrellaSwaps(u)), Replaced(y, SubchartSwaps(u, c));
    BeforeAppend(u, '.', x');
    BeforeAppend(c, '.', y');
    assert u + "." + x' == u + ['.'] + x' && c + "." + y' == c + ['.'] + y';
    assert (u + ['.'] + x')[|u| + 1..] == x' && (c + ['.'] + y')[|c| + 1..] == y';
  }

  // ----- inlining ---------------------------------------------------------------------------

  predicate IsTpl(name: string) {
    |name| >= 4 && name[|name| - 4..] == ".tpl"
  }

  /** The mentions of one body after another's, the code between them joined. */
  function Joined(a: Body, b: Body): Body {
    if a.mentions == [] then Body(a.code + b.code, b.mentions)
    else
      var last := a.mentions[|a.mentions| - 1];
      Body(a.code, a.mentions[..|a.mentions| - 1] + [last.(code := last.code + b.code)] + b.mentions)
  }

  lemma {:induction false} PrintMentionsConcat(a: seq<Mention>, b: seq<Mention>)
    ensures PrintMentions(a + b) == PrintMentions(a) + PrintMentions(b)
  {
    if a == [] {
      assert a + b == b;
    } else {
      assert (a + b)[1..] == a[1..] + b;
      PrintMentionsConcat(a[1..], b);
    }
  }

  /** Appending text is joining bodies. */
  lemma JoinedPrints(a: Body, b: Body)
    ensures Print(Joined(a, b)) == Print(a) + Print(b)
  {
    if a.mentions != [] {
      var init, last := a.mentions[..|a.mentions| - 1], a.mentions[|a.mentions| - 1];
      var last' := last.(code := last.code + b.code);
      PrintMentionsConcat(init + [last'], b.mentions);
      PrintMentionsConcat(init, [last']);
      PrintMentionsConcat(init, [last]);
      assert a.mentions == init + [last];
      PrintCons("", last, []);
      PrintCons("", last', []);
    }
  }

  lemma JoinedNames(a: Body, b: Body, use: Use)
    ensures Names(Joined(a, b), use) == Names(a, use) + Names(b, use)
  {
    if a.mentions != [] {
      var init, last := a.mentions[..|a.mentions| - 1], a.mentions[|a.mentions| - 1];
      assert a.mentions == init + [last];
      var joined := Joined(a, b).mentions;
      forall m | m in a.mentions ensures exists m' :: m' in joined && m'.use == m.use && m'.name == m.name {
        if m == last { assert last.(code := last.code + b.code) in joined; } else { assert m in joined; }
      }
      forall m | m in b.mentions ensures m in joined {}
      forall m | m in joined ensures exists m' :: m' in a.mentions + b.mentions && m'.use == m.use && m'.name == m.name {
        if m == last.(code := last.code + b.code) { assert last in a.mentions + b.mentions; }
        else { assert m in a.mentions + b.mentions; }
      }
    }
  }

  const NEWLINE := Body("\n", [])

  /** collectUmbrellaDefines: the .tpl files one after another, each followed by a newline. */
  function Collected(ts: Templates): Body {
    if ts == [] then Body("", [])
    else if IsTpl(ts[|ts| - 1].name) then Joined(Joined(Collected(ts[..|ts| - 1]), ts[|ts| - 1].body), NEWLINE)
    else Collected(ts[..|ts| - 1])
  }

  lemma {:induction false} CollectedNames(ts: Templates, use: Use, n: string)
    ensures n in Names(Collected(ts), use) <==> exists t :: t in ts && IsTpl(t.name) && n in Names(t.body, use)
  {
    if ts != [] {
      var init, last := ts[..|ts| - 1], ts[|ts| - 1];
      assert ts == init + [last];
      CollectedNames(init, use, n);
      if IsTpl(last.name) {
        JoinedNames(Collected(init), last.body, use);
        JoinedNames(Joined(Collected(init), last.body), NEWLINE, use);
        assert Names(NEWLINE, use) == {};
      }
    }
  }

  const HELPERS := "templates/_helpers.tpl"

  /** applyInlining: into the first _helpers.tpl, or into a new one. */
  function Inlined(ts: Templates, defines: Body): Templates {
    if ts == [] then [TemplateFile(HELPERS, defines)]
    else if ts[0].name == HELPERS then [ts[0].(body := Joined(ts[0].body, Joined(NEWLINE, defines)))] + ts[1..]
    else [ts[0]] + Inlined(ts[1..], defines)
  }

  /** Inlining, file by file. */
  lemma {:induction false} InlinedAt(ts: Templates, defines: Body, i: nat)
    requires i <= |ts| && (forall j :: 0 <= j < i ==> ts[j].name != HELPERS) && (i < |ts| ==> ts[i].name == HELPERS)
    ensures Inlined(ts, defines) ==
              if i == |ts| then ts + [TemplateFile(HELPERS, defines)]
              else ts[i := ts[i].(body := Joined(ts[i].body, Joined(NEWLINE, defines)))]
  {
    if 0 < i {
      InlinedAt(ts[1..], defines, i - 1);
      assert ts == [ts[0]] + ts[1..];
    }
  }

  lemma {:induction false} InlinedMentions(ts: Templates, defines: Body, use: Use, n: string)
    ensures Mentions(Inlined(ts, defines), use, n) <==> Mentions(ts, use, n) || n in Names(defines, use)
  {
    var rs := Inlined(ts, defines);
    if ts == [] {
      assert TemplateFile(HELPERS, defines) in rs;
    } else {
      assert ts == [ts[0]] + ts[1..] && rs == [rs[0]] + rs[1..];
      assert Mentions(ts, use, n) <==> n in Names(ts[0].body, use) || Mentions(ts[1..], use, n) by { MentionsCons(ts, use, n); }
      MentionsCons(rs, use, n);
      if ts[0].name == HELPERS {
        JoinedNames(NEWLINE, defines, use);
        JoinedNames(ts[0].body, Joined(NEWLINE, defines), use);
        assert Names(NEWLINE, use) == {};
      } else {
        InlinedMentions(ts[1..], defines, use, n);
      }
    }
  }

  lemma MentionsCons(ts: Templates, use: Use, n: string)
    requires ts != []
    ensures Mentions(ts, use, n) <==> n in Names(ts[0].body, use) || Mentions(ts[1..], use, n)
  {
    if Mentions(ts, use, n) {
      var t :| t in ts && n in Names(t.body, use);
      assert t == ts[0] || t in ts[1..];
    }
    if Mentions(ts[1..], use, n) {
      var t :| t in ts[1..] && n in Names(t.body, use);
      assert t in ts;
    }
    if n in Names(ts[0].body, use) { assert ts[0] in ts; }
  }

  /** All definitions live in .tpl files, which resolve their own references among themselves. */
  ghost predicate SelfContained(umbrella: Templates) {
    && (forall n :: Mentions(umbrella, Defines, n) ==> n in Names(Collected(umbrella), Defines))
    && Names(Collected(umbrella), Refers) <= Names(Collected(umbrella), Defines)
  }

  /** With the umbrella's definitions inlined, the subchart needs no other chart. */
  lemma InliningClosesTheSubchart(umbrella: Templates, sub: Templates, c: string)
    requires Resolves(umbrella, sub, c) && SelfContained(umbrella)
    ensures Resolves([], Inlined(sub, Collected(umbrella)), c)
  {
    var sub' := Inlined(sub, Collected(umbrella));
    forall n ensures Defined(umbrella, sub, n) ==> Mentions(sub', Defines, n) {
      InlinedMentions(sub, Collected(umbrella), Defines, n);
    }
    forall n | Mentions(sub', Refers, n) ensures Mentions(sub', Defines, n) {
      InlinedMentions(sub, Collected(umbrella), Refers, n);
      InlinedMentions(sub, Collected(umbrella), Defines, n);
    }
    forall x | ComputedEnd([], sub', x) ensures Mentions(sub', Defines, c + x) {
      InlinedMentions(sub, Collected(umbrella), Computes, x);
      assert ComputedEnd(umbrella, sub, x);
    }
  }

  lemma CollectedRenamed(ts: Templates, use: Use, swaps: seq<Swap>, n: string)
    requires Proper(swaps)
    ensures n in Names(Collected(RenameAll(ts, swaps)), use) <==>
              exists m :: m in Names(Collected(ts), use) && n == Replaced(m, swaps)
  {
    var rs := RenameAll(ts, swaps);
    CollectedNames(rs, use, n);
    if n in Names(Collected(rs), use) {
      var i :| 0 <= i < |rs| && IsTpl(rs[i].name) && n in Names(rs[i].body, use);
      var m := NameBefore(ts[i].body, use, swaps, n);
      assert ts[i] in ts;
      CollectedNames(ts, use, m);
    }
    if m :| m in Names(Collected(ts), use) && n == Replaced(m, swaps) {
      CollectedNames(ts, use, m);
      var i :| 0 <= i < |ts| && IsTpl(ts[i].name) && m in Names(ts[i].body, use);
      NameAfter(ts[i].body, use, swaps, m);
      assert rs[i] in rs;
    }
  }

  lemma RenamedIsSelfContained(ts: Templates, swaps: seq<Swap>)
    requires Proper(swaps) && SelfContained(ts)
    ensures SelfContained(RenameAll(ts, swaps))
  {
    var rs := RenameAll(ts, swaps);
    forall n | Mentions(rs, Defines, n) ensures n in Names(Collected(rs), Defines) {
      MentionsRenamed(ts, Defines, swaps, n);
      CollectedRenamed(ts, Defines, swaps, n);
    }
    forall n | n in Names(Collected(rs), Refers) ensures n in Names(Collected(rs), Defines) {
      CollectedRenamed(ts, Refers, swaps, n);
      CollectedRenamed(ts, Defines, swaps, n);
    }
  }

  /** With linked_templates off: renamed, built and with the renamed definitions inlined, each subchart stands alone. */
  lemma UnlinkedSubchartStandsAlone(umbrella: Templates, sub: Templates, built: Templates, u: string, c: string)
    requires ValidName(u) && ValidName(c) && Linked(umbrella, sub, c) && SelfContained(umbrella)
    requires Develops(RenameAll(sub, SubchartSwaps(u, c)), built, c)
    ensures Resolves([], Inlined(built, Collected(RenameAll(umbrella, UmbrellaSwaps(u)))), c)
  {
    RenamingKeepsLinks(umbrella, sub, built, u, c);
    RenamedIsSelfContained(umbrella, UmbrellaSwaps(u));
    InliningClosesTheSubchart(RenameAll(umbrella, UmbrellaSwaps(u)), built, c);
  }
}
