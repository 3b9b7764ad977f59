/**
  Section surgery on values text. dropSection, replaceSection and
  stripSectionMarkers edit text line by line; on texts whose sections are
  closed and unnested that is the same as parsing the text to a document,
  editing the document, printing it without markers and collapsing once.
*/
module Sections {
  import opened Prelude
  import opened Text
  import opened BlankRuns

  const START := "# chartpress:section "
  const END := "# chartpress:end"

  function StartOf(name: string): string {
    START + name
  }

  predicate IsStart(l: string) {
    START <= l
  }

  predicate Marker(l: string) {
    IsStart(l) || l == END
  }

  /** No line is a marker, none holds a newline. */
  predicate Ordinary(ls: seq<string>) {
    Lines(ls) && forall l :: l in ls ==> !Marker(l)
  }

  lemma MarkersDiffer(a: string, b: string)
    ensures StartOf(a) != END && IsStart(StartOf(a)) && StartOf(a) != "" && END != ""
    ensures StartOf(a) == StartOf(b) ==> a == b
    ensures !IsStart(END)
  {
    assert StartOf(a)[13] != END[13];
    assert END[13] != START[13];
    assert StartOf(a)[|START|..] == a && StartOf(b)[|START|..] == b;
  }

  // ----- the text operations ---------------------------------------------------

  function FindEnd(ls: seq<string>): (e: Option<nat>)
    ensures e.Some? ==> e.value < |ls| && ls[e.value] == END && END !in ls[..e.value]
    ensures e.None? ==> END !in ls
  {
    if ls == [] then None
    else if ls[0] == END then Some(0)
    else match FindEnd(ls[1..]) case Some(e) => Some(e + 1) case None => None
  }

  /**
    ReplaceAll of the section pattern: from a start line through the next end
    line and its newline. An unclosed section does not match.
  */
  function Cut(ls: seq<string>, name: string, block: seq<string>): seq<string>
    decreases |ls|
  {
    if ls == [] then []
    else if ls[0] == StartOf(name) && FindEnd(ls[1..]).Some? then
      var rest := ls[FindEnd(ls[1..]).value + 2..];
      block + if rest == [] then [""] else Cut(rest, name, block)
    else [ls[0]] + Cut(ls[1..], name, block)
  }

  function DropSection(text: string, name: string): string {
    Squeeze(Join(Cut(Split(text), name, [])), 0)
  }

  function ReplaceSection(text: string, name: string, block: string): string {
    Join(Cut(Split(text), name, Split(TrimRight(block, IsNewline))))
  }

  function Unmarked(ls: seq<string>): seq<string> {
    if ls == [] then [] else if Marker(ls[0]) then Unmarked(ls[1..]) else [ls[0]] + Unmarked(ls[1..])
  }

  function StripMarkers(text: string): string {
    Squeeze(Join(Unmarked(Split(text))), 0)
  }

  /** The loop of stripSectionMarkers: compact the split lines in place. */
  method DropMarkers(ls: array<string>) returns (kept: nat)
    modifies ls
    ensures kept <= ls.Length && ls[..kept] == Unmarked(old(ls[..]))
  {
    kept := 0;
    ghost var all := ls[..];
    for i := 0 to ls.Length
      invariant kept <= i && forall j :: i <= j < ls.Length ==> ls[j] == all[j]
      invariant ls[..kept] == Unmarked(all[..i])
    {
      UnmarkedSnoc(all[..i], all[i]);
      assert all[..i + 1] == all[..i] + [all[i]];
      if !Marker(ls[i]) {
        ghost var before := ls[..kept];
        ls[kept] := ls[i];
        kept := kept + 1;
        assert ls[..kept] == before + [all[i]];
      }
    }
    assert all[..|all|] == all;
  }

  method StripSectionMarkers(text: string) returns (out: string)
    ensures out == StripMarkers(text)
  {
    var all := Split(text);
    var ls := new string[|all|](i requires 0 <= i < |all| => all[i]);
    assert ls[..] == all;
    var kept := DropMarkers(ls);
    out := CollapseBlankRuns(Join(ls[..kept]));
  }

  lemma {:induction false} UnmarkedConcat(a: seq<string>, b: seq<string>)
    ensures Unmarked(a + b) == Unmarked(a) + Unmarked(b)
  {
    if a == [] {
      assert a + b == b;
    } else {
      assert (a + b)[1..] == a[1..] + b;
      UnmarkedConcat(a[1..], b);
    }
  }

  lemma UnmarkedSnoc(ls: seq<string>, l: string)
    ensures Unmarked(ls + [l]) == Unmarked(ls) + if Marker(l) then [] else [l]
  {
    UnmarkedConcat(ls, [l]);
  }

  datatype Edit = Drop(name: string) | Replace(name: string, block: string)

  function EditText(text: string, e: Edit): string {
    match e
    case Drop(name) => DropSection(text, name)
    case Replace(name, block) => ReplaceSection(text, name, block)
  }

  function EditTextAll(text: string, es: seq<Edit>): string {
    if es == [] then text else EditText(EditTextAll(text, es[..|es| - 1]), es[|es| - 1])
  }

  /** The text part of applyTraits. */
  function Tailor(text: string, es: seq<Edit>): string {
    StripMarkers(EditTextAll(text, es))
  }

  // ----- documents -----------------------------------------------------------------

  /** Plain lines, then a section, then the rest. */
  datatype Doc = Tail(lines: seq<string>) | Sect(lines: seq<string>, name: string, body: seq<string>, rest: Doc)

  predicate WellFormed(d: Doc) {
    match d
    case Tail(ls) => Ordinary(ls)
    case Sect(ls, name, body, rest) => Ordinary(ls) && OneLine(name) && Ordinary(body) && WellFormed(rest)
  }

  function Print(d: Doc): seq<string> {
    match d
    case Tail(ls) => ls
    case Sect(ls, name, body, rest) => ls + [StartOf(name)] + body + [END] + Print(rest)
  }

  function PrintPlain(d: Doc): seq<string> {
    match d
    case Tail(ls) => ls
    case Sect(ls, _, body, rest) => ls + body + PrintPlain(rest)
  }

  function Prepend(ls: seq<string>, d: Doc): Doc {
    d.(lines := ls + d.lines)
  }

  /** Put block in place of every section called name. */
  function Rewrite(d: Doc, name: string, block: seq<string>): Doc {
    match d
    case Tail(_) => d
    case Sect(ls, n, body, rest) =>
      if n == name then Prepend(ls + block, Rewrite(rest, name, block))
      else Sect(ls, n, body, Rewrite(rest, name, block))
  }

  function BlockOf(e: Edit): seq<string> {
    match e
    case Drop(_) => []
    case Replace(_, block) => Split(TrimRight(block, IsNewline))
  }

  function EditDoc(d: Doc, e: Edit): Doc {
    Rewrite(d, e.name, BlockOf(e))
  }

  function EditDocAll(d: Doc, es: seq<Edit>): Doc {
    if es == [] then d else EditDoc(EditDocAll(d, es[..|es| - 1]), es[|es| - 1])
  }

  /** A section closed at its end line; it must hold no start line. */
  function Close(name: string, body: seq<string>, rest: Option<Doc>): Option<Doc> {
    if rest.None? || exists l :: l in body && IsStart(l) then None else Some(Sect([], name, body, rest.value))
  }

  function Parse(ls: seq<string>): Option<Doc>
    decreases |ls|
  {
    if ls == [] then Some(Tail([]))
    else if IsStart(ls[0]) then
      match FindEnd(ls[1..])
      case None => None
      case Some(e) => Close(ls[0][|START|..], ls[1..][..e], Parse(ls[e + 2..]))
    else if ls[0] == END then None
    else match Parse(ls[1..])
      case None => None
      case Some(d) => Some(Prepend([ls[0]], d))
  }

  lemma PrintPrepend(ls: seq<string>, d: Doc)
    ensures Print(Prepend(ls, d)) == ls + Print(d) && PrintPlain(Prepend(ls, d)) == ls + PrintPlain(d)
  {
    if d.Sect? {
      assert (ls + d.lines) + [StartOf(d.name)] + d.body + [END] + Print(d.rest) == ls + Print(d);
      assert (ls + d.lines) + d.body + PrintPlain(d.rest) == ls + PrintPlain(d);
    }
  }

  /** Parsing succeeds exactly on printed documents, and printing undoes it. */
  lemma {:induction false} PrintParse(ls: seq<string>)
    requires Lines(ls) && Parse(ls).Some?
    ensures WellFormed(Parse(ls).value) && Print(Parse(ls).value) == ls
    decreases |ls|
  {
    if ls != [] {
      assert OneLine(ls[0]);
      if IsStart(ls[0]) {
        var e := FindEnd(ls[1..]).value;
        PrintParse(ls[e + 2..]);
        NameIsOneLine(ls[0]);
        SectionParts(ls, e);
        BodyIsOrdinary(ls, e);
      } else {
        PrintParse(ls[1..]);
        PrintPrepend([ls[0]], Parse(ls[1..]).value);
      }
    }
  }

  lemma SectionParts(ls: seq<string>, e: nat)
    requires ls != [] && e < |ls[1..]| && ls[1..][e] == END
    ensures ls == [ls[0]] + ls[1..][..e] + [END] + ls[e + 2..]
  {
    assert ls[1..] == ls[1..][..e] + [END] + ls[e + 2..];
  }

  lemma BodyIsOrdinary(ls: seq<string>, e: nat)
    requires ls != [] && Lines(ls) && e < |ls[1..]| && END !in ls[1..][..e]
    requires !exists l :: l in ls[1..][..e] && IsStart(l)
    ensures Ordinary(ls[1..][..e])
  {
    forall l | l in ls[1..][..e] ensures OneLine(l) && !Marker(l) { assert l in ls; }
  }

  lemma NameIsOneLine(l: string)
    requires OneLine(l) && IsStart(l)
    ensures OneLine(l[|START|..]) && StartOf(l[|START|..]) == l
  {
  }

  lemma ParseLine(l: string, ls: seq<string>)
    requires !Marker(l) && Parse(ls).Some?
    ensures Parse([l] + ls) == Some(Prepend([l], Parse(ls).value))
  {
    assert ([l] + ls)[1..] == ls;
  }

  lemma ParseSection(name: string, body: seq<string>, ls: seq<string>)
    requires Ordinary(body) && Parse(ls).Some?
    ensures Parse([StartOf(name)] + body + [END] + ls) == Some(Sect([], name, body, Parse(ls).value))
  {
    MarkersDiffer(name, name);
    var all, tail := [StartOf(name)] + body + [END] + ls, body + ([END] + ls);
    FindEndAfter(body, [END] + ls);
    assert all[1..] == tail && tail[..|body|] == body && all[|body| + 2..] == ls;
    assert all[0] == StartOf(name) && all[0][|START|..] == name;
    assert Parse(all) == Close(name, body, Parse(ls));
  }

  lemma {:induction false} ParsePrint(d: Doc)
    requires WellFormed(d)
    ensures Parse(Print(d)) == Some(d)
    decreases |Print(d)|
  {
    if d.lines != [] {
      var t, l := d.(lines := d.lines[1..]), d.lines[0];
      assert [l] + t.lines == d.lines && l in d.lines;
      assert Prepend([l], t) == d;
      PrintPrepend([l], t);
      ParsePrint(t);
      ParseLine(l, Print(t));
    } else if d.Sect? {
      ParsePrint(d.rest);
      ParseSection(d.name, d.body, Print(d.rest));
      assert Print(d) == [StartOf(d.name)] + d.body + [END] + Print(d.rest);
    }
  }

  lemma {:induction false} FindEndAfter(a: seq<string>, b: seq<string>)
    requires END !in a && b != [] && b[0] == END
    ensures FindEnd(a + b) == Some(|a|)
  {
    if a != [] {
      assert (a + b)[1..] == a[1..] + b;
      FindEndAfter(a[1..], b);
    } else {
      assert a + b == b;
    }
  }

  // ----- one text operation is one document operation ---------------------------------

  lemma {:induction false} CutSkips(ls: seq<string>, more: seq<string>, name: string, block: seq<string>)
    requires StartOf(name) !in ls
    ensures Cut(ls + more, name, block) == ls + Cut(more, name, block)
  {
    if ls != [] {
      assert (ls + more)[1..] == ls[1..] + more;
      CutSkips(ls[1..], more, name, block);
    } else {
      assert ls + more == more;
    }
  }

  lemma CutFirst(body: seq<string>, more: seq<string>, name: string, block: seq<string>)
    requires Ordinary(body) && more != []
    ensures Cut([StartOf(name)] + (body + ([END] + more)), name, block) == block + Cut(more, name, block)
  {
    MarkersDiffer(name, name);
    var here := [StartOf(name)] + (body + ([END] + more));
    FindEndAfter(body, [END] + more);
    assert here[1..] == body + ([END] + more) && here[|body| + 2..] == more;
  }

  /** Cut at a section of that name. */
  lemma CutHere(ls: seq<string>, body: seq<string>, more: seq<string>, name: string, block: seq<string>)
    requires Ordinary(ls) && Ordinary(body) && more != []
    ensures Cut(ls + [StartOf(name)] + body + [END] + more, name, block) == ls + block + Cut(more, name, block)
  {
    MarkersDiffer(name, name);
    var here := [StartOf(name)] + (body + ([END] + more));
    assert ls + [StartOf(name)] + body + [END] + more == ls + here;
    CutSkips(ls, here, name, block);
    CutFirst(body, more, name, block);
  }

  /** Cut over a section of another name. */
  lemma CutOver(ls: seq<string>, n: string, body: seq<string>, more: seq<string>, name: string, block: seq<string>)
    requires Ordinary(ls) && Ordinary(body) && n != name
    ensures var skipped := ls + [StartOf(n)] + body + [END];
            Cut(skipped + more, name, block) == skipped + Cut(more, name, block)
  {
    MarkersDiffer(n, name);
    CutSkips(ls + [StartOf(n)] + body + [END], more, name, block);
  }

  /** On a printed document followed by an ordinary unterminated line, Cut is Rewrite. */
  lemma {:induction false} CutIsRewrite(d: Doc, last: string, name: string, block: seq<string>)
    requires WellFormed(d) && !Marker(last)
    ensures Cut(Print(d) + [last], name, block) == Print(Rewrite(d, name, block)) + [last]
  {
    match d
    case Tail(ls) =>
      MarkersDiffer(name, name);
      CutSkips(ls, [last], name, block);
    case Sect(ls, n, body, rest) =>
      CutIsRewrite(rest, last, name, block);
      var more, done := Print(rest) + [last], Rewrite(rest, name, block);
      assert Print(d) + [last] == ls + [StartOf(n)] + body + [END] + more;
      if n == name {
        CutHere(ls, body, more, name, block);
        PrintPrepend(ls + block, done);
      } else {
        CutOver(ls, n, body, more, name, block);
        assert Print(Sect(ls, n, body, done)) == ls + [StartOf(n)] + body + [END] + Print(done);
      }
  }

  lemma {:induction false} UnmarkedOrdinary(ls: seq<string>)
    requires Ordinary(ls)
    ensures Unmarked(ls) == ls
  {
    if ls != [] {
      assert ls[0] in ls;
      UnmarkedOrdinary(ls[1..]);
    }
  }

  lemma {:induction false} UnmarkedPrint(d: Doc)
    requires WellFormed(d)
    ensures Unmarked(Print(d)) == PrintPlain(d)
  {
    match d
    case Tail(ls) => UnmarkedOrdinary(ls);
    case Sect(ls, name, body, rest) =>
      UnmarkedPrint(rest);
      MarkersDiffer(name, name);
      UnmarkedSection(ls, StartOf(name), body, END, Print(rest));
  }

  lemma UnmarkedSection(ls: seq<string>, start: string, body: seq<string>, end: string, more: seq<string>)
    requires Ordinary(ls) && Ordinary(body) && Marker(start) && Marker(end)
    ensures Unmarked(ls + [start] + body + [end] + more) == ls + body + Unmarked(more)
  {
    calc {
      Unmarked(ls + [start] + body + [end] + more);
      { UnmarkedConcat(ls + [start] + body + [end], more); }
      Unmarked(ls + [start] + body + [end]) + Unmarked(more);
      { UnmarkedSnoc(ls + [start] + body, end); assert Unmarked(ls + [start] + body) + [] == Unmarked(ls + [start] + body); }
      Unmarked(ls + [start] + body) + Unmarked(more);
      { UnmarkedConcat(ls + [start], body); UnmarkedOrdinary(body); }
      Unmarked(ls + [start]) + body + Unmarked(more);
      { UnmarkedSnoc(ls, start); UnmarkedOrdinary(ls); assert ls + [] == ls; }
      ls + body + Unmarked(more);
    }
  }

  lemma {:induction false} UnmarkedMembers(ls: seq<string>)
    ensures forall l :: l in Unmarked(ls) ==> l in ls && !Marker(l)
  {
    if ls != [] { UnmarkedMembers(ls[1..]); }
  }

  lemma {:induction false} RewriteWellFormed(d: Doc, name: string, block: seq<string>)
    requires WellFormed(d) && Ordinary(block)
    ensures WellFormed(Rewrite(d, name, block))
  {
    if d.Sect? { RewriteWellFormed(d.rest, name, block); }
  }

  lemma {:induction false} PrintIsLines(d: Doc)
    requires WellFormed(d)
    ensures Lines(Print(d)) && Ordinary(PrintPlain(d))
  {
    if d.Sect? {
      PrintIsLines(d.rest);
      assert OneLine(START) && OneLine(END);
      assert OneLine(StartOf(d.name));
    }
  }

  // ----- collapsing in between makes no difference ---------------------------------------

  /** a and b come out the same wherever k newlines stand in front of them. */
  predicate SameAt(a: seq<string>, b: seq<string>, k: nat) {
    SqueezeLines(a, k) == SqueezeLines(b, k) && TrailLines(a, k) == TrailLines(b, k)
  }

  /** The same at the very top of the text, or anywhere below its first line. */
  predicate Same(a: seq<string>, b: seq<string>, top: bool) {
    if top then SameAt(a, b, 0) && (a == [] <==> b == []) else SameAt(a, b, 1) && SameAt(a, b, 2)
  }

  /** d and e have the same sections and, up to blank runs, the same text. */
  predicate Alike(d: Doc, e: Doc, top: bool) {
    && Same(d.lines, e.lines, top)
    && match (d, e) {
      case (Tail(_), Tail(_)) => true
      case (Sect(ls, n, body, rest), Sect(_, m, body', rest')) =>
        n == m && (top ==> ls != []) && Same(body, body', false) && Alike(rest, rest', false)
      case _ => false
    }
  }

  lemma SameConcat(a: seq<string>, b: seq<string>, x: seq<string>, y: seq<string>, top: bool)
    requires Same(a, b, top) && Same(x, y, false) && (top ==> a != [])
    ensures Same(a + x, b + y, top)
  {
    forall k: nat | k <= 2 && (if top then k == 0 else 0 < k) ensures SameAt(a + x, b + y, k) {
      assert SameAt(a, b, k);
      TrailLinesBound(a, k);
      assert SameAt(x, y, TrailLines(a, k));
      SqueezeLinesConcat(a, x, k);
      SqueezeLinesConcat(b, y, k);
    }
  }

  lemma {:induction false} AlikeRewrite(d: Doc, e: Doc, name: string, block: seq<string>, top: bool)
    requires Alike(d, e, top)
    ensures Alike(Rewrite(d, name, block), Rewrite(e, name, block), top)
  {
    if d.Sect? {
      AlikeRewrite(d.rest, e.rest, name, block, false);
      var x, y := Rewrite(d.rest, name, block), Rewrite(e.rest, name, block);
      if d.name == name {
        SameConcat(d.lines, e.lines, block, block, top);
        SameConcat(d.lines + block, e.lines + block, x.lines, y.lines, top);
      }
    }
  }

  /** Collapse the printed text of d, as a document. */
  function SqueezeDoc(d: Doc, top: bool): Doc {
    var k := if top then 0 else 1;
    match d
    case Tail(ls) => Tail(SqueezeLines(ls, k))
    case Sect(ls, n, body, rest) => Sect(SqueezeLines(ls, k), n, SqueezeLines(body, 1), SqueezeDoc(rest, false))
  }

  lemma SqueezeMarker(l: string, ls: seq<string>, k: nat)
    requires l != ""
    ensures SqueezeLines([l] + ls, k) == [l] + SqueezeLines(ls, 1)
  {
  }

  lemma {:induction false} PrintSqueezeDoc(d: Doc, top: bool)
    ensures Print(SqueezeDoc(d, top)) == SqueezeLines(Print(d), if top then 0 else 1)
  {
    if d.Sect? {
      var k, tail := if top then 0 else 1, [END] + Print(d.rest);
      MarkersDiffer(d.name, d.name);
      PrintSqueezeDoc(d.rest, false);
      assert Print(d) == d.lines + ([StartOf(d.name)] + (d.body + tail));
      SqueezeLinesConcat(d.lines, [StartOf(d.name)] + (d.body + tail), k);
      SqueezeMarker(StartOf(d.name), d.body + tail, TrailLines(d.lines, k));
      SqueezeLinesConcat(d.body, tail, 1);
      SqueezeMarker(END, Print(d.rest), TrailLines(d.body, 1));
    }
  }

  lemma SameSqueezed(ls: seq<string>, top: bool)
    ensures Same(SqueezeLines(ls, if top then 0 else 1), ls, top)
  {
    SqueezeLinesTwice(ls, 0, 0);
    SqueezeLinesTwice(ls, 1, 1);
    SqueezeLinesTwice(ls, 1, 2);
  }

  lemma {:induction false} AlikeSqueezed(d: Doc, top: bool)
    requires top && d.Sect? ==> d.lines != []
    ensures Alike(SqueezeDoc(d, top), d, top)
  {
    SameSqueezed(d.lines, top);
    if d.Sect? {
      SameSqueezed(d.body, false);
      AlikeSqueezed(d.rest, false);
    }
  }

  lemma {:induction false} AlikeTransitive(d: Doc, e: Doc, f: Doc, top: bool)
    requires Alike(d, e, top) && Alike(e, f, top)
    ensures Alike(d, f, top)
  {
    if d.Sect? { AlikeTransitive(d.rest, e.rest, f.rest, false); }
  }

  /** Alike documents print the same once markers are gone and blank runs collapsed. */
  lemma {:induction false} AlikePrintsSame(d: Doc, e: Doc, top: bool)
    requires Alike(d, e, top)
    ensures Same(PrintPlain(d), PrintPlain(e), top)
  {
    if d.Sect? {
      AlikePrintsSame(d.rest, e.rest, false);
      SameConcat(d.lines, e.lines, d.body, e.body, top);
      SameConcat(d.lines + d.body, e.lines + e.body, PrintPlain(d.rest), PrintPlain(e.rest), top);
    }
  }

  // ----- the theorem ------------------------------------------------------------------------

  /** Closed, unnested sections; neither the first nor the last line is a marker. */
  predicate Sectioned(text: string) {
    var all := Split(text);
    !Marker(all[0]) && !Marker(all[|all| - 1]) && Parse(all[..|all| - 1]).Some?
  }

  function LastLine(text: string): string {
    Split(text)[|Split(text)| - 1]
  }

  function DocOf(text: string): Doc
    requires Sectioned(text)
  {
    Parse(Split(text)[..|Split(text)| - 1]).value
  }

  /** Go's ReplaceAllString expands $name, ${name} and $$ in a replacement; this block has nothing to expand. */
  predicate Literal(block: string) {
    forall i :: 0 <= i < |block| - 1 && block[i] == '$' ==> !Expands(block[i + 1])
  }

  predicate Expands(c: char) {
    c == '$' || c == '{' || c == '_' || '0' <= c <= '9' || 'a' <= c <= 'z' || 'A' <= c <= 'Z' || c as int >= 128
  }

  /** Every replacement block is free of marker lines and inserted as it stands. */
  predicate PlainBlocks(es: seq<Edit>) {
    forall e :: e in es ==> Ordinary(BlockOf(e)) && (e.Replace? ==> Literal(e.block))
  }

  /** text is d followed by last, up to blank runs. */
  ghost predicate Shows(text: string, d: Doc, last: string, e: Doc) {
    WellFormed(d) && text == Join(Print(d) + [last]) && Alike(d, e, true)
  }

  lemma {:induction false} SqueezeDocWellFormed(d: Doc, top: bool)
    requires WellFormed(d)
    ensures WellFormed(SqueezeDoc(d, top))
  {
    if d.Sect? { SqueezeDocWellFormed(d.rest, false); }
  }

  lemma CollapseShows(d: Doc, last: string, e: Doc) returns (d': Doc)
    requires WellFormed(d) && OneLine(last) && Alike(d, e, true)
    ensures Shows(Squeeze(Join(Print(d) + [last]), 0), d', last, e)
  {
    d' := SqueezeDoc(d, true);
    SqueezeDocWellFormed(d, true);
    PrintIsLines(d);
    CollapseByLines(Print(d), last, 0);
    PrintSqueezeDoc(d, true);
    AlikeSqueezed(d, true);
    AlikeTransitive(d', d, e, true);
  }

  lemma EditShows(text: string, d: Doc, last: string, e: Doc, edit: Edit) returns (d': Doc)
    requires Shows(text, d, last, e) && OneLine(last) && !Marker(last) && Ordinary(BlockOf(edit))
    ensures Shows(EditText(text, edit), d', last, EditDoc(e, edit))
  {
    PrintIsLines(d);
    SplitJoin(Print(d) + [last]);
    CutIsRewrite(d, last, edit.name, BlockOf(edit));
    RewriteWellFormed(d, edit.name, BlockOf(edit));
    AlikeRewrite(d, e, edit.name, BlockOf(edit), true);
    d' := EditDoc(d, edit);
    if edit.Drop? { d' := CollapseShows(d', last, EditDoc(e, edit)); }
  }

  lemma {:induction false} AllEditsShow(text: string, es: seq<Edit>) returns (d: Doc)
    requires Sectioned(text) && PlainBlocks(es)
    ensures Shows(EditTextAll(text, es), d, LastLine(text), EditDocAll(DocOf(text), es))
    decreases |es|
  {
    var all, last := Split(text), LastLine(text);
    SplitIsLines(text);
    assert all == all[..|all| - 1] + [last] && OneLine(last) && !Marker(last);
    if es == [] {
      d := DocOf(text);
      PrintParse(all[..|all| - 1]);
      AlikeItself(d);
    } else {
      var some, e := es[..|es| - 1], es[|es| - 1];
      assert e in es;
      d := AllEditsShow(text, some);
      d := EditShows(EditTextAll(text, some), d, last, EditDocAll(DocOf(text), some), e);
    }
  }

  lemma AlikeItself(d: Doc)
    requires d.Sect? ==> d.lines != []
    ensures Alike(d, d, true)
  {
    AlikeBelow(d, true);
  }

  lemma {:induction false} AlikeBelow(d: Doc, top: bool)
    requires top && d.Sect? ==> d.lines != []
    ensures Alike(d, d, top)
  {
    if d.Sect? { AlikeBelow(d.rest, false); }
  }

  /** The text edits are document edits: parse once, edit, print once without markers, collapse once. */
  lemma SurgeryIsDocumentEditing(text: string, es: seq<Edit>)
    requires Sectioned(text) && PlainBlocks(es)
    ensures Tailor(text, es) == Squeeze(Join(PrintPlain(EditDocAll(DocOf(text), es)) + [LastLine(text)]), 0)
  {
    var last, e := LastLine(text), EditDocAll(DocOf(text), es);
    SplitIsLines(text);
    assert last in Split(text);
    var d := AllEditsShow(text, es);
    PrintIsLines(d);
    SplitJoin(Print(d) + [last]);
    UnmarkedPrint(d);
    UnmarkedSnoc(Print(d), last);
    CollapseByLines(PrintPlain(d), last, 0);
    AlikePrintsSame(d, e, true);
    EditedWellFormed(DocOf(text), es, text);
    PrintIsLines(e);
    CollapseByLines(PrintPlain(e), last, 0);
  }

  lemma {:induction false} EditedWellFormed(d: Doc, es: seq<Edit>, text: string)
    requires Sectioned(text) && d == DocOf(text) && PlainBlocks(es)
    ensures WellFormed(EditDocAll(d, es))
    decreases |es|
  {
    SplitIsLines(text);
    PrintParse(Split(text)[..|Split(text)| - 1]);
    if es != [] {
      EditedWellFormed(d, es[..|es| - 1], text);
      assert es[|es| - 1] in es;
      RewriteWellFormed(EditDocAll(d, es[..|es| - 1]), es[|es| - 1].name, BlockOf(es[|es| - 1]));
    }
  }

  // ----- consequences -------------------------------------------------------------------------

  lemma {:induction false} RewritePrepend(ls: seq<string>, d: Doc, name: string, block: seq<string>)
    ensures Rewrite(Prepend(ls, d), name, block) == Prepend(ls, Rewrite(d, name, block))
  {
    if d.Sect? && d.name == name {
      assert (ls + d.lines) + block == ls + (d.lines + block);
      var x := Rewrite(d.rest, name, block);
      assert (ls + (d.lines + block)) + x.lines == ls + ((d.lines + block) + x.lines);
    }
  }

  /** Edits to different sections commute. */
  lemma {:induction false} EditsCommute(d: Doc, a: Edit, b: Edit)
    requires a.name != b.name
    ensures EditDoc(EditDoc(d, a), b) == EditDoc(EditDoc(d, b), a)
  {
    if d.Sect? {
      EditsCommute(d.rest, a, b);
      if d.name == a.name { RewritePrepend(d.lines + BlockOf(a), Rewrite(d.rest, a.name, BlockOf(a)), b.name, BlockOf(b)); }
      if d.name == b.name { RewritePrepend(d.lines + BlockOf(b), Rewrite(d.rest, b.name, BlockOf(b)), a.name, BlockOf(a)); }
    }
  }

  /** ... and so do they on the text, next to each other anywhere in a series of edits. */
  lemma TextEditsCommute(text: string, before: seq<Edit>, a: Edit, b: Edit)
    requires Sectioned(text) && PlainBlocks(before + [a, b]) && a.name != b.name
    ensures Tailor(text, before + [a, b]) == Tailor(text, before + [b, a])
  {
    assert forall e :: e in before + [b, a] ==> e in before + [a, b];
    SurgeryIsDocumentEditing(text, before + [a, b]);
    SurgeryIsDocumentEditing(text, before + [b, a]);
    var d := EditDocAll(DocOf(text), before);
    EditsCommute(d, a, b);
    LastTwo(DocOf(text), before, a, b);
    LastTwo(DocOf(text), before, b, a);
  }

  lemma LastTwo(d: Doc, before: seq<Edit>, a: Edit, b: Edit)
    ensures EditDocAll(d, before + [a, b]) == EditDoc(EditDoc(EditDocAll(d, before), a), b)
  {
    assert (before + [a, b])[..|before| + 1] == before + [a];
    assert (before + [a])[..|before|] == before;
  }

  // ----- what becomes of each section -----------------------------------------------------------

  /** The block the first edit of that name puts in the section's place; None if there is no such edit. */
  function Fate(es: seq<Edit>, name: string): Option<seq<string>> {
    if es == [] then None
    else if es[0].name == name then Some(BlockOf(es[0]))
    else Fate(es[1..], name)
  }

  lemma {:induction false} FateConcat(a: seq<Edit>, b: seq<Edit>, name: string)
    ensures Fate(a + b, name) == if Fate(a, name).Some? then Fate(a, name) else Fate(b, name)
  {
    if a == [] {
      assert a + b == b;
    } else {
      assert (a + b)[1..] == a[1..] + b;
      FateConcat(a[1..], b, name);
    }
  }

  /** The document with every section settled at once. */
  function Settle(d: Doc, es: seq<Edit>): Doc {
    match d
    case Tail(_) => d
    case Sect(ls, n, body, rest) =>
      match Fate(es, n)
      case None => Sect(ls, n, body, Settle(rest, es))
      case Some(block) => Prepend(ls + block, Settle(rest, es))
  }

  lemma {:induction false} RewriteSettled(d: Doc, es: seq<Edit>, e: Edit)
    ensures Rewrite(Settle(d, es), e.name, BlockOf(e)) == Settle(d, es + [e])
  {
    if d.Sect? {
      RewriteSettled(d.rest, es, e);
      FateConcat(es, [e], d.name);
      if Fate(es, d.name).Some? {
        RewritePrepend(d.lines + Fate(es, d.name).value, Settle(d.rest, es), e.name, BlockOf(e));
      }
    }
  }

  /** A series of edits settles each section on its own: the first edit of its name decides. */
  lemma {:induction false} EditsAreFates(d: Doc, es: seq<Edit>)
    ensures EditDocAll(d, es) == Settle(d, es)
    decreases |es|
  {
    if es == [] {
      NothingToSettle(d);
    } else {
      var init, e := es[..|es| - 1], es[|es| - 1];
      calc {
        EditDocAll(d, es);
        EditDoc(EditDocAll(d, init), e);
        { EditsAreFates(d, init); }
        Rewrite(Settle(d, init), e.name, BlockOf(e));
        { RewriteSettled(d, init, e); }
        Settle(d, init + [e]);
        { assert init + [e] == es; }
        Settle(d, es);
      }
    }
  }

  lemma {:induction false} NothingToSettle(d: Doc)
    ensures Settle(d, []) == d
  {
    if d.Sect? { NothingToSettle(d.rest); }
  }

  /** Whatever the text and the edits, no marker line survives. */
  lemma NoMarkerSurvives(text: string, es: seq<Edit>)
    ensures forall l :: l in Split(Tailor(text, es)) ==> !Marker(l)
  {
    var edited := EditTextAll(text, es);
    var ls := Unmarked(Split(edited));
    SplitIsLines(edited);
    UnmarkedMembers(Split(edited));
    if ls == [] {
      assert Tailor(text, es) == "";
    } else {
      var init, last := ls[..|ls| - 1], ls[|ls| - 1];
      assert ls == init + [last];
      assert forall l :: l in ls ==> OneLine(l);
      CollapseByLines(init, last, 0);
      SplitJoin(SqueezeLines(init, 0) + [last]);
    }
  }
}
