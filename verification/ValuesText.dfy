/** The umbrella's values.yaml as text: which top-level keys it opens, and when none is repeated. */
module ValuesText {
  import opened Prelude
  import opened Text
  import opened Specs
  import opened YamlKeys

  // ----- appending ------------------------------------------------------------------

  /** What appendValues makes of the current text and a block. */
  function Appended(cur: string, block: string): string {
    TrimRight(cur, IsNewline) + "\n\n" + TrimRight(block, IsNewline) + "\n"
  }

  lemma AppendedKeys(cur: string, block: string)
    ensures TopKeys(Appended(cur, block)) == TopKeys(cur) + TopKeys(block)
  {
    var a, b := TrimRight(cur, IsNewline), TrimRight(block, IsNewline);
    assert Appended(cur, block) == a + "\n" + ("\n" + (b + "\n"));
    KeysAcrossNewline(a, "\n" + (b + "\n"));
    LooseNewlines(b + "\n");
    LooseNewlines(b);
    TrimKeepsKeys(cur);
    TrimKeepsKeys(block);
  }

  lemma LooseNewlines(text: string)
    ensures TopKeys("\n" + text) == TopKeys(text) && TopKeys(text + "\n") == TopKeys(text)
  {
    KeysAcrossNewline("", text);
    assert "" + "\n" + text == "\n" + text;
    KeysAcrossNewline(text, "");
    assert text + "\n" + "" == text + "\n";
    assert SplitOn("", '\n') == [""];
  }

  // ----- the generated text, line by line ---------------------------------------------

  /** A generated line: a comment, a line below a key, an empty one, or a key at the margin. */
  datatype Line = Comment(text: string) | Inside(text: string) | Blank | Opens(key: string, tail: string)

  function Shown(l: Line): string {
    match l
    case Comment(t) => "#" + t
    case Inside(t) => "  " + t
    case Blank => ""
    case Opens(k, t) => k + ":" + t
  }

  function ShownAll(ls: seq<Line>): string {
    if ls == [] then "" else Shown(ls[0]) + "\n" + ShownAll(ls[1..])
  }

  /** What stands behind the colon of a key: nothing, or a blank and more. */
  predicate TailOk(tail: string) {
    '\n' !in tail && (tail == "" || IsBlank(tail[0]))
  }

  predicate LineOk(l: Line) {
    match l
    case Comment(t) => '\n' !in t
    case Inside(t) => '\n' !in t
    case Blank => true
    case Opens(k, t) => PlainKey(k) && TailOk(t)
  }

  function Opened(ls: seq<Line>): seq<string> {
    if ls == [] then [] else (if ls[0].Opens? then [ls[0].key] else []) + Opened(ls[1..])
  }

  lemma {:induction false} OpenedConcat(a: seq<Line>, b: seq<Line>)
    ensures Opened(a + b) == Opened(a) + Opened(b)
  {
    if a == [] {
      assert a + b == b;
    } else {
      assert (a + b)[1..] == a[1..] + b;
      OpenedConcat(a[1..], b);
    }
  }

  lemma ShownLine(l: Line)
    requires LineOk(l)
    ensures '\n' !in Shown(l) && TopKey(Shown(l)) == if l.Opens? then [l.key] else []
  {
    match l
    case Opens(k, tail) =>
      OpensKey(k, tail);
      forall i | 0 <= i < |k| ensures k[i] != '\n' { assert InLine(k[i]); }
    case _ => MarginDecides(Shown(l));
  }

  /** The top-level keys of a generated text are those its lines open. */
  lemma {:induction false} ShownKeys(ls: seq<Line>)
    requires forall l :: l in ls ==> LineOk(l)
    ensures TopKeys(ShownAll(ls)) == Opened(ls)
  {
    if ls == [] {
      assert SplitOn("", '\n') == [""];
    } else {
      var l := ls[0];
      assert l in ls;
      ShownLine(l);
      ShownKeys(ls[1..]);
      KeysAcrossNewline(Shown(l), ShownAll(ls[1..]));
      assert SplitOn(Shown(l), '\n') == [Shown(l)];
      assert LineKeys([Shown(l)]) == TopKey(Shown(l)) + LineKeys([]);
    }
  }

  // ----- the blocks chartpress generates -------------------------------------------------

  /** The fixed wording of comments and nested lines is not part of this model. */
  type Prose = seq<Line>

  predicate NoKeys(p: Prose) {
    forall l :: l in p ==> LineOk(l) && !l.Opens?
  }

  lemma {:induction false} ProseOpensNothing(p: Prose)
    requires NoKeys(p)
    ensures Opened(p) == []
  {
    if p != [] { ProseOpensNothing(p[1..]); }
  }

  /** One stanza per subchart. */
  function Stanzas(names: seq<string>, prose: string -> Prose): seq<Line> {
    if names == [] then [] else [Blank, Opens(names[0], "")] + prose(names[0]) + Stanzas(names[1..], prose)
  }

  lemma {:induction false} StanzaKeys(names: seq<string>, prose: string -> Prose)
    requires forall n :: n in names ==> PlainKey(n) && NoKeys(prose(n))
    ensures Opened(Stanzas(names, prose)) == names && forall l :: l in Stanzas(names, prose) ==> LineOk(l)
  {
    if names != [] {
      var n := names[0];
      assert n in names;
      StanzaKeys(names[1..], prose);
      ProseOpensNothing(prose(n));
      OpenedConcat([Blank, Opens(n, "")] + prose(n), Stanzas(names[1..], prose));
      OpenedConcat([Blank, Opens(n, "")], prose(n));
      assert Opened([Blank, Opens(n, "")]) == [n] by { assert [Blank, Opens(n, "")][1..] == [Opens(n, "")]; }
    }
  }

  function NamesOf(scs: seq<Subchart>): (r: seq<string>)
    ensures |r| == |scs| && forall i :: 0 <= i < |scs| ==> r[i] == scs[i].name
  {
    seq(|scs|, i requires 0 <= i < |scs| => scs[i].name)
  }

  /** umbrellaValuesText: a header, the global block, a stanza per subchart. */
  function UmbrellaText(spec: Spec, header: Prose, global: Prose, prose: string -> Prose): string {
    ShownAll(header + [Opens("global", "")] + global + Stanzas(NamesOf(spec.subcharts), prose))
  }

  /** applyDependencies' block: for each key some comment lines and an empty mapping. */
  function DependencyLines(keys: seq<string>, prose: string -> Prose): seq<Line> {
    if keys == [] then [] else prose(keys[0]) + [Opens(keys[0], " {}")] + DependencyLines(keys[1..], prose)
  }

  lemma {:induction false} DependencyKeys(keys: seq<string>, prose: string -> Prose)
    requires forall k :: k in keys ==> PlainKey(k) && NoKeys(prose(k))
    ensures Opened(DependencyLines(keys, prose)) == keys && forall l :: l in DependencyLines(keys, prose) ==> LineOk(l)
  {
    if keys != [] {
      var k := keys[0];
      assert k in keys;
      DependencyKeys(keys[1..], prose);
      ProseOpensNothing(prose(k));
      OpenedConcat(prose(k) + [Opens(k, " {}")], DependencyLines(keys[1..], prose));
      OpenedConcat(prose(k), [Opens(k, " {}")]);
      assert Opened([Opens(k, " {}")]) == [k];
    }
  }

  function DependencyText(spec: Spec, header: Prose, prose: string -> Prose): string {
    ShownAll(header + DependencyLines(spec.dependencies, prose))
  }

  /** The umbrella's values.yaml after BuildChart. */
  function UmbrellaValues(
      spec: Spec, header: Prose, global: Prose, stanza: string -> Prose, depHeader: Prose, depProse: string -> Prose): string {
    var text := UmbrellaText(spec, header, global, stanza);
    if spec.dependencies == [] then text else Appended(text, DependencyText(spec, depHeader, depProse))
  }

  lemma UmbrellaKeys(spec: Spec, header: Prose, global: Prose, prose: string -> Prose)
    requires NoKeys(header) && NoKeys(global)
    requires forall n :: n in NamesOf(spec.subcharts) ==> PlainKey(n) && NoKeys(prose(n))
    ensures TopKeys(UmbrellaText(spec, header, global, prose)) == ["global"] + NamesOf(spec.subcharts)
  {
    var names := NamesOf(spec.subcharts);
    WordIsPlain("global");
    var stanzas := Stanzas(names, prose);
    StanzaKeys(names, prose);
    ProseOpensNothing(header);
    ProseOpensNothing(global);
    OpenedAll(header, Opens("global", ""), global, stanzas);
    ShownKeys(header + [Opens("global", "")] + global + stanzas);
  }

  lemma OpenedAll(a: seq<Line>, l: Line, b: seq<Line>, c: seq<Line>)
    requires Opened(a) == [] && Opened(b) == [] && l.Opens?
    ensures Opened(a + [l] + b + c) == [l.key] + Opened(c)
  {
    OpenedConcat(a + [l] + b, c);
    OpenedConcat(a + [l], b);
    OpenedConcat(a, [l]);
    assert Opened([l]) == [l.key];
  }

  /** A chart name is a plain key unless it is too long for one. */
  lemma NameIsPlainIff(n: string)
    requires ValidName(n)
    ensures PlainKey(n) <==> |n| <= MAX_KEY
  {
    forall i | 0 <= i < |n| ensures InLine(n[i]) && !IsBlank(n[i]) && n[i] != ':' {
      assert n[i] in n;
    }
  }

  /** The wording under each name: subcharts are names, dependencies anything a user wrote. */
  predicate Worded(spec: Spec, stanza: string -> Prose, depProse: string -> Prose) {
    && (forall n :: n in NamesOf(spec.subcharts) ==> NoKeys(stanza(n)))
    && (forall k :: k in spec.dependencies && PlainKey(k) ==> NoKeys(depProse(k)))
  }

  /** Every key the umbrella is to open is a plain one. */
  predicate AllPlain(spec: Spec) {
    forall k :: k in NamesOf(spec.subcharts) + spec.dependencies ==> PlainKey(k)
  }

  /**
    The finished umbrella values open global, the subcharts and the dependencies,
    in that order, exactly if all of them are plain keys. The engine accepts other
    dependencies, and names of any length; those come out as something else.
  */
  lemma FinishedKeys(
      spec: Spec, header: Prose, global: Prose, stanza: string -> Prose, depHeader: Prose, depProse: string -> Prose)
    requires Valid(spec) && Worded(spec, stanza, depProse) && NoKeys(header) && NoKeys(global) && NoKeys(depHeader)
    ensures TopKeys(UmbrellaValues(spec, header, global, stanza, depHeader, depProse))
            == ["global"] + NamesOf(spec.subcharts) + spec.dependencies
            <==> AllPlain(spec)
  {
    var text, names := UmbrellaValues(spec, header, global, stanza, depHeader, depProse), NamesOf(spec.subcharts);
    LineKeysArePlain(SplitOn(text, '\n'));
    if k :| k in names + spec.dependencies && !PlainKey(k) {
      assert k in ["global"] + names + spec.dependencies;
    } else {
      forall k | k in names || k in spec.dependencies ensures PlainKey(k) { assert k in names + spec.dependencies; }
      UmbrellaKeys(spec, header, global, stanza);
      if spec.dependencies != [] {
        DependencyTextKeys(spec, depHeader, depProse);
        AppendedKeys(UmbrellaText(spec, header, global, stanza), DependencyText(spec, depHeader, depProse));
      }
    }
  }

  /** An accepted spec stays accepted with this dependency, which no normalization changes and no YAML key is. */
  lemma ListItemIsAccepted(spec: Spec)
    requires Valid(spec)
    ensures var k := "- x";
            Valid(spec.(dependencies := [k])) && Sanitize(k) == k && !AllPlain(spec.(dependencies := [k]))
  {
    var k := "- x";
    assert k[0] == '-' && IsBlank(k[1]);
    assert k in NamesOf(spec.subcharts) + [k];
    assert Sanitize(k) == k by {
      assert TrimSpace(k) == k;
      assert Lower("x") == "x" && Lower(" x") == " x";
    }
  }

  lemma DependencyTextKeys(spec: Spec, header: Prose, prose: string -> Prose)
    requires NoKeys(header) && forall k :: k in spec.dependencies ==> PlainKey(k) && NoKeys(prose(k))
    ensures TopKeys(DependencyText(spec, header, prose)) == spec.dependencies
  {
    var lines := DependencyLines(spec.dependencies, prose);
    DependencyKeys(spec.dependencies, prose);
    ProseOpensNothing(header);
    OpenedConcat(header, lines);
    ShownKeys(header + lines);
  }

  lemma DistinctConcatIff<T>(a: seq<T>, b: seq<T>)
    requires Distinct(a)
    ensures Distinct(a + b) <==> Distinct(b) && forall x :: x in b ==> x !in a
  {
    var s := a + b;
    if Distinct(s) {
      forall i, j | 0 <= i < j < |b| ensures b[i] != b[j] { assert s[|a| + i] == b[i] && s[|a| + j] == b[j]; }
      forall i, j | 0 <= i < |a| && 0 <= j < |b| ensures a[i] != b[j] { assert s[i] == a[i] && s[|a| + j] == b[j]; }
    }
    if Distinct(b) && forall x :: x in b ==> x !in a {
      forall i, j | 0 <= i < j < |s| ensures s[i] != s[j] {
        if i < |a| <= j { assert s[j] in b && s[i] in a; }
      }
    }
  }

  /** No key is repeated exactly if the dependencies are distinct and clash with neither a subchart nor "global". */
  lemma KeysAreDistinctIff(spec: Spec)
    requires Valid(spec)
    ensures Distinct(["global"] + NamesOf(spec.subcharts) + spec.dependencies) <==>
              && Distinct(spec.dependencies) && "global" !in spec.dependencies
              && forall sc :: sc in spec.subcharts ==> sc.name !in spec.dependencies
  {
    var names, deps := NamesOf(spec.subcharts), spec.dependencies;
    FrontIsDistinct(spec);
    DistinctConcatIff(["global"] + names, deps);
    forall x ensures x in ["global"] + names <==> x == "global" || exists sc :: sc in spec.subcharts && sc.name == x {
      if x in names {
        var i :| 0 <= i < |names| && names[i] == x;
        assert spec.subcharts[i] in spec.subcharts;
      }
      if sc :| sc in spec.subcharts && sc.name == x {
        var i :| 0 <= i < |spec.subcharts| && spec.subcharts[i] == sc;
        assert names[i] == x;
      }
    }
  }

  /** In the finished umbrella values no key is repeated, exactly if the dependencies clash with nothing. */
  lemma UmbrellaKeysAreDistinctIff(
      spec: Spec, header: Prose, global: Prose, stanza: string -> Prose, depHeader: Prose, depProse: string -> Prose)
    requires Valid(spec) && Worded(spec, stanza, depProse) && NoKeys(header) && NoKeys(global) && NoKeys(depHeader)
    requires AllPlain(spec)
    ensures Distinct(TopKeys(UmbrellaValues(spec, header, global, stanza, depHeader, depProse))) <==>
              && Distinct(spec.dependencies) && "global" !in spec.dependencies
              && forall sc :: sc in spec.subcharts ==> sc.name !in spec.dependencies
  {
    FinishedKeys(spec, header, global, stanza, depHeader, depProse);
    KeysAreDistinctIff(spec);
  }

  lemma FrontIsDistinct(spec: Spec)
    requires Valid(spec)
    ensures Distinct(["global"] + NamesOf(spec.subcharts))
  {
    var scs, controller := spec.subcharts, ControllerOf(spec.rules.ingress).value;
    forall i | 0 <= i < |scs| ensures scs[i].name != "global" && forall j :: 0 <= j < i ==> scs[j].name != scs[i].name {
      assert ValidAt(scs, i, controller);
    }
  }
}
