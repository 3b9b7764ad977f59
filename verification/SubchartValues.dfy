/**
  A subchart's values.yaml from the template to the finished file: sections
  tailored, pattern extras and the generated block appended. Whatever the traits
  and the rules, no top-level key is repeated, and which keys there are is known.
*/
module SubchartValues {
  import opened Prelude
  import opened Text
  import opened BlankRuns
  import opened Sections
  import opened Traits
  import opened YamlKeys
  import opened ValuesText
  import opened Subcharts
  import Specs

  // ----- keys of tailored text ---------------------------------------------------------

  lemma {:induction false} BlankLinesOpenNothing(ls: seq<string>, k: nat)
    ensures LineKeys(SqueezeLines(ls, k)) == LineKeys(ls)
  {
    if ls != [] {
      var l, rest := ls[0], SqueezeLines(ls[1..], if ls[0] != "" then 1 else if k < 2 then k + 1 else k);
      BlankLinesOpenNothing(ls[1..], if l != "" then 1 else if k < 2 then k + 1 else k);
      if l != "" || k < 2 {
        assert SqueezeLines(ls, k) == [l] + rest;
        LineKeysConcat([l], rest);
      }
      assert TopKey("") == [];
    }
  }

  /** The keys of a collapsed text are those of its lines. */
  lemma CollapsedKeys(ls: seq<string>, last: string)
    requires Lines(ls) && OneLine(last)
    ensures TopKeys(Squeeze(Join(ls + [last]), 0)) == LineKeys(ls) + TopKey(last)
  {
    var kept := SqueezeLines(ls, 0);
    CollapseByLines(ls, last, 0);
    assert Lines(kept + [last]);
    SplitJoin(kept + [last]);
    LineKeysConcat(kept, [last]);
    BlankLinesOpenNothing(ls, 0);
    assert LineKeys([last]) == TopKey(last) + LineKeys([]);
  }

  /** The keys outside the sections, and in each section those of what its fate leaves there. */
  function SettledKeys(d: Doc, es: seq<Edit>): seq<string> {
    match d
    case Tail(ls) => LineKeys(ls)
    case Sect(ls, n, body, rest) =>
      LineKeys(ls)
      + LineKeys(match Fate(es, n) case None => body case Some(block) => block)
      + SettledKeys(rest, es)
  }

  lemma {:induction false} SettledKeysArePrinted(d: Doc, es: seq<Edit>)
    ensures LineKeys(PrintPlain(Settle(d, es))) == SettledKeys(d, es)
  {
    if d.Sect? {
      var s := Settle(d.rest, es);
      var content := match Fate(es, d.name) case None => d.body case Some(block) => block;
      SettledKeysArePrinted(d.rest, es);
      match Fate(es, d.name)
      case None => LineKeysThrice(d.lines, content, PrintPlain(s));
      case Some(block) =>
        PrintPrepend(d.lines + block, s);
        LineKeysThrice(d.lines, content, PrintPlain(s));
    }
  }

  lemma LineKeysThrice(a: seq<string>, b: seq<string>, c: seq<string>)
    ensures LineKeys(a + b + c) == LineKeys(a) + LineKeys(b) + LineKeys(c)
  {
    LineKeysConcat(a + b, c);
    LineKeysConcat(a, b);
  }

  /** Markers, blank runs and the order of the edits make no difference to the keys of the tailored text. */
  lemma TailoredKeys(text: string, es: seq<Edit>)
    requires Sectioned(text) && PlainBlocks(es)
    ensures TopKeys(Tailor(text, es)) == SettledKeys(DocOf(text), es) + TopKey(LastLine(text))
  {
    SurgeryIsDocumentEditing(text, es);
    EditsAreFates(DocOf(text), es);
    EditedWellFormed(DocOf(text), es, text);
    PrintIsLines(Settle(DocOf(text), es));
    SplitIsLines(text);
    assert LastLine(text) in Split(text);
    CollapsedKeys(PrintPlain(Settle(DocOf(text), es)), LastLine(text));
    SettledKeysArePrinted(DocOf(text), es);
  }

  // ----- generated lines as lines of text ------------------------------------------------

  function ShowLines(ls: seq<Line>): (r: seq<string>)
    ensures |r| == |ls| && forall i :: 0 <= i < |ls| ==> r[i] == Shown(ls[i])
  {
    seq(|ls|, i requires 0 <= i < |ls| => Shown(ls[i]))
  }

  /** Lines a generator may write: no key is malformed, no comment looks like a section marker. */
  predicate Proper(ls: seq<Line>) {
    forall l :: l in ls ==> LineOk(l) && (l.Comment? ==> !Marker(Shown(l)))
  }

  lemma ShownIsOrdinary(ls: seq<Line>)
    requires Proper(ls)
    ensures Ordinary(ShowLines(ls))
  {
    forall l | l in ShowLines(ls) ensures OneLine(l) && !Marker(l) {
      var i :| 0 <= i < |ls| && ShowLines(ls)[i] == l;
      assert ls[i] in ls;
      ShownLine(ls[i]);
      assert l == "" || l[0] != '#' || ls[i].Comment?;
      assert START[0] == '#' && END[0] == '#';
    }
  }

  lemma {:induction false} ShownAllIsJoined(ls: seq<Line>)
    ensures ShownAll(ls) == Join(ShowLines(ls) + [""])
  {
    if ls == [] {
      assert ShowLines(ls) + [""] == [""];
    } else {
      var rest := ShowLines(ls[1..]) + [""];
      ShownAllIsJoined(ls[1..]);
      JoinFirst(Shown(ls[0]), rest);
      assert ShowLines(ls) + [""] == [Shown(ls[0])] + rest;
    }
  }

  lemma SplitShown(ls: seq<Line>)
    requires Proper(ls)
    ensures Split(ShownAll(ls)) == ShowLines(ls) + [""]
  {
    ShownAllIsJoined(ls);
    ShownIsOrdinary(ls);
    SplitJoin(ShowLines(ls) + [""]);
  }

  lemma {:induction false} TrimmedLines(text: string)
    ensures forall l :: l in Split(TrimRight(text, IsNewline)) ==> l in Split(text)
  {
    if text != "" && IsNewline(text[|text| - 1]) {
      var rest := text[..|text| - 1];
      TrimmedLines(rest);
      assert text == rest + ['\n'] + "";
      SplitAt(rest, '\n', "");
    }
  }

  lemma LinesOpen(ls: seq<Line>)
    requires Proper(ls)
    ensures LineKeys(ShowLines(ls)) == Opened(ls)
  {
    ShownKeys(ls);
    SplitShown(ls);
    LineKeysConcat(ShowLines(ls), [""]);
    assert LineKeys([""]) == [];
  }

  // ----- what the template and the blocks open --------------------------------------------

  /** The wording of comments and nested lines, slot by slot; it is not part of this model. */
  datatype Words = Words(
    template: nat -> Prose, inside: (string, nat) -> Prose, block: (Block, nat) -> Prose, extra: (PatternId, nat) -> Prose,
    wiring: Prose, envFrom: Prose, env: Prose, kind: Prose)

  /** Nothing but comments and nested lines, none of them a section marker. */
  predicate Plain(p: Prose) {
    NoKeys(p) && Proper(p)
  }

  ghost predicate Worded(w: Words) {
    && (forall k :: Plain(w.template(k))) && (forall s, k :: Plain(w.inside(s, k)))
    && (forall b, k :: Plain(w.block(b, k))) && (forall p, k :: Plain(w.extra(p, k)))
    && Plain(w.wiring) && Plain(w.envFrom) && Plain(w.env) && Plain(w.kind)
    && forall b :: Literal(ShownAll(BlockText(b, w)))
  }

  /** The blocks that replace sections. */
  function BlockText(b: Block, w: Words): seq<Line> {
    match b
    case ServiceBlock(_, _) => [Opens("service", "")] + w.block(b, 0)
    case GrpcProbes => ProbeLines(b, w)
    case TcpProbes => ProbeLines(b, w)
    case WorkerProbes => w.block(b, 0)
    case FixedPodCount(_) => [Opens("podCount", "")] + w.block(b, 0)
    case SingletonPodCount(workload) =>
      if workload != Deployment then [Opens("podCount", "")] + w.block(b, 0)
      else [Opens("podCount", "")] + w.block(b, 0) + [Opens("strategy", "")] + w.block(b, 1)
  }

  function ProbeLines(b: Block, w: Words): seq<Line> {
    w.block(b, 0) + [Opens("livenessProbe", "")] + w.block(b, 1) + [Opens("readinessProbe", "")] + w.block(b, 2)
  }

  function BlockKeys(b: Block): seq<string> {
    match b
    case ServiceBlock(_, _) => ["service"]
    case GrpcProbes => ["livenessProbe", "readinessProbe"]
    case TcpProbes => ["livenessProbe", "readinessProbe"]
    case WorkerProbes => []
    case FixedPodCount(_) => ["podCount"]
    case SingletonPodCount(workload) => if workload == Deployment then ["podCount", "strategy"] else ["podCount"]
  }

  function WordingOf(w: Words): Wording {
    b => ShownAll(BlockText(b, w))
  }

  lemma PlainOpens(before: seq<Line>, k: string, tail: string, after: Prose)
    requires Proper(before) && Word(k) && TailOk(tail) && Plain(after)
    ensures Proper(before + [Opens(k, tail)] + after)
    ensures Opened(before + [Opens(k, tail)] + after) == Opened(before) + [k]
  {
    var l := Opens(k, tail);
    WordIsPlain(k);
    ProseOpensNothing(after);
    OpenedConcat(before + [l], after);
    OpenedConcat(before, [l]);
    assert Opened([l]) == [k];
    assert Opened(before) + [k] + [] == Opened(before) + [k];
  }

  lemma KeyFirst(k: string, tail: string, after: Prose)
    requires Word(k) && TailOk(tail) && Plain(after)
    ensures Proper([Opens(k, tail)] + after) && Opened([Opens(k, tail)] + after) == [k]
  {
    PlainOpens([], k, tail, after);
    assert [] + [Opens(k, tail)] + after == [Opens(k, tail)] + after;
  }

  lemma KeyLast(before: Prose, k: string, tail: string, after: Prose)
    requires Plain(before) && Word(k) && TailOk(tail) && Plain(after)
    ensures Proper(before + [Opens(k, tail)] + after) && Opened(before + [Opens(k, tail)] + after) == [k]
  {
    ProseOpensNothing(before);
    PlainOpens(before, k, tail, after);
  }

  lemma TwoKeys(a: Prose, k: string, x: string, b: Prose, l: string, y: string, c: Prose)
    requires Plain(a) && Word(k) && TailOk(x) && Plain(b) && Word(l) && TailOk(y) && Plain(c)
    ensures var ls := a + [Opens(k, x)] + b + [Opens(l, y)] + c; Proper(ls) && Opened(ls) == [k, l]
  {
    KeyLast(a, k, x, b);
    PlainOpens(a + [Opens(k, x)] + b, l, y, c);
  }

  lemma ProbesOpen(b: Block, w: Words)
    requires Worded(w)
    ensures Proper(ProbeLines(b, w)) && Opened(ProbeLines(b, w)) == ["livenessProbe", "readinessProbe"]
  {
    TwoKeys(w.block(b, 0), "livenessProbe", "", w.block(b, 1), "readinessProbe", "", w.block(b, 2));
  }

  lemma BlockOpens(b: Block, w: Words)
    requires Worded(w)
    ensures Proper(BlockText(b, w)) && Opened(BlockText(b, w)) == BlockKeys(b)
  {
    match b
    case ServiceBlock(_, _) => KeyFirst("service", "", w.block(b, 0));
    case GrpcProbes => ProbesOpen(b, w);
    case TcpProbes => ProbesOpen(b, w);
    case WorkerProbes => ProseOpensNothing(w.block(b, 0));
    case FixedPodCount(_) => KeyFirst("podCount", "", w.block(b, 0));
    case SingletonPodCount(workload) =>
      if workload == Deployment { SingletonOpens(w); } else { KeyFirst("podCount", "", w.block(b, 0)); }
  }

  lemma SingletonOpens(w: Words)
    requires Worded(w)
    ensures var b := SingletonPodCount(Deployment); Proper(BlockText(b, w)) && Opened(BlockText(b, w)) == BlockKeys(b)
  {
    var b := SingletonPodCount(Deployment);
    TwoKeys([], "podCount", "", w.block(b, 0), "strategy", "", w.block(b, 1));
    assert [] + [Opens("podCount", "")] == [Opens("podCount", "")];
  }

  lemma TrimmedShown(ls: seq<Line>)
    requires Proper(ls)
    ensures var kept := Split(TrimRight(ShownAll(ls), IsNewline)); LineKeys(kept) == Opened(ls) && Ordinary(kept)
  {
    var text := ShownAll(ls);
    ShownKeys(ls);
    TrimKeepsKeys(text);
    TrimmedLines(text);
    SplitShown(ls);
    ShownIsOrdinary(ls);
    SplitIsLines(TrimRight(text, IsNewline));
    assert OneLine("") && !Marker("");
  }

  /** The block as it goes into the text opens its keys and holds no marker. */
  lemma BlockLinesOpen(b: Block, w: Words)
    requires Worded(w)
    ensures LineKeys(BlockLines(WordingOf(w), b)) == BlockKeys(b) && Ordinary(BlockLines(WordingOf(w), b))
  {
    BlockOpens(b, w);
    TrimmedShown(BlockText(b, w));
  }

  // ----- the template ---------------------------------------------------------------------

  const SECTIONS := ["service", "podCount", "probes", "ingress", "pdb", "networkPolicy"]

  /** The keys a section of the template opens. */
  function SectionKeys(section: string): seq<string> {
    if section == "probes" then ["livenessProbe", "readinessProbe"] else [section]
  }

  function SectionLines(section: string, w: Words): seq<Line> {
    if section == "probes" then
      w.inside(section, 0) + [Opens("livenessProbe", "")] + w.inside(section, 1)
      + [Opens("readinessProbe", "")] + w.inside(section, 2)
    else [Opens(section, "")] + w.inside(section, 0)
  }

  /** The keys outside the sections: in front of the first, of the third, and behind the last. */
  function LooseKeys(i: nat): seq<string> {
    if i == 0 then ["global", "image"] else if i == 2 then ["resources"]
    else if i == 6 then ["volumes", "troubleshootingContainer"] else []
  }

  function LooseLines(i: nat, w: Words): seq<Line> {
    if i == 0 then
      w.template(0) + [Opens("global", "")] + w.template(1) + [Opens("image", "")] + w.template(2)
    else if i == 2 then w.template(3) + [Opens("resources", "")] + w.template(4)
    else if i == 6 then
      w.template(5) + [Opens("volumes", " []")] + w.template(6)
      + [Opens("troubleshootingContainer", " false")] + w.template(7)
    else w.template(8 + i)
  }

  /** templates/subchart/values.yaml from its i-th section on. */
  function TemplateDoc(i: nat, w: Words): Doc
    requires i <= |SECTIONS|
    decreases |SECTIONS| - i, w
  {
    if i == |SECTIONS| then Tail(ShowLines(LooseLines(i, w)))
    else Sect(ShowLines(LooseLines(i, w)), SECTIONS[i], ShowLines(SectionLines(SECTIONS[i], w)), TemplateDoc(i + 1, w))
  }

  function TemplateText(w: Words): string {
    Join(Print(TemplateDoc(0, w)) + [""])
  }

  lemma SectionOpens(section: string, w: Words)
    requires Worded(w) && Word(section)
    ensures Proper(SectionLines(section, w)) && Opened(SectionLines(section, w)) == SectionKeys(section)
  {
    if section == "probes" {
      TwoKeys(w.inside(section, 0), "livenessProbe", "", w.inside(section, 1), "readinessProbe", "", w.inside(section, 2));
    } else {
      KeyFirst(section, "", w.inside(section, 0));
    }
  }

  lemma LooseOpens(i: nat, w: Words)
    requires Worded(w)
    ensures Proper(LooseLines(i, w)) && Opened(LooseLines(i, w)) == LooseKeys(i)
  {
    if i == 0 {
      TwoKeys(w.template(0), "global", "", w.template(1), "image", "", w.template(2));
    } else if i == 2 {
      KeyLast(w.template(3), "resources", "", w.template(4));
    } else if i == 6 {
      TwoKeys(w.template(5), "volumes", " []", w.template(6), "troubleshootingContainer", " false", w.template(7));
    } else {
      ProseOpensNothing(w.template(8 + i));
    }
  }

  lemma SectionNames(i: nat)
    requires i < |SECTIONS|
    ensures Word(SECTIONS[i])
  {
    assert Word("service") && Word("podCount") && Word("probes");
    assert Word("ingress") && Word("pdb") && Word("networkPolicy");
  }

  lemma LooseIsOrdinary(i: nat, w: Words)
    requires Worded(w)
    ensures Ordinary(ShowLines(LooseLines(i, w)))
  {
    LooseOpens(i, w);
    ShownIsOrdinary(LooseLines(i, w));
  }

  lemma SectionIsOrdinary(i: nat, w: Words)
    requires Worded(w) && i < |SECTIONS|
    ensures OneLine(SECTIONS[i]) && Ordinary(ShowLines(SectionLines(SECTIONS[i], w)))
  {
    SectionNames(i);
    SectionOpens(SECTIONS[i], w);
    ShownIsOrdinary(SectionLines(SECTIONS[i], w));
  }

  lemma {:induction false} TemplateIsWellFormed(i: nat, w: Words)
    requires Worded(w) && i <= |SECTIONS|
    ensures WellFormed(TemplateDoc(i, w))
    decreases |SECTIONS| - i
  {
    LooseIsOrdinary(i, w);
    if i < |SECTIONS| {
      SectionIsOrdinary(i, w);
      TemplateIsWellFormed(i + 1, w);
    }
  }

  lemma DocTextIsSectioned(d: Doc)
    requires WellFormed(d) && d.lines != []
    ensures var text := Join(Print(d) + [""]); Sectioned(text) && DocOf(text) == d && LastLine(text) == ""
  {
    var all := Print(d) + [""];
    PrintIsLines(d);
    SplitJoin(all);
    ParsePrint(d);
    assert all[..|all| - 1] == Print(d);
    assert Print(d)[0] == d.lines[0] && d.lines[0] in d.lines;
    assert !Marker("");
  }

  /** The template's sections are closed and unnested, so all of the section surgery applies to it. */
  lemma TemplateIsSectioned(w: Words)
    requires Worded(w)
    ensures Sectioned(TemplateText(w)) && DocOf(TemplateText(w)) == TemplateDoc(0, w) && LastLine(TemplateText(w)) == ""
  {
    TemplateIsWellFormed(0, w);
    assert LooseLines(0, w) != [];
    DocTextIsSectioned(TemplateDoc(0, w));
  }

  // ----- the finished file -------------------------------------------------------------------

  lemma EditsArePlain(t: Resolved, w: Words)
    requires Worded(w)
    ensures PlainBlocks(TraitEdits(t, WordingOf(w)))
  {
    forall e | e in TraitEdits(t, WordingOf(w)) ensures Ordinary(BlockOf(e)) && (e.Replace? ==> Literal(e.block)) {
      if e.Replace? {
        var b := EditedBlock(t, WordingOf(w), e);
        BlockLinesOpen(b, w);
        assert e.block == ShownAll(BlockText(b, w));
      }
    }
  }

  lemma EditedBlock(t: Resolved, w: Wording, e: Edit) returns (b: Block)
    requires e in TraitEdits(t, w) && e.Replace?
    ensures e.block == w(b) && BlockOf(e) == BlockLines(w, b)
  {
    TraitEditsAre(t, w);
    if e in ExposureEdits(t, w) {
      b := if e.name == "service" then ServiceBlock(t.port, t.exposure) else Replacement(t, "probes").value;
    } else {
      b := Replacement(t, "podCount").value;
    }
  }

  /** The keys that are left where a section stood. */
  function KeysInPlace(t: Resolved, section: string): seq<string> {
    if Unread(t, section) then []
    else match Replacement(t, section) case None => SectionKeys(section) case Some(b) => BlockKeys(b)
  }

  /** The keys of the tailored template from its i-th section on. */
  function TailoredFrom(i: nat, t: Resolved): seq<string>
    requires i <= |SECTIONS|
    decreases |SECTIONS| - i, t
  {
    if i == |SECTIONS| then LooseKeys(i)
    else LooseKeys(i) + KeysInPlace(t, SECTIONS[i]) + TailoredFrom(i + 1, t)
  }

  lemma InPlace(t: Resolved, section: string, w: Words)
    requires Worded(w) && Word(section)
    ensures var body := ShowLines(SectionLines(section, w));
            LineKeys(match Fate(TraitEdits(t, WordingOf(w)), section) case None => body case Some(block) => block)
            == KeysInPlace(t, section)
  {
    TraitFate(t, WordingOf(w), section);
    SectionOpens(section, w);
    LinesOpen(SectionLines(section, w));
    if !Unread(t, section) && Replacement(t, section).Some? { BlockLinesOpen(Replacement(t, section).value, w); }
  }

  lemma PartKeys(i: nat, t: Resolved, w: Words)
    requires Worded(w) && i < |SECTIONS|
    ensures SettledKeys(TemplateDoc(i, w), TraitEdits(t, WordingOf(w)))
         == LooseKeys(i) + KeysInPlace(t, SECTIONS[i]) + SettledKeys(TemplateDoc(i + 1, w), TraitEdits(t, WordingOf(w)))
  {
    var name, es := SECTIONS[i], TraitEdits(t, WordingOf(w));
    var ls, body, rest := ShowLines(LooseLines(i, w)), ShowLines(SectionLines(name, w)), TemplateDoc(i + 1, w);
    LooseOpens(i, w);
    LinesOpen(LooseLines(i, w));
    SectionNames(i);
    InPlace(t, name, w);
    assert TemplateDoc(i, w) == Sect(ls, name, body, rest);
    SettledSection(ls, name, body, rest, es);
  }

  lemma SettledSection(ls: seq<string>, name: string, body: seq<string>, rest: Doc, es: seq<Edit>)
    ensures SettledKeys(Sect(ls, name, body, rest), es) ==
            LineKeys(ls) + LineKeys(match Fate(es, name) case None => body case Some(block) => block) + SettledKeys(rest, es)
  {
  }

  lemma {:induction false} TemplateKeys(i: nat, t: Resolved, w: Words)
    requires Worded(w) && i <= |SECTIONS|
    ensures SettledKeys(TemplateDoc(i, w), TraitEdits(t, WordingOf(w))) == TailoredFrom(i, t)
    decreases |SECTIONS| - i
  {
    if i < |SECTIONS| {
      PartKeys(i, t, w);
      TemplateKeys(i + 1, t, w);
    } else {
      LooseOpens(i, w);
      LinesOpen(LooseLines(i, w));
    }
  }

  /** applyPatternExtras */
  function ExtraLines(p: PatternId, w: Words): seq<Line> {
    match p
    case MlInference => w.extra(p, 0) + [Opens("startupProbe", "")] + w.extra(p, 1)
    case RealtimeGateway => w.extra(p, 0)
    case _ => []
  }

  function WithExtras(text: string, p: PatternId, w: Words): string {
    if p == MlInference || p == RealtimeGateway then Appended(text, ShownAll(ExtraLines(p, w))) else text
  }

  /** The extras of the two patterns that have some stand behind the text, one blank line between; no other pattern adds any. */
  lemma ExtrasStandBehind(text: string, p: PatternId, w: Words)
    ensures WithExtras(text, p, w) ==
              if p in {MlInference, RealtimeGateway}
              then TrimRight(text, IsNewline) + "\n\n" + TrimRight(ShownAll(ExtraLines(p, w)), IsNewline) + "\n"
              else text
  {
  }

  function ExtraKeys(p: PatternId): seq<string> {
    if p == MlInference then ["startupProbe"] else []
  }

  lemma ExtrasOpen(p: PatternId, w: Words)
    requires Worded(w)
    ensures TopKeys(ShownAll(ExtraLines(p, w))) == ExtraKeys(p)
  {
    ProseOpensNothing(w.extra(p, 0));
    KeyLast(w.extra(p, 0), "startupProbe", "", w.extra(p, 1));
    ShownKeys(ExtraLines(p, w));
  }

  /** The keys generatedSubchartValues opens. */
  function GeneratedKeys(t: Resolved, rules: Specs.Rules): seq<string> {
    (if t.sharedEnv && (rules.sharedSecrets || rules.sharedNewrelic) then ["envFrom"] else [])
    + (if t.sharedEnv && rules.sharedNewrelic then ["env"] else [])
    + (if t.workload == StatefulSet then ["workloadKind"] else [])
  }

  function EnvFromLines(t: Resolved, rules: Specs.Rules, w: Words): seq<Line> {
    if t.sharedEnv && (rules.sharedSecrets || rules.sharedNewrelic) then w.wiring + [Opens("envFrom", "")] + w.envFrom else []
  }

  function EnvLines(t: Resolved, rules: Specs.Rules, w: Words): seq<Line> {
    if t.sharedEnv && rules.sharedNewrelic then [Opens("env", "")] + w.env else []
  }

  function KindLines(t: Resolved, w: Words): seq<Line> {
    if t.workload == StatefulSet then w.kind + [Opens("workloadKind", " StatefulSet")] else []
  }

  /** generatedSubchartValues: each key with its wording, if the traits and rules call for it. */
  function GeneratedLines(t: Resolved, rules: Specs.Rules, w: Words): seq<Line> {
    EnvFromLines(t, rules, w) + EnvLines(t, rules, w) + KindLines(t, w)
  }

  lemma EnvOpens(t: Resolved, rules: Specs.Rules, w: Words)
    requires Worded(w)
    ensures Proper(EnvFromLines(t, rules, w)) && Proper(EnvLines(t, rules, w))
    ensures Opened(EnvFromLines(t, rules, w)) + Opened(EnvLines(t, rules, w)) ==
              (if t.sharedEnv && (rules.sharedSecrets || rules.sharedNewrelic) then ["envFrom"] else [])
              + (if t.sharedEnv && rules.sharedNewrelic then ["env"] else [])
  {
    KeyLast(w.wiring, "envFrom", "", w.envFrom);
    KeyFirst("env", "", w.env);
  }

  lemma KindOpens(t: Resolved, w: Words)
    requires Worded(w)
    ensures Proper(KindLines(t, w)) && Opened(KindLines(t, w)) == if t.workload == StatefulSet then ["workloadKind"] else []
  {
    KeyLast(w.kind, "workloadKind", " StatefulSet", []);
    assert w.kind + [Opens("workloadKind", " StatefulSet")] + [] == w.kind + [Opens("workloadKind", " StatefulSet")];
  }

  lemma ThreeParts(a: seq<Line>, b: seq<Line>, c: seq<Line>)
    requires Proper(a) && Proper(b) && Proper(c)
    ensures TopKeys(ShownAll(a + b + c)) == Opened(a) + Opened(b) + Opened(c)
  {
    OpenedConcat(a + b, c);
    OpenedConcat(a, b);
    ShownKeys(a + b + c);
  }

  /** The block opens envFrom, env and workloadKind exactly when each is called for. */
  lemma GeneratedTextKeys(t: Resolved, rules: Specs.Rules, w: Words)
    requires Worded(w)
    ensures TopKeys(ShownAll(GeneratedLines(t, rules, w))) == GeneratedKeys(t, rules)
  {
    EnvOpens(t, rules, w);
    KindOpens(t, w);
    ThreeParts(EnvFromLines(t, rules, w), EnvLines(t, rules, w), KindLines(t, w));
  }

  /** applyTraits' own part of the values text. */
  function Tailored(text: string, t: Resolved, w: Words): string {
    Tailor(text, TraitEdits(t, WordingOf(w)))
  }

  /** The values text buildSubchart leaves, from the text it hands to applyTraits. */
  function FinishedText(text: string, t: Resolved, rules: Specs.Rules, w: Words): string {
    var tailored := WithExtras(Tailored(text, t, w), t.pattern, w);
    var block := ShownAll(GeneratedLines(t, rules, w));
    if block == "" then tailored else Appended(tailored, block)
  }

  lemma TailoredTextKeys(text: string, t: Resolved, w: Words)
    requires Worded(w) && Sectioned(text)
    ensures TopKeys(Tailored(text, t, w)) == SettledKeys(DocOf(text), TraitEdits(t, WordingOf(w))) + TopKey(LastLine(text))
  {
    EditsArePlain(t, w);
    TailoredKeys(text, TraitEdits(t, WordingOf(w)));
  }

  lemma WithExtrasKeys(text: string, p: PatternId, w: Words)
    requires Worded(w)
    ensures TopKeys(WithExtras(text, p, w)) == TopKeys(text) + ExtraKeys(p)
  {
    ExtrasOpen(p, w);
    AppendedKeys(text, ShownAll(ExtraLines(p, w)));
  }

  lemma AppendedOrNot(text: string, block: string)
    ensures TopKeys(if block == "" then text else Appended(text, block)) == TopKeys(text) + TopKeys(block)
  {
    AppendedKeys(text, block);
    assert SplitOn("", '\n') == [""];
  }

  /** Whatever text applyTraits starts from, what follows it adds the keys of its own blocks and no others. */
  lemma FinishedTextKeys(text: string, t: Resolved, rules: Specs.Rules, w: Words)
    requires Worded(w)
    ensures TopKeys(FinishedText(text, t, rules, w)) ==
              TopKeys(Tailored(text, t, w)) + ExtraKeys(t.pattern) + GeneratedKeys(t, rules)
  {
    var tailored := Tailored(text, t, w);
    WithExtrasKeys(tailored, t.pattern, w);
    GeneratedTextKeys(t, rules, w);
    AppendedOrNot(WithExtras(tailored, t.pattern, w), ShownAll(GeneratedLines(t, rules, w)));
  }

  lemma TailoredDocKeys(text: string, d: Doc, t: Resolved, w: Words)
    requires Worded(w) && Sectioned(text) && DocOf(text) == d && LastLine(text) == ""
    ensures TopKeys(Tailored(text, t, w)) == SettledKeys(d, TraitEdits(t, WordingOf(w)))
  {
    TailoredTextKeys(text, t, w);
    assert TopKey("") == [];
  }

  lemma TailoredTemplateKeys(t: Resolved, w: Words)
    requires Worded(w)
    ensures TopKeys(Tailored(TemplateText(w), t, w)) == TailoredFrom(0, t)
  {
    TemplateIsSectioned(w);
    TailoredDocKeys(TemplateText(w), TemplateDoc(0, w), t, w);
    TemplateKeys(0, t, w);
  }

  lemma SectionKeysInPlace(t: Resolved)
    ensures KeysInPlace(t, "service") == if t.exposure == NoExposure then [] else ["service"]
    ensures KeysInPlace(t, "networkPolicy") == if t.exposure == NoExposure then [] else ["networkPolicy"]
    ensures KeysInPlace(t, "ingress") == if t.ingress then ["ingress"] else []
    ensures KeysInPlace(t, "pdb") == if t.scaling == Singleton then [] else ["pdb"]
  {
  }

  lemma BlockKeysInPlace(t: Resolved)
    ensures KeysInPlace(t, "podCount") ==
              if t.scaling == Singleton && t.workload == Deployment then ["podCount", "strategy"] else ["podCount"]
    ensures KeysInPlace(t, "probes") == if t.exposure == NoExposure then [] else ["livenessProbe", "readinessProbe"]
  {
  }

  /** The keys the tailored template opens, read off the traits. */
  function TailoredKeysOf(t: Resolved): seq<string> {
    ["global", "image"]
    + (if t.exposure == NoExposure then [] else ["service"])
    + (if t.scaling == Singleton && t.workload == Deployment then ["podCount", "strategy"] else ["podCount"])
    + ["resources"]
    + (if t.exposure == NoExposure then [] else ["livenessProbe", "readinessProbe"])
    + (if t.ingress then ["ingress"] else [])
    + (if t.scaling == Singleton then [] else ["pdb"])
    + (if t.exposure == NoExposure then [] else ["networkPolicy"])
    + ["volumes", "troubleshootingContainer"]
  }

  lemma TailoredStep(i: nat, t: Resolved)
    requires i < |SECTIONS|
    ensures TailoredFrom(i, t) == LooseKeys(i) + KeysInPlace(t, SECTIONS[i]) + TailoredFrom(i + 1, t)
  {
  }

  lemma TailoredBack(t: Resolved)
    ensures TailoredFrom(3, t) == KeysInPlace(t, "ingress") + KeysInPlace(t, "pdb") + KeysInPlace(t, "networkPolicy")
                                  + ["volumes", "troubleshootingContainer"]
  {
    TailoredStep(3, t);
    TailoredStep(4, t);
    TailoredStep(5, t);
    var a, b, c, d := KeysInPlace(t, "ingress"), KeysInPlace(t, "pdb"), KeysInPlace(t, "networkPolicy"), LooseKeys(6);
    assert TailoredFrom(6, t) == d;
    Unnested(a, b, c, d);
  }

  lemma TailoredFront(t: Resolved)
    ensures TailoredFrom(0, t) == ["global", "image"] + KeysInPlace(t, "service") + KeysInPlace(t, "podCount") + ["resources"]
                                  + (KeysInPlace(t, "probes") + TailoredFrom(3, t))
  {
    TailoredStep(0, t);
    TailoredStep(1, t);
    TailoredStep(2, t);
    Nested(LooseKeys(0), KeysInPlace(t, "service"), KeysInPlace(t, "podCount"), LooseKeys(2),
      KeysInPlace(t, "probes"), TailoredFrom(3, t));
  }

  lemma Unnested<T>(a: seq<T>, b: seq<T>, c: seq<T>, d: seq<T>)
    ensures [] + a + ([] + b + ([] + c + d)) == a + b + c + d
  {
  }

  lemma Nested<T>(a: seq<T>, b: seq<T>, c: seq<T>, d: seq<T>, e: seq<T>, f: seq<T>)
    ensures a + b + ([] + c + (d + e + f)) == a + b + c + d + (e + f)
  {
    assert [] + c + (d + e + f) == c + d + (e + f);
  }

  function FrontKeys(t: Resolved): seq<string> {
    ["global", "image"] + KeysInPlace(t, "service") + KeysInPlace(t, "podCount") + ["resources"]
  }

  function MiddleKeys(t: Resolved): seq<string> {
    KeysInPlace(t, "probes") + KeysInPlace(t, "ingress") + KeysInPlace(t, "pdb") + KeysInPlace(t, "networkPolicy")
  }

  function BackKeys(): seq<string> {
    ["volumes", "troubleshootingContainer"]
  }

  lemma TailoredParts(t: Resolved)
    ensures TailoredFrom(0, t) == FrontKeys(t) + MiddleKeys(t) + BackKeys()
  {
    TailoredFront(t);
    TailoredBack(t);
    Regrouped(FrontKeys(t), KeysInPlace(t, "probes"), KeysInPlace(t, "ingress"), KeysInPlace(t, "pdb"),
      KeysInPlace(t, "networkPolicy"), BackKeys());
  }

  lemma Regrouped<T>(a: seq<T>, b: seq<T>, c: seq<T>, d: seq<T>, e: seq<T>, f: seq<T>)
    ensures a + (b + (c + d + e + f)) == a + (b + c + d + e) + f
  {
    assert b + (c + d + e + f) == b + c + d + e + f;
  }

  lemma TailoredIs(t: Resolved)
    ensures FrontKeys(t) + MiddleKeys(t) + BackKeys() == TailoredKeysOf(t)
  {
    SectionKeysInPlace(t);
    BlockKeysInPlace(t);
    Flat(["global", "image"], KeysInPlace(t, "service"), KeysInPlace(t, "podCount"), ["resources"],
      KeysInPlace(t, "probes"), KeysInPlace(t, "ingress"), KeysInPlace(t, "pdb"), KeysInPlace(t, "networkPolicy"), BackKeys());
  }

  lemma Flat<T>(a: seq<T>, b: seq<T>, c: seq<T>, d: seq<T>, e: seq<T>, f: seq<T>, g: seq<T>, h: seq<T>, i: seq<T>)
    ensures a + b + c + d + (e + f + g + h) + i == a + b + c + d + e + f + g + h + i
  {
    var x := a + b + c + d;
    assert x + (e + f + g + h) == x + e + f + g + h;
  }

  function FinishedKeysOf(t: Resolved, rules: Specs.Rules): seq<string> {
    TailoredKeysOf(t) + ExtraKeys(t.pattern) + GeneratedKeys(t, rules)
  }

  // ----- no key is repeated -------------------------------------------------------------------

  /** Where a key may stand in the file. */
  function Place(key: string): nat {
    if key == "global" then 0 else if key == "image" then 1 else if key == "service" then 2
    else if key == "podCount" then 3 else if key == "strategy" then 4 else if key == "resources" then 5
    else if key == "livenessProbe" then 6 else if key == "readinessProbe" then 7 else if key == "ingress" then 8
    else if key == "pdb" then 9 else if key == "networkPolicy" then 10 else if key == "volumes" then 11
    else if key == "troubleshootingContainer" then 12 else if key == "startupProbe" then 13
    else if key == "envFrom" then 14 else if key == "env" then 15 else if key == "workloadKind" then 16 else 17
  }

  /** The keys stand in their places, one after the other. */
  predicate Between(keys: seq<string>, lo: nat, hi: nat) {
    && (forall i :: 0 <= i < |keys| ==> lo <= Place(keys[i]) < hi)
    && (forall i, j :: 0 <= i < j < |keys| ==> Place(keys[i]) < Place(keys[j]))
  }

  lemma BetweenConcat(a: seq<string>, b: seq<string>, lo: nat, mid: nat, hi: nat)
    requires Between(a, lo, mid) && Between(b, mid, hi) && lo <= mid <= hi
    ensures Between(a + b, lo, hi)
  {
    var s := a + b;
    forall i | 0 <= i < |s| ensures lo <= Place(s[i]) < hi {
      if i >= |a| { assert s[i] == b[i - |a|]; }
    }
    forall i, j | 0 <= i < j < |s| ensures Place(s[i]) < Place(s[j]) {
      if i < |a| <= j { assert s[i] == a[i] && s[j] == b[j - |a|]; }
      if |a| <= i { assert s[i] == b[i - |a|] && s[j] == b[j - |a|]; }
    }
  }

  lemma FrontPlaces(t: Resolved)
    ensures Between(["global", "image"], 0, 2) && Between(KeysInPlace(t, "service"), 2, 3)
    ensures Between(KeysInPlace(t, "podCount"), 3, 5) && Between(["resources"], 5, 6)
  {
    SectionKeysInPlace(t);
    BlockKeysInPlace(t);
  }

  lemma MiddlePlaces(t: Resolved)
    ensures Between(KeysInPlace(t, "probes"), 6, 8) && Between(KeysInPlace(t, "ingress"), 8, 9)
    ensures Between(KeysInPlace(t, "pdb"), 9, 10) && Between(KeysInPlace(t, "networkPolicy"), 10, 11)
  {
    SectionKeysInPlace(t);
    BlockKeysInPlace(t);
  }

  lemma OneKey(called: bool, key: string)
    ensures Between(if called then [key] else [], Place(key), Place(key) + 1)
  {
  }

  lemma BackPlaces(p: PatternId)
    ensures Between(BackKeys(), 11, 13) && Between(ExtraKeys(p), 13, 14)
  {
    assert Place("volumes") == 11;
    assert Place("troubleshootingContainer") == 12;
    assert Place("startupProbe") == 13;
    OneKey(p == MlInference, "startupProbe");
  }

  lemma GeneratedKeyPlaces()
    ensures Place("envFrom") == 14 && Place("env") == 15 && Place("workloadKind") == 16
  {
  }

  /** Three optional keys in neighbouring places. */
  lemma OptionalKeys(x: bool, a: string, y: bool, b: string, z: bool, c: string)
    requires Place(b) == Place(a) + 1 && Place(c) == Place(b) + 1
    ensures Between((if x then [a] else []) + (if y then [b] else []) + (if z then [c] else []), Place(a), Place(c) + 1)
  {
    var k, l, m := if x then [a] else [], if y then [b] else [], if z then [c] else [];
    OneKey(x, a);
    OneKey(y, b);
    OneKey(z, c);
    BetweenConcat(k, l, Place(a), Place(b), Place(c));
    BetweenConcat(k + l, m, Place(a), Place(c), Place(c) + 1);
  }

  lemma GeneratedPlaces(t: Resolved, rules: Specs.Rules)
    ensures Between(GeneratedKeys(t, rules), 14, 17)
  {
    GeneratedKeyPlaces();
    OptionalKeys(t.sharedEnv && (rules.sharedSecrets || rules.sharedNewrelic), "envFrom",
      t.sharedEnv && rules.sharedNewrelic, "env", t.workload == StatefulSet, "workloadKind");
  }

  /** Four neighbouring parts. */
  lemma PartsInPlaces(a: seq<string>, b: seq<string>, c: seq<string>, d: seq<string>, lo: nat, x: nat, y: nat, z: nat, hi: nat)
    requires lo <= x <= y <= z <= hi
    requires Between(a, lo, x) && Between(b, x, y) && Between(c, y, z) && Between(d, z, hi)
    ensures Between(a + b + c + d, lo, hi)
  {
    BetweenConcat(a, b, lo, x, y);
    BetweenConcat(a + b, c, lo, y, z);
    BetweenConcat(a + b + c, d, lo, z, hi);
  }

  lemma FrontIsOrdered(t: Resolved)
    ensures Between(FrontKeys(t), 0, 6)
  {
    FrontPlaces(t);
    PartsInPlaces(["global", "image"], KeysInPlace(t, "service"), KeysInPlace(t, "podCount"), ["resources"], 0, 2, 3, 5, 6);
  }

  lemma MiddleIsOrdered(t: Resolved)
    ensures Between(MiddleKeys(t), 6, 11)
  {
    MiddlePlaces(t);
    PartsInPlaces(KeysInPlace(t, "probes"), KeysInPlace(t, "ingress"), KeysInPlace(t, "pdb"), KeysInPlace(t, "networkPolicy"),
      6, 8, 9, 10, 11);
  }

  lemma OrderedIsDistinct(a: seq<string>, b: seq<string>, c: seq<string>, d: seq<string>, e: seq<string>)
    requires Between(a, 0, 6) && Between(b, 6, 11) && Between(c, 11, 13) && Between(d, 13, 14) && Between(e, 14, 17)
    ensures Distinct(a + b + c + d + e)
  {
    PartsInPlaces(a, b, c, d, 0, 6, 11, 13, 14);
    BetweenConcat(a + b + c + d, e, 0, 14, 17);
  }

  /**
    The top-level keys of the finished values.yaml, in order, and none of them
    twice: for all traits, rules and wording, neither the section blocks nor the
    pattern extras nor the generated block repeat a key that is already there.
  */
  lemma SubchartKeysAreDistinct(t: Resolved, rules: Specs.Rules, w: Words)
    requires Worded(w)
    ensures TopKeys(FinishedText(TemplateText(w), t, rules, w)) == FinishedKeysOf(t, rules)
    ensures Distinct(TopKeys(FinishedText(TemplateText(w), t, rules, w)))
  {
    FinishedTextKeys(TemplateText(w), t, rules, w);
    TailoredTemplateKeys(t, w);
    TailoredParts(t);
    TailoredIs(t);
    FrontIsOrdered(t);
    MiddleIsOrdered(t);
    BackPlaces(t.pattern);
    GeneratedPlaces(t, rules);
    OrderedIsDistinct(FrontKeys(t), MiddleKeys(t), BackKeys(), ExtraKeys(t.pattern), GeneratedKeys(t, rules));
  }

  lemma AppendedIsDistinct(p: PatternId, t: Resolved, rules: Specs.Rules)
    ensures Distinct(ExtraKeys(p) + GeneratedKeys(t, rules))
  {
    BackPlaces(p);
    GeneratedPlaces(t, rules);
    BetweenConcat(ExtraKeys(p), GeneratedKeys(t, rules), 13, 14, 17);
  }

  /** On any other text: a key is repeated exactly if the tailored text already opens one of the appended blocks' keys. */
  lemma FinishedKeysAreDistinctIff(text: string, t: Resolved, rules: Specs.Rules, w: Words)
    requires Worded(w) && Distinct(TopKeys(Tailored(text, t, w)))
    ensures Distinct(TopKeys(FinishedText(text, t, rules, w))) <==>
              forall k :: k in ExtraKeys(t.pattern) + GeneratedKeys(t, rules) ==> k !in TopKeys(Tailored(text, t, w))
  {
    var keys, more := TopKeys(Tailored(text, t, w)), ExtraKeys(t.pattern) + GeneratedKeys(t, rules);
    FinishedTextKeys(text, t, rules, w);
    AppendedIsDistinct(t.pattern, t, rules);
    Associate(keys, ExtraKeys(t.pattern), GeneratedKeys(t, rules));
    DistinctConcatIff(keys, more);
  }
}
