/**
  buildSubchart on the chart object: placeholders, traits, appended blocks,
  ingress and inlining, with the values text and the parsed values in step on
  every exit, and every template file and the values text of the finished
  subchart known.
*/
module SubchartBuild {
  import opened Prelude
  import opened Text
  import opened Traits
  import opened Replacing
  import opened YamlKeys
  import opened ValuesText
  import opened Sections
  import opened Subcharts
  import opened SubchartValues
  import opened ChartObject
  import BlankRuns
  import opened Renaming
  import Specs

  const README := "README.adoc"

  predicate IsReadme(f: File) {
    f.name == README
  }

  // ----- files as names and data -----------------------------------------------------------

  type Texts = seq<(string, string)>

  /** Names and data of files, in order. */
  function TextsOf(fs: seq<File>): (r: Texts)
    reads fs
    ensures |r| == |fs| && forall i :: 0 <= i < |fs| ==> r[i] == (fs[i].name, fs[i].data)
  {
    seq(|fs|, i requires 0 <= i < |fs| reads fs => (fs[i].name, fs[i].data))
  }

  /** The templates by name. */
  function NamesIn(texts: Texts): (r: seq<Template>)
    ensures |r| == |texts| && forall i :: 0 <= i < |texts| ==> r[i] == TemplateOf(texts[i].0)
  {
    seq(|texts|, i requires 0 <= i < |texts| => TemplateOf(texts[i].0))
  }

  lemma NamesConcat(a: Texts, b: Texts)
    ensures NamesIn(a + b) == NamesIn(a) + NamesIn(b)
  {
  }

  /** The files and texts dropTemplate drops. */
  function FileAt(t: Template): File -> bool {
    (f: File) => f.name == PathOf(t)
  }

  function TextAt(t: Template): ((string, string)) -> bool {
    (x: (string, string)) => x.0 == PathOf(t)
  }

  function DropText(texts: Texts, t: Template): Texts {
    Dropped(texts, TextAt(t))
  }

  lemma {:induction false} NamesDropped(texts: Texts, t: Template)
    requires !t.Other?
    ensures NamesIn(DropText(texts, t)) == DropTemplate(NamesIn(texts), t)
  {
    if texts != [] {
      var rest := DropText(texts[1..], t);
      PathsAreDistinct(t, texts[0].0);
      NamesDropped(texts[1..], t);
      assert NamesIn(texts)[1..] == NamesIn(texts[1..]);
      NamesConcat([texts[0]], rest);
      assert NamesIn([texts[0]]) == [TemplateOf(texts[0].0)];
    }
  }

  lemma {:induction false} TextsDropped(fs: seq<File>, t: Template)
    ensures TextsOf(Dropped(fs, FileAt(t))) == DropText(TextsOf(fs), t)
  {
    if fs != [] {
      TextsDropped(fs[1..], t);
      assert TextsOf(fs)[1..] == TextsOf(fs[1..]);
      TextsCons(fs[0], Dropped(fs[1..], FileAt(t)));
    }
  }

  lemma TextsCons(f: File, fs: seq<File>)
    ensures TextsOf([f] + fs) == [(f.name, f.data)] + TextsOf(fs)
  {
  }

  lemma {:induction false} DroppedIsPart(fs: seq<File>, pred: File -> bool)
    requires Distinct(fs)
    ensures Distinct(Dropped(fs, pred)) && forall f :: f in Dropped(fs, pred) <==> f in fs && !pred(f)
  {
    if fs != [] {
      DroppedIsPart(fs[1..], pred);
      assert fs[0] !in fs[1..];
      assert forall f :: f in fs <==> f == fs[0] || f in fs[1..];
    }
  }

  // ----- the template list --------------------------------------------------------------

  /** dropFile on a list the chart holds. */
  method Keep(fs: seq<File>, pred: File -> bool) returns (kept: seq<File>)
    requires Distinct(fs)
    ensures kept == Dropped(fs, pred) && Distinct(kept) && forall f :: f in kept <==> f in fs && !pred(f)
  {
    var files := new File[|fs|](i requires 0 <= i < |fs| => fs[i]);
    assert files[..] == fs;
    var n := DropFile(files, pred);
    kept := files[..n];
    DroppedIsPart(fs, pred);
  }

  /** dropTemplate */
  method Drop(ch: Chart, t: Template)
    requires ch.Valid()
    modifies ch`templates
    ensures ch.Valid() && TextsOf(ch.templates) == DropText(old(TextsOf(ch.templates)), t)
    ensures forall i :: 0 <= i < |ch.templates| ==> ch.templates[i] in old(ch.templates)
  {
    ghost var was := ch.templates;
    var kept := Keep(ch.templates, FileAt(t));
    ch.templates := kept;
    TextsDropped(was, t);
    assert TextsOf(was) == old(TextsOf(ch.templates));
  }

  method Add(ch: Chart, path: string, data: string)
    requires ch.Valid()
    modifies ch`templates
    ensures ch.Valid() && TextsOf(ch.templates) == old(TextsOf(ch.templates)) + [(path, data)]
    ensures forall i :: 0 <= i < |ch.templates| ==> ch.templates[i] in old(ch.templates) || fresh(ch.templates[i])
  {
    var f := new File(path, data);
    ch.templates := ch.templates + [f];
  }

  // ----- the workload and ingress manifests ---------------------------------------------------

  /** The one line of an emitted workload manifest. */
  function Including(template: string): string {
    "{{ include \"umbrella-chart." + template + "\" . }}\n"
  }

  lemma Stubs()
    ensures Including("statefulset") == "{{ include \"umbrella-chart.statefulset\" . }}\n"
    ensures Including("headlessService") == "{{ include \"umbrella-chart.headlessService\" . }}\n"
    ensures Including("daemonset") == "{{ include \"umbrella-chart.daemonset\" . }}\n"
  {
  }

  function WorkloadTexts(texts: Texts, workload: Workload): Texts {
    match workload
    case Deployment => texts
    case StatefulSet =>
      DropText(texts, DeploymentYaml)
      + [(PathOf(StatefulsetYaml), Including("statefulset"))] + [(PathOf(HeadlessServiceYaml), Including("headlessService"))]
    case DaemonSet =>
      DropText(DropText(texts, DeploymentYaml), HpaYaml) + [(PathOf(DaemonsetYaml), Including("daemonset"))]
  }

  method ApplyWorkload(ch: Chart, workload: Workload)
    requires ch.Valid()
    modifies ch`templates
    ensures ch.Valid() && TextsOf(ch.templates) == WorkloadTexts(old(TextsOf(ch.templates)), workload)
    ensures forall i :: 0 <= i < |ch.templates| ==> ch.templates[i] in old(ch.templates) || fresh(ch.templates[i])
  {
    match workload
    case Deployment =>
    case StatefulSet =>
      Drop(ch, DeploymentYaml);
      Add(ch, PathOf(StatefulsetYaml), Including("statefulset"));
      Add(ch, PathOf(HeadlessServiceYaml), Including("headlessService"));
    case DaemonSet =>
      Drop(ch, DeploymentYaml);
      Drop(ch, HpaYaml);
      Add(ch, PathOf(DaemonsetYaml), Including("daemonset"));
  }

  /** The text of the ingress manifest for a controller; it is not part of this model. */
  type Routes = Controller -> string

  function RoutedTexts(texts: Texts, controller: Controller, routes: Routes): Texts {
    DropText(texts, IngressYaml) +
    match controller
    case NoController => []
    case Istio => [(PathOf(IstioYaml), routes(Istio))]
    case _ => [(PathOf(IngressYaml), routes(controller))]
  }

  method ApplyIngress(ch: Chart, controller: Controller, routes: Routes)
    requires ch.Valid()
    modifies ch`templates
    ensures ch.Valid() && TextsOf(ch.templates) == RoutedTexts(old(TextsOf(ch.templates)), controller, routes)
    ensures forall i :: 0 <= i < |ch.templates| ==> ch.templates[i] in old(ch.templates) || fresh(ch.templates[i])
  {
    Drop(ch, IngressYaml);
    match controller
    case NoController =>
    case Istio => Add(ch, PathOf(IstioYaml), routes(Istio));
    case _ => Add(ch, PathOf(IngressYaml), routes(controller));
  }

  lemma {:induction false} DropTextKeeps(texts: Texts, t: Template, f: (string, string))
    ensures f in DropText(texts, t) <==> f in texts && f.0 != PathOf(t)
  {
    if texts != [] {
      DropTextKeeps(texts[1..], t, f);
      assert f in texts <==> f == texts[0] || f in texts[1..];
    }
  }

  /** After applyWorkload: the other workload's manifests are gone, each new one includes the umbrella's template of its kind. */
  lemma WorkloadFiles(texts: Texts, workload: Workload, f: (string, string))
    ensures f in WorkloadTexts(texts, workload) <==>
              || (f in texts && (workload == Deployment || f.0 != "templates/deployment.yaml")
                  && (workload != DaemonSet || f.0 != "templates/hpa.yaml"))
              || (workload == StatefulSet
                  && (f == ("templates/statefulset.yaml", "{{ include \"umbrella-chart.statefulset\" . }}\n")
                      || f == ("templates/headless-service.yaml", "{{ include \"umbrella-chart.headlessService\" . }}\n")))
              || (workload == DaemonSet
                  && f == ("templates/daemonset.yaml", "{{ include \"umbrella-chart.daemonset\" . }}\n"))
  {
    Stubs();
    var kept := DropText(texts, DeploymentYaml);
    DropTextKeeps(texts, DeploymentYaml, f);
    DropTextKeeps(kept, HpaYaml, f);
    match workload
    case Deployment =>
    case StatefulSet =>
      AddedFiles(kept, PathOf(StatefulsetYaml), Including("statefulset"), f);
      AddedFiles(kept + [(PathOf(StatefulsetYaml), Including("statefulset"))],
        PathOf(HeadlessServiceYaml), Including("headlessService"), f);
    case DaemonSet =>
      AddedFiles(DropText(kept, HpaYaml), PathOf(DaemonsetYaml), Including("daemonset"), f);
  }

  lemma AddedFiles(texts: Texts, path: string, data: string, f: (string, string))
    ensures f in texts + [(path, data)] <==> f in texts || f == (path, data)
  {
  }

  /** After applyIngress: the template's ingress is gone, and the controller's own manifest is there instead. */
  lemma RoutedFiles(texts: Texts, controller: Controller, routes: Routes, f: (string, string))
    ensures f in RoutedTexts(texts, controller, routes) <==>
              || (f in texts && f.0 != "templates/ingress.yaml")
              || (controller == Istio && f == ("templates/istio.yaml", routes(Istio)))
              || (controller in {Alb, Nginx, Traefik, Gce} && f == ("templates/ingress.yaml", routes(controller)))
  {
    var kept := DropText(texts, IngressYaml);
    DropTextKeeps(texts, IngressYaml, f);
    assert kept + [] == kept;
    AddedFiles(kept, PathOf(IstioYaml), routes(Istio), f);
    AddedFiles(kept, PathOf(IngressYaml), routes(controller), f);
  }

  // ----- traits ---------------------------------------------------------------------------

  function ExposureTexts(texts: Texts, t: Resolved): Texts {
    if t.exposure == NoExposure then DropText(DropText(texts, ServiceYaml), NetworkPolicyYaml) else texts
  }

  function ScalingTexts(texts: Texts, t: Resolved): Texts {
    match t.scaling
    case Auto => texts
    case Fixed => DropText(texts, HpaYaml)
    case Singleton => DropText(DropText(texts, HpaYaml), PdbYaml)
  }

  /** What applyTraits leaves of the manifests: those whose reason to be has gone are dropped, the others untouched. */
  lemma TailoredFiles(texts: Texts, t: Resolved, f: (string, string))
    ensures f in ScalingTexts(ExposureTexts(texts, t), t) <==>
              && f in texts && (t.exposure == NoExposure ==> f.0 !in ["templates/service.yaml", "templates/networkPolicy.yaml"])
              && (t.scaling != Auto ==> f.0 != "templates/hpa.yaml") && (t.scaling == Singleton ==> f.0 != "templates/pdb.yaml")
  {
    var served := ExposureTexts(texts, t);
    DropTextKeeps(texts, ServiceYaml, f);
    DropTextKeeps(DropText(texts, ServiceYaml), NetworkPolicyYaml, f);
    DropTextKeeps(served, HpaYaml, f);
    DropTextKeeps(DropText(served, HpaYaml), PdbYaml, f);
  }

  /** dropSection, with the loop that collapses what it leaves. */
  method RunDropSection(text: string, name: string) returns (out: string)
    ensures out == EditText(text, Edit.Drop(name))
  {
    out := BlankRuns.CollapseBlankRuns(BlankRuns.Join(Cut(BlankRuns.Split(text), name, [])));
  }

  method ApplyExposure(ch: Chart, text: string, t: Resolved, w: Wording) returns (out: string)
    requires ch.Valid()
    modifies ch`templates
    ensures out == EditTextAll(text, ExposureEdits(t, w))
    ensures ch.Valid() && TextsOf(ch.templates) == ExposureTexts(old(TextsOf(ch.templates)), t)
    ensures forall i :: 0 <= i < |ch.templates| ==> ch.templates[i] in old(ch.templates)
  {
    out := text;
    match t.exposure {
      case Http =>
        if t.port != PORT_HTTP {
          out := ReplaceSection(out, "service", w(ServiceBlock(t.port, Http)));
        }
        EditOne(text, Replace("service", w(ServiceBlock(t.port, Http))));
      case Grpc =>
        out := ReplaceSection(out, "service", w(ServiceBlock(t.port, Grpc)));
        out := ReplaceSection(out, "probes", w(GrpcProbes));
        EditTwo(text, Replace("service", w(ServiceBlock(t.port, Grpc))), Replace("probes", w(GrpcProbes)));
      case Tcp =>
        out := ReplaceSection(out, "service", w(ServiceBlock(t.port, Tcp)));
        out := ReplaceSection(out, "probes", w(TcpProbes));
        EditTwo(text, Replace("service", w(ServiceBlock(t.port, Tcp))), Replace("probes", w(TcpProbes)));
      case NoExposure => out := Unexpose(ch, text, w);
    }
  }

  method Unexpose(ch: Chart, text: string, w: Wording) returns (out: string)
    requires ch.Valid()
    modifies ch`templates
    ensures out == EditTextAll(text, [Edit.Drop("service"), Edit.Drop("networkPolicy"), Replace("probes", w(WorkerProbes))])
    ensures ch.Valid() && TextsOf(ch.templates) == DropText(DropText(old(TextsOf(ch.templates)), ServiceYaml), NetworkPolicyYaml)
    ensures forall i :: 0 <= i < |ch.templates| ==> ch.templates[i] in old(ch.templates)
  {
    out := RunDropSection(text, "service");
    out := RunDropSection(out, "networkPolicy");
    out := ReplaceSection(out, "probes", w(WorkerProbes));
    EditThree(text, Edit.Drop("service"), Edit.Drop("networkPolicy"), Replace("probes", w(WorkerProbes)));
    Drop(ch, ServiceYaml);
    Drop(ch, NetworkPolicyYaml);
  }

  method ApplyScaling(ch: Chart, text: string, t: Resolved, w: Wording) returns (out: string)
    requires ch.Valid()
    modifies ch`templates
    ensures out == EditTextAll(text, ScalingEdits(t, w))
    ensures ch.Valid() && TextsOf(ch.templates) == ScalingTexts(old(TextsOf(ch.templates)), t)
    ensures forall i :: 0 <= i < |ch.templates| ==> ch.templates[i] in old(ch.templates)
  {
    out := text;
    match t.scaling {
      case Auto =>
      case Fixed =>
        out := ReplaceSection(out, "podCount", w(FixedPodCount(t.pattern)));
        EditOne(text, Replace("podCount", w(FixedPodCount(t.pattern))));
        Drop(ch, HpaYaml);
      case Singleton =>
        out := ReplaceSection(out, "podCount", w(SingletonPodCount(t.workload)));
        out := RunDropSection(out, "pdb");
        EditTwo(text, Replace("podCount", w(SingletonPodCount(t.workload))), Edit.Drop("pdb"));
        Drop(ch, HpaYaml);
        Drop(ch, PdbYaml);
    }
  }

  /** The text surgery of applyTraits with the template drops between its steps. */
  method Surgery(ch: Chart, text: string, t: Resolved, w: Wording) returns (out: string)
    requires ch.Valid()
    modifies ch`templates
    ensures out == Tailor(text, TraitEdits(t, w))
    ensures ch.Valid() && TextsOf(ch.templates) == ScalingTexts(ExposureTexts(old(TextsOf(ch.templates)), t), t)
    ensures forall i :: 0 <= i < |ch.templates| ==> ch.templates[i] in old(ch.templates)
  {
    ghost var x, i, s := ExposureEdits(t, w), RouteEdits(t), ScalingEdits(t, w);
    TraitEditsAre(t, w);
    out := ApplyExposure(ch, text, t, w);
    if !t.ingress {
      out := RunDropSection(out, "ingress");
    }
    EditOne(EditTextAll(text, x), Edit.Drop("ingress"));
    EditsCompose(text, x, i);
    out := ApplyScaling(ch, out, t, w);
    EditsCompose(text, x + i, s);
    out := StripSectionMarkers(out);
  }

  /** applyPatternExtras */
  method ApplyPatternExtras(ch: Chart, parse: Parser, p: PatternId, w: Words) returns (ok: bool)
    requires ch.Valid() && ch.Coherent(parse)
    modifies ch`raw, ch`values, ch.raw
    ensures ch.Valid() && ch.Coherent(parse) && ch.name == old(ch.name)
    ensures ok <==> parse(WithExtras(old(ch.RawValues()), p, w)).Some?
    ensures ok ==> ch.RawValues() == WithExtras(old(ch.RawValues()), p, w)
    ensures forall i :: 0 <= i < |ch.raw| ==> ch.raw[i] in old(ch.raw) || fresh(ch.raw[i])
  {
    ok := true;
    if p == MlInference || p == RealtimeGateway {
      ok := ch.AppendValues(parse, ShownAll(ExtraLines(p, w)));
    }
  }

  /** The values part of applyTraits: set the tailored text, then append the extras. */
  method SetTailored(ch: Chart, parse: Parser, text: string, p: PatternId, w: Words) returns (ok: bool)
    requires ch.Valid() && ch.Coherent(parse)
    modifies ch`raw, ch`values, ch.raw
    ensures ch.Valid() && ch.Coherent(parse) && ch.name == old(ch.name)
    ensures ok <==> parse(text).Some? && parse(WithExtras(text, p, w)).Some?
    ensures ok ==> ch.RawValues() == WithExtras(text, p, w)
    ensures forall i :: 0 <= i < |ch.raw| ==> ch.raw[i] in old(ch.raw) || fresh(ch.raw[i])
  {
    ok := ch.SetValues(parse, text);
    if ok {
      ok := ApplyPatternExtras(ch, parse, p, w);
    }
  }

  method ApplyTraits(ch: Chart, parse: Parser, t: Resolved, w: Words) returns (ok: bool)
    requires ch.Valid() && ch.Coherent(parse)
    modifies ch`templates, ch`raw, ch`values, ch.raw
    ensures ch.Valid() && ch.Coherent(parse) && ch.name == old(ch.name)
    ensures TextsOf(ch.templates) == ScalingTexts(ExposureTexts(old(TextsOf(ch.templates)), t), t)
    ensures forall i :: 0 <= i < |ch.templates| ==> ch.templates[i] in old(ch.templates)
    ensures var text := Tailored(old(ch.RawValues()), t, w);
            && (ok <==> parse(text).Some? && parse(WithExtras(text, t.pattern, w)).Some?)
            && (ok ==> ch.RawValues() == WithExtras(text, t.pattern, w))
    ensures forall i :: 0 <= i < |ch.raw| ==> ch.raw[i] in old(ch.raw) || fresh(ch.raw[i])
  {
    var text := Surgery(ch, ch.RawValues(), t, WordingOf(w));
    ok := SetTailored(ch, parse, text, t.pattern, w);
  }

  // ----- the helpers file --------------------------------------------------------------------

  /** What common annotations and resource naming do to the helpers file; the rewriting is not part of this model. */
  type HelperEdits = string -> string

  function EditedTexts(texts: Texts, edit: HelperEdits): (r: Texts)
    ensures |r| == |texts|
    ensures forall i :: 0 <= i < |texts| ==> r[i] == if texts[i].0 == HELPERS then (HELPERS, edit(texts[i].1)) else texts[i]
  {
    seq(|texts|, i requires 0 <= i < |texts| => if texts[i].0 == HELPERS then (HELPERS, edit(texts[i].1)) else texts[i])
  }

  method EditHelpers(ch: Chart, parse: Parser, edit: HelperEdits)
    requires ch.Valid() && ch.Coherent(parse)
    modifies ch.templates
    ensures ch.Valid() && ch.Coherent(parse) && ch.name == old(ch.name) && ch.RawValues() == old(ch.RawValues())
    ensures TextsOf(ch.templates) == EditedTexts(old(TextsOf(ch.templates)), edit)
  {
    for i := 0 to |ch.templates|
      invariant forall j :: 0 <= j < i ==>
        ch.templates[j].data ==
          if ch.templates[j].name == HELPERS then edit(old(ch.templates[j].data)) else old(ch.templates[j].data)
      invariant forall j :: i <= j < |ch.templates| ==> ch.templates[j].data == old(ch.templates[j].data)
    {
      if ch.templates[i].name == HELPERS {
        ch.templates[i].data := edit(ch.templates[i].data);
      }
    }
    ch.RawIsApart();
  }

  /** The definitions behind the first helpers file, or as one. */
  function InlinedText(texts: Texts, defines: string): Texts {
    if texts == [] then [(HELPERS, defines)]
    else if texts[0].0 == HELPERS then [(HELPERS, texts[0].1 + "\n" + defines)] + texts[1..]
    else [texts[0]] + InlinedText(texts[1..], defines)
  }

  lemma {:induction false} InlinedTextAt(texts: Texts, defines: string, i: nat)
    requires i <= |texts| && (forall j :: 0 <= j < i ==> texts[j].0 != HELPERS) && (i < |texts| ==> texts[i].0 == HELPERS)
    ensures InlinedText(texts, defines) ==
              if i == |texts| then texts + [(HELPERS, defines)]
              else texts[i := (HELPERS, texts[i].1 + "\n" + defines)]
  {
    if 0 < i {
      InlinedTextAt(texts[1..], defines, i - 1);
      assert texts == [texts[0]] + texts[1..];
    }
  }

  /** applyInlining: behind the first helpers file, or as one. */
  method ApplyInlining(ch: Chart, parse: Parser, defines: string)
    requires ch.Valid() && ch.Coherent(parse)
    modifies ch`templates, ch.templates
    ensures ch.Valid() && ch.Coherent(parse) && ch.name == old(ch.name) && ch.RawValues() == old(ch.RawValues())
    ensures TextsOf(ch.templates) == InlinedText(old(TextsOf(ch.templates)), defines)
    ensures forall i :: 0 <= i < |ch.templates| ==> ch.templates[i] in old(ch.templates) || fresh(ch.templates[i])
  {
    var i := FindHelpers(ch.templates);
    InlinedTextAt(TextsOf(ch.templates), defines, i);
    if i < |ch.templates| {
      AppendTo(ch, parse, i, defines);
    } else {
      Add(ch, HELPERS, defines);
    }
  }

  method FindHelpers(fs: seq<File>) returns (i: nat)
    ensures i <= |fs| && forall j :: 0 <= j < i ==> fs[j].name != HELPERS
    ensures i < |fs| ==> fs[i].name == HELPERS
  {
    i := 0;
    while i < |fs| && fs[i].name != HELPERS
      invariant i <= |fs| && forall j :: 0 <= j < i ==> fs[j].name != HELPERS
    {
      i := i + 1;
    }
  }

  method AppendTo(ch: Chart, parse: Parser, i: nat, text: string)
    requires ch.Valid() && ch.Coherent(parse) && i < |ch.templates|
    modifies ch.templates
    ensures ch.Valid() && ch.Coherent(parse) && ch.name == old(ch.name) && ch.RawValues() == old(ch.RawValues())
    ensures TextsOf(ch.templates) ==
              old(TextsOf(ch.templates))[i := (ch.templates[i].name, old(ch.templates[i].data) + "\n" + text)]
  {
    ch.templates[i].data := ch.templates[i].data + "\n" + text;
    ch.RawIsApart();
  }

  // ----- buildSubchart -----------------------------------------------------------------------

  /** The values text once the placeholders are replaced, if what comes out still parses. */
  function Placed(text: string, swaps: seq<Swap>, parse: Parser): string
    requires Replacing.Proper(swaps)
  {
    if parse(Replaced(text, swaps)).Some? then Replaced(text, swaps) else text
  }

  function ReplacedTexts(texts: Texts, swaps: seq<Swap>): (r: Texts)
    requires Replacing.Proper(swaps)
    ensures |r| == |texts| && forall i :: 0 <= i < |texts| ==> r[i] == (texts[i].0, Replaced(texts[i].1, swaps))
  {
    seq(|texts|, i requires 0 <= i < |texts| => (texts[i].0, Replaced(texts[i].1, swaps)))
  }

  method FillPlaceholders(ch: Chart, parse: Parser, swaps: seq<Swap>)
    requires ch.Valid() && ch.Coherent(parse) && Replacing.Proper(swaps)
    modifies ch`raw, ch`values, ch.templates, ch.files, ch.raw
    ensures ch.Valid() && ch.Coherent(parse) && ch.name == old(ch.name)
    ensures ch.templates == old(ch.templates) && ch.files == old(ch.files)
    ensures ch.RawValues() == Placed(old(ch.RawValues()), swaps, parse)
    ensures TextsOf(ch.templates) == ReplacedTexts(old(TextsOf(ch.templates)), swaps)
    ensures forall i :: 0 <= i < |ch.raw| ==> ch.raw[i] in old(ch.raw) || fresh(ch.raw[i])
  {
    ch.ReplacePlaceholders(parse, swaps);
    forall i | 0 <= i < |ch.templates| ensures ch.templates[i].data == Replaced(old(ch.templates[i].data), swaps) {
      assert ch.templates[i] in ch.templates;
    }
  }

  /** Without its readme, if that is not asked for. */
  method Toggle(ch: Chart, readme: bool)
    requires ch.Valid()
    modifies ch`files
    ensures ch.Valid() && ch.files == if readme then old(ch.files) else Dropped(old(ch.files), IsReadme)
  {
    if !readme {
      var kept := Keep(ch.files, IsReadme);
      ch.files := kept;
    }
  }

  /** The workload's manifest, then the placeholders everywhere. */
  method Rename(ch: Chart, parse: Parser, swaps: seq<Swap>, workload: Workload)
    requires ch.Valid() && ch.Coherent(parse) && Replacing.Proper(swaps)
    modifies ch`templates, ch`raw, ch`values, ch.templates, ch.files, ch.raw
    ensures ch.Valid() && ch.Coherent(parse) && ch.name == old(ch.name) && ch.files == old(ch.files)
    ensures ch.RawValues() == Placed(old(ch.RawValues()), swaps, parse)
    ensures TextsOf(ch.templates) == ReplacedTexts(WorkloadTexts(old(TextsOf(ch.templates)), workload), swaps)
    ensures forall i :: 0 <= i < |ch.templates| ==> ch.templates[i] in old(ch.templates) || fresh(ch.templates[i])
    ensures forall i :: 0 <= i < |ch.raw| ==> ch.raw[i] in old(ch.raw) || fresh(ch.raw[i])
  {
    ApplyWorkload(ch, workload);
    assert ch.Coherent(parse);
    FillPlaceholders(ch, parse, swaps);
  }

  /** Everything up to the traits. */
  method Prepare(ch: Chart, parse: Parser, swaps: seq<Swap>, workload: Workload, readme: bool, helpers: HelperEdits)
    requires ch.Valid() && ch.Coherent(parse) && Replacing.Proper(swaps)
    modifies ch`templates, ch`files, ch`raw, ch`values, ch.templates, ch.files, ch.raw
    ensures ch.Valid() && ch.Coherent(parse) && ch.name == old(ch.name)
    ensures ch.RawValues() == Placed(old(ch.RawValues()), swaps, parse)
    ensures TextsOf(ch.templates) ==
              EditedTexts(ReplacedTexts(WorkloadTexts(old(TextsOf(ch.templates)), workload), swaps), helpers)
    ensures ch.files == if readme then old(ch.files) else Dropped(old(ch.files), IsReadme)
    ensures forall i :: 0 <= i < |ch.templates| ==> ch.templates[i] in old(ch.templates) || fresh(ch.templates[i])
    ensures forall i :: 0 <= i < |ch.raw| ==> ch.raw[i] in old(ch.raw) || fresh(ch.raw[i])
  {
    Rename(ch, parse, swaps, workload);
    EditHelpers(ch, parse, helpers);
    Toggle(ch, readme);
  }

  /** The generated block, if there is one. */
  method AppendGenerated(ch: Chart, parse: Parser, block: string) returns (ok: bool)
    requires ch.Valid() && ch.Coherent(parse)
    modifies ch`raw, ch`values, ch.raw
    ensures ch.Valid() && ch.Coherent(parse) && ch.name == old(ch.name)
    ensures forall i :: 0 <= i < |ch.raw| ==> ch.raw[i] in old(ch.raw) || fresh(ch.raw[i])
    ensures ok <==> block == "" || parse(Appended(old(ch.RawValues()), block)).Some?
    ensures ok ==> ch.RawValues() == if block == "" then old(ch.RawValues()) else Appended(old(ch.RawValues()), block)
  {
    ok := true;
    if block != "" {
      ok := ch.AppendValues(parse, block);
    }
  }

  /** Whether the three texts on the way to the finished one parse. */
  predicate Parses(text: string, t: Resolved, rules: Specs.Rules, w: Words, parse: Parser) {
    && parse(Tailored(text, t, w)).Some?
    && parse(WithExtras(Tailored(text, t, w), t.pattern, w)).Some?
    && parse(FinishedText(text, t, rules, w)).Some?
  }

  /** The values steps: surgery, extras, generated block; each may fail, and leaves text and values in step. */
  method TailorValues(ch: Chart, parse: Parser, t: Resolved, rules: Specs.Rules, w: Words) returns (ok: bool)
    requires ch.Valid() && ch.Coherent(parse)
    modifies ch`templates, ch`raw, ch`values, ch.raw
    ensures ch.Valid() && ch.Coherent(parse) && ch.name == old(ch.name)
    ensures TextsOf(ch.templates) == ScalingTexts(ExposureTexts(old(TextsOf(ch.templates)), t), t)
    ensures forall i :: 0 <= i < |ch.templates| ==> ch.templates[i] in old(ch.templates)
    ensures forall i :: 0 <= i < |ch.raw| ==> ch.raw[i] in old(ch.raw) || fresh(ch.raw[i])
    ensures ok <==> Parses(old(ch.RawValues()), t, rules, w, parse)
    ensures ok ==> ch.RawValues() == FinishedText(old(ch.RawValues()), t, rules, w)
  {
    ok := ApplyTraits(ch, parse, t, w);
    ghost var raw := ch.raw;
    if ok {
      ok := AppendGenerated(ch, parse, ShownAll(GeneratedLines(t, rules, w)));
    }
    forall i | 0 <= i < |ch.raw| ensures ch.raw[i] in old(ch.raw) || fresh(ch.raw[i]) {
      if j :| 0 <= j < |raw| && raw[j] == ch.raw[i] {}
    }
  }

  /** The ingress manifest, and for an unlinked subchart the umbrella's definitions. */
  method Conclude(ch: Chart, parse: Parser, controller: Controller, linked: bool, routes: Routes, defines: string)
    requires ch.Valid() && ch.Coherent(parse)
    modifies ch`templates, ch.templates
    ensures ch.Valid() && ch.Coherent(parse) && ch.name == old(ch.name) && ch.RawValues() == old(ch.RawValues())
    ensures var routed := RoutedTexts(old(TextsOf(ch.templates)), controller, routes);
            TextsOf(ch.templates) == if linked then routed else InlinedText(routed, defines)
    ensures forall i :: 0 <= i < |ch.templates| ==> ch.templates[i] in old(ch.templates) || fresh(ch.templates[i])
  {
    ApplyIngress(ch, controller, routes);
    if !linked {
      ghost var routed := ch.templates;
      ApplyInlining(ch, parse, defines);
      forall i | 0 <= i < |ch.templates| ensures ch.templates[i] in old(ch.templates) || fresh(ch.templates[i]) {
        if j :| 0 <= j < |routed| && routed[j] == ch.templates[i] {}
      }
    }
  }

  /** The templates a chart is built with, file by file. */
  datatype Recipe = Recipe(
    traits: Resolved, rules: Specs.Rules, controller: Controller, routes: Routes, helpers: HelperEdits, defines: string)

  /** What is renamed: the template directory with the workload's manifest. */
  function RenamedTexts(texts: Texts, swaps: seq<Swap>, r: Recipe): Texts
    requires Replacing.Proper(swaps)
  {
    ReplacedTexts(WorkloadTexts(texts, r.traits.workload), swaps)
  }

  /** What becomes of that: the helpers rewritten, the manifests nobody needs dropped, the ingress manifest added. */
  function ServedTexts(texts: Texts, r: Recipe): Texts {
    RoutedTexts(ScalingTexts(ExposureTexts(EditedTexts(texts, r.helpers), r.traits), r.traits),
      EffectiveController(r.traits, r.controller), r.routes)
  }

  /** The template files buildSubchart leaves. */
  function BuiltTexts(texts: Texts, swaps: seq<Swap>, r: Recipe): Texts
    requires Replacing.Proper(swaps)
  {
    var served := ServedTexts(RenamedTexts(texts, swaps, r), r);
    if r.rules.linkedTemplates then served else InlinedText(served, r.defines)
  }

  /** Everything from the traits on. */
  method Serve(ch: Chart, parse: Parser, r: Recipe, w: Words) returns (ok: bool)
    requires ch.Valid() && ch.Coherent(parse)
    modifies ch`templates, ch`raw, ch`values, ch.templates, ch.raw
    ensures ch.Valid() && ch.Coherent(parse) && ch.name == old(ch.name)
    ensures ok <==> Parses(old(ch.RawValues()), r.traits, r.rules, w, parse)
    ensures ok ==> ch.RawValues() == FinishedText(old(ch.RawValues()), r.traits, r.rules, w)
    ensures var served := RoutedTexts(ScalingTexts(ExposureTexts(old(TextsOf(ch.templates)), r.traits), r.traits),
                                      EffectiveController(r.traits, r.controller), r.routes);
            ok ==> TextsOf(ch.templates) == if r.rules.linkedTemplates then served else InlinedText(served, r.defines)
    ensures forall i :: 0 <= i < |ch.templates| ==> ch.templates[i] in old(ch.templates) || fresh(ch.templates[i])
    ensures forall i :: 0 <= i < |ch.raw| ==> ch.raw[i] in old(ch.raw) || fresh(ch.raw[i])
  {
    ok := TailorValues(ch, parse, r.traits, r.rules, w);
    if ok {
      ghost var tailored := ch.templates;
      Conclude(ch, parse, EffectiveController(r.traits, r.controller), r.rules.linkedTemplates, r.routes, r.defines);
      forall i | 0 <= i < |ch.templates| ensures ch.templates[i] in old(ch.templates) || fresh(ch.templates[i]) {
        if j :| 0 <= j < |tailored| && tailored[j] == ch.templates[i] {}
      }
    }
  }

  /** buildSubchart but for the name. */
  method BuildNamed(ch: Chart, parse: Parser, swaps: seq<Swap>, r: Recipe, w: Words) returns (ok: bool)
    requires ch.Valid() && ch.Coherent(parse) && Replacing.Proper(swaps)
    modifies ch`templates, ch`files, ch`raw, ch`values, ch.templates, ch.files, ch.raw
    ensures ch.Valid() && ch.Coherent(parse) && ch.name == old(ch.name)
    ensures var text := Placed(old(ch.RawValues()), swaps, parse);
            && (ok <==> Parses(text, r.traits, r.rules, w, parse))
            && (ok ==> ch.RawValues() == FinishedText(text, r.traits, r.rules, w))
    ensures ok ==> TextsOf(ch.templates) == BuiltTexts(old(TextsOf(ch.templates)), swaps, r)
    ensures ch.files == if r.rules.subchartReadme then old(ch.files) else Dropped(old(ch.files), IsReadme)
    ensures forall i :: 0 <= i < |ch.templates| ==> ch.templates[i] in old(ch.templates) || fresh(ch.templates[i])
    ensures forall i :: 0 <= i < |ch.raw| ==> ch.raw[i] in old(ch.raw) || fresh(ch.raw[i])
  {
    Prepare(ch, parse, swaps, r.traits.workload, r.rules.subchartReadme, r.helpers);
    ghost var prepared, raw := ch.templates, ch.raw;
    ok := Serve(ch, parse, r, w);
    forall i | 0 <= i < |ch.templates| ensures ch.templates[i] in old(ch.templates) || fresh(ch.templates[i]) {
      if j :| 0 <= j < |prepared| && prepared[j] == ch.templates[i] {}
    }
    forall i | 0 <= i < |ch.raw| ensures ch.raw[i] in old(ch.raw) || fresh(ch.raw[i]) {
      if j :| 0 <= j < |raw| && raw[j] == ch.raw[i] {}
    }
  }

  /** The text is the template's values file in some wording. */
  ghost predicate IsTemplate(text: string, w: Words) {
    SubchartValues.Worded(w) && text == TemplateText(w)
  }

  /** The text opens exactly the keys the traits and rules call for, each once. */
  ghost predicate Listed(text: string, t: Resolved, rules: Specs.Rules) {
    TopKeys(text) == FinishedKeysOf(t, rules) && Distinct(TopKeys(text))
  }

  /**
    buildSubchart. Whichever step fails, what is saved parses to what renders; when
    none does, the values text is the template's with the placeholders replaced,
    its sections tailored and the extras and the generated block appended, no key
    of it is repeated, and the template files are known one by one.
  */
  method BuildSubchart(ch: Chart, parse: Parser, umbrella: string, name: string, r: Recipe, w: Words) returns (ok: bool)
    requires ch.Valid() && ch.Coherent(parse) && Specs.ValidName(umbrella) && Specs.ValidName(name)
    modifies ch, ch.templates, ch.files, ch.raw
    ensures ch.Valid() && ch.Coherent(parse) && ch.name == name
    ensures var text := Placed(old(ch.RawValues()), SubchartSwaps(umbrella, name), parse);
            && (ok <==> Parses(text, r.traits, r.rules, w, parse))
            && (ok ==> ch.RawValues() == FinishedText(text, r.traits, r.rules, w))
            && (ok && IsTemplate(text, w) ==> Listed(ch.RawValues(), r.traits, r.rules))
    ensures ok ==> TextsOf(ch.templates) == BuiltTexts(old(TextsOf(ch.templates)), SubchartSwaps(umbrella, name), r)
    ensures ch.files == if r.rules.subchartReadme then old(ch.files) else Dropped(old(ch.files), IsReadme)
    ensures forall i :: 0 <= i < |ch.templates| ==> ch.templates[i] in old(ch.templates) || fresh(ch.templates[i])
    ensures forall i :: 0 <= i < |ch.raw| ==> ch.raw[i] in old(ch.raw) || fresh(ch.raw[i])
  {
    ghost var text := Placed(ch.RawValues(), SubchartSwaps(umbrella, name), parse);
    BuiltKeys(text, r.traits, r.rules, w);
    ch.name := name;
    ok := BuildNamed(ch, parse, SubchartSwaps(umbrella, name), r, w);
  }

  lemma BuiltKeys(text: string, t: Resolved, rules: Specs.Rules, w: Words)
    ensures IsTemplate(text, w) ==> Listed(FinishedText(text, t, rules, w), t, rules)
  {
    if IsTemplate(text, w) { SubchartKeysAreDistinct(t, rules, w); }
  }

  // ----- the manifests by name -----------------------------------------------------------------

  /** The templates after inlining, by name: a helpers file is there in any case. */
  function WithHelpers(names: seq<Template>, linked: bool): seq<Template> {
    if linked || Other(HELPERS) in names then names else names + [Other(HELPERS)]
  }

  lemma HelpersAreOther(path: string)
    ensures TemplateOf(path) == Other(HELPERS) <==> path == HELPERS
  {
    assert HELPERS[10] == '_';
  }

  lemma {:induction false} NamesInlined(texts: Texts, defines: string)
    ensures NamesIn(InlinedText(texts, defines)) == WithHelpers(NamesIn(texts), false)
  {
    HelpersAreOther(HELPERS);
    if texts != [] {
      var rest := texts[1..];
      HelpersAreOther(texts[0].0);
      NamesInlined(rest, defines);
      assert texts == [texts[0]] + rest;
      NamesConcat([texts[0]], rest);
      NamesConcat([texts[0]], InlinedText(rest, defines));
      NamesConcat([(HELPERS, texts[0].1 + "\n" + defines)], rest);
      assert NamesIn([texts[0]]) == [TemplateOf(texts[0].0)];
    }
  }

  lemma NamesAdded(texts: Texts, t: Template, data: string)
    requires !t.Other?
    ensures NamesIn(texts + [(PathOf(t), data)]) == NamesIn(texts) + [t]
  {
    PathsAreDistinct(t, PathOf(t));
  }

  lemma NamesDroppedTwice(texts: Texts, s: Template, t: Template)
    requires !s.Other? && !t.Other?
    ensures NamesIn(DropText(DropText(texts, s), t)) == DropTemplate(DropTemplate(NamesIn(texts), s), t)
  {
    NamesDropped(texts, s);
    NamesDropped(DropText(texts, s), t);
  }

  lemma NamesAddedTwice(texts: Texts, s: Template, x: string, t: Template, y: string)
    requires !s.Other? && !t.Other?
    ensures NamesIn(texts + [(PathOf(s), x)] + [(PathOf(t), y)]) == NamesIn(texts) + [s, t]
  {
    NamesAdded(texts, s, x);
    NamesAdded(texts + [(PathOf(s), x)], t, y);
    assert NamesIn(texts) + [s] + [t] == NamesIn(texts) + [s, t];
  }

  lemma NamesOfWorkload(texts: Texts, workload: Workload)
    ensures NamesIn(WorkloadTexts(texts, workload)) == AfterWorkload(NamesIn(texts), workload)
  {
    match workload
    case Deployment =>
    case StatefulSet =>
      NamesDropped(texts, DeploymentYaml);
      NamesAddedTwice(DropText(texts, DeploymentYaml),
        StatefulsetYaml, Including("statefulset"), HeadlessServiceYaml, Including("headlessService"));
    case DaemonSet =>
      NamesDroppedTwice(texts, DeploymentYaml, HpaYaml);
      NamesAdded(DropText(DropText(texts, DeploymentYaml), HpaYaml), DaemonsetYaml, Including("daemonset"));
  }

  lemma NamesOfExposure(texts: Texts, t: Resolved)
    ensures NamesIn(ExposureTexts(texts, t)) == AfterExposure(NamesIn(texts), t)
  {
    NamesDroppedTwice(texts, ServiceYaml, NetworkPolicyYaml);
  }

  lemma NamesOfScaling(texts: Texts, t: Resolved)
    ensures NamesIn(ScalingTexts(texts, t)) == AfterScaling(NamesIn(texts), t)
  {
    NamesDropped(texts, HpaYaml);
    NamesDroppedTwice(texts, HpaYaml, PdbYaml);
  }

  lemma NamesOfIngress(texts: Texts, controller: Controller, routes: Routes)
    ensures NamesIn(RoutedTexts(texts, controller, routes)) == AfterIngress(NamesIn(texts), controller)
  {
    var kept := DropText(texts, IngressYaml);
    NamesDropped(texts, IngressYaml);
    match controller
    case NoController => assert kept + [] == kept && NamesIn(kept) + [] == NamesIn(kept);
    case Istio => NamesAdded(kept, IstioYaml, routes(Istio));
    case _ => NamesAdded(kept, IngressYaml, routes(controller));
  }

  /** By name the built templates are the manifests the traits call for, and the helpers file. */
  lemma BuiltNames(texts: Texts, swaps: seq<Swap>, r: Recipe)
    requires Replacing.Proper(swaps)
    ensures NamesIn(BuiltTexts(texts, swaps, r)) ==
              WithHelpers(Built(NamesIn(texts), r.traits, r.controller), r.rules.linkedTemplates)
  {
    var renamed := RenamedTexts(texts, swaps, r);
    var edited := EditedTexts(renamed, r.helpers);
    var tailored := ScalingTexts(ExposureTexts(edited, r.traits), r.traits);
    NamesOfWorkload(texts, r.traits.workload);
    assert NamesIn(renamed) == NamesIn(WorkloadTexts(texts, r.traits.workload));
    assert NamesIn(edited) == NamesIn(renamed);
    NamesOfExposure(edited, r.traits);
    NamesOfScaling(ExposureTexts(edited, r.traits), r.traits);
    NamesOfIngress(tailored, EffectiveController(r.traits, r.controller), r.routes);
    NamesInlined(ServedTexts(renamed, r), r.defines);
  }
}
