/**
  What one subchart ships: its manifests and the sections of its values text, as
  applyWorkload, applyTraits and applyIngress leave them.
*/
module Subcharts {
  import opened Prelude
  import opened Text
  import opened BlankRuns
  import opened Sections
  import opened Traits

  /** The template files the engine knows by name; everything else is Other. */
  datatype Template =
    | DeploymentYaml | StatefulsetYaml | HeadlessServiceYaml | DaemonsetYaml
    | HpaYaml | PdbYaml | ServiceYaml | NetworkPolicyYaml | IngressYaml | IstioYaml
    | Other(name: string)

  /** Where a known template lives. */
  function PathOf(t: Template): string {
    match t
    case DeploymentYaml => "templates/deployment.yaml"
    case StatefulsetYaml => "templates/statefulset.yaml"
    case HeadlessServiceYaml => "templates/headless-service.yaml"
    case DaemonsetYaml => "templates/daemonset.yaml"
    case HpaYaml => "templates/hpa.yaml"
    case PdbYaml => "templates/pdb.yaml"
    case ServiceYaml => "templates/service.yaml"
    case NetworkPolicyYaml => "templates/networkPolicy.yaml"
    case IngressYaml => "templates/ingress.yaml"
    case IstioYaml => "templates/istio.yaml"
    case Other(path) => path
  }

  function TemplateOf(path: string): (t: Template)
    ensures PathOf(t) == path
  {
    if path == PathOf(DeploymentYaml) then DeploymentYaml
    else if path == PathOf(StatefulsetYaml) then StatefulsetYaml
    else if path == PathOf(HeadlessServiceYaml) then HeadlessServiceYaml
    else if path == PathOf(DaemonsetYaml) then DaemonsetYaml
    else if path == PathOf(HpaYaml) then HpaYaml
    else if path == PathOf(PdbYaml) then PdbYaml
    else if path == PathOf(ServiceYaml) then ServiceYaml
    else if path == PathOf(NetworkPolicyYaml) then NetworkPolicyYaml
    else if path == PathOf(IngressYaml) then IngressYaml
    else if path == PathOf(IstioYaml) then IstioYaml
    else Other(path)
  }

  /** Known templates have paths of their own. */
  lemma PathsAreDistinct(t: Template, path: string)
    requires !t.Other?
    ensures TemplateOf(path) == t <==> path == PathOf(t)
  {
    assert PathOf(HpaYaml)[10] != PathOf(PdbYaml)[10];
    assert PathOf(ServiceYaml)[10] != PathOf(IngressYaml)[10];
  }

  // ----- dropFile -----------------------------------------------------------------

  function Dropped<F>(files: seq<F>, pred: F -> bool): seq<F> {
    if files == [] then []
    else if pred(files[0]) then Dropped(files[1..], pred)
    else [files[0]] + Dropped(files[1..], pred)
  }

  lemma {:induction false} DroppedConcat<F>(a: seq<F>, b: seq<F>, pred: F -> bool)
    ensures Dropped(a + b, pred) == Dropped(a, pred) + Dropped(b, pred)
  {
    if a == [] {
      assert a + b == b;
    } else {
      assert (a + b)[1..] == a[1..] + b;
      DroppedConcat(a[1..], b, pred);
    }
  }

  lemma DroppedNext<F>(files: seq<F>, i: nat, pred: F -> bool)
    requires i < |files|
    ensures Dropped(files[..i + 1], pred) == Dropped(files[..i], pred) + if pred(files[i]) then [] else [files[i]]
  {
    assert files[..i + 1] == files[..i] + [files[i]];
    DroppedConcat(files[..i], [files[i]], pred);
  }

  /** dropFile: compact the slice in place; the kept prefix is the filter of what was there. */
  method DropFile<F>(files: array<F>, pred: F -> bool) returns (kept: nat)
    modifies files
    ensures kept <= files.Length && files[..kept] == Dropped(old(files[..]), pred)
  {
    kept := 0;
    ghost var was := files[..];
    for i := 0 to files.Length
      invariant kept <= i && forall j :: i <= j < files.Length ==> files[j] == was[j]
      invariant files[..kept] == Dropped(was[..i], pred)
    {
      DroppedNext(was, i, pred);
      if !pred(files[i]) {
        ghost var before := files[..kept];
        files[kept] := files[i];
        kept := kept + 1;
        assert files[..kept] == before + [was[i]];
      }
    }
    assert was[..files.Length] == was;
  }

  function DropTemplate(names: seq<Template>, name: Template): seq<Template> {
    Dropped(names, n => n == name)
  }

  // ----- values text -----------------------------------------------------------------

  /** The generated blocks; their wording is not part of the model. */
  datatype Block =
    | ServiceBlock(port: int, exposure: Exposure) | GrpcProbes | TcpProbes | WorkerProbes
    | FixedPodCount(pattern: PatternId) | SingletonPodCount(workload: Workload)

  type Wording = Block -> string

  function ExposureEdits(t: Resolved, w: Wording): seq<Edit> {
    match t.exposure
    case Http => if t.port == PORT_HTTP then [] else [Replace("service", w(ServiceBlock(t.port, Http)))]
    case Grpc => [Replace("service", w(ServiceBlock(t.port, Grpc))), Replace("probes", w(GrpcProbes))]
    case Tcp => [Replace("service", w(ServiceBlock(t.port, Tcp))), Replace("probes", w(TcpProbes))]
    case NoExposure => [Edit.Drop("service"), Edit.Drop("networkPolicy"), Replace("probes", w(WorkerProbes))]
  }

  function ScalingEdits(t: Resolved, w: Wording): seq<Edit> {
    match t.scaling
    case Auto => []
    case Fixed => [Replace("podCount", w(FixedPodCount(t.pattern)))]
    case Singleton => [Replace("podCount", w(SingletonPodCount(t.workload))), Edit.Drop("pdb")]
  }

  function RouteEdits(t: Resolved): seq<Edit> {
    if t.ingress then [] else [Edit.Drop("ingress")]
  }

  /** The traits in the order applyTraits takes them. */
  datatype Step = Expose | Route | Scale

  function StepEdits(steps: seq<Step>, t: Resolved, w: Wording): seq<Edit>
    decreases |steps|, t
  {
    if steps == [] then []
    else if |steps| > 1 then StepEdits(steps[..1], t, w) + StepEdits(steps[1..], t, w)
    else match steps[0] case Expose => ExposureEdits(t, w) case Route => RouteEdits(t) case Scale => ScalingEdits(t, w)
  }

  /** The section edits of applyTraits, in its order. */
  function TraitEdits(t: Resolved, w: Wording): seq<Edit> {
    StepEdits([Expose, Route, Scale], t, w)
  }

  lemma TraitEditsAre(t: Resolved, w: Wording)
    ensures TraitEdits(t, w) == ExposureEdits(t, w) + RouteEdits(t) + ScalingEdits(t, w)
  {
    assert [Expose, Route, Scale][..1] == [Expose] && [Expose, Route, Scale][1..] == [Route, Scale];
    assert [Route, Scale][..1] == [Route] && [Route, Scale][1..] == [Scale];
    calc {
      TraitEdits(t, w);
      StepEdits([Expose], t, w) + StepEdits([Route, Scale], t, w);
      ExposureEdits(t, w) + (RouteEdits(t) + ScalingEdits(t, w));
      ExposureEdits(t, w) + RouteEdits(t) + ScalingEdits(t, w);
    }
  }

  lemma EditOne(text: string, a: Edit)
    ensures EditTextAll(text, [a]) == EditText(text, a)
  {
    assert [a][..0] == [];
  }

  lemma {:induction false} EditsCompose(text: string, a: seq<Edit>, b: seq<Edit>)
    ensures EditTextAll(text, a + b) == EditTextAll(EditTextAll(text, a), b)
    decreases |b|
  {
    if b == [] {
      assert a + b == a;
    } else {
      assert (a + b)[..|a + b| - 1] == a + b[..|b| - 1];
      EditsCompose(text, a, b[..|b| - 1]);
    }
  }

  lemma EditTwo(text: string, a: Edit, b: Edit)
    ensures EditTextAll(text, [a, b]) == EditText(EditText(text, a), b)
  {
    assert [a, b] == [a] + [b];
    EditsCompose(text, [a], [b]);
    EditOne(text, a);
    EditOne(EditText(text, a), b);
  }

  lemma EditThree(text: string, a: Edit, b: Edit, c: Edit)
    ensures EditTextAll(text, [a, b, c]) == EditText(EditText(EditText(text, a), b), c)
  {
    assert [a, b, c] == [a, b] + [c];
    EditsCompose(text, [a, b], [c]);
    EditTwo(text, a, b);
    EditOne(EditText(EditText(text, a), b), c);
  }

  // ----- templates ---------------------------------------------------------------------

  function AfterWorkload(names: seq<Template>, workload: Workload): seq<Template> {
    match workload
    case Deployment => names
    case StatefulSet => DropTemplate(names, DeploymentYaml) + [StatefulsetYaml, HeadlessServiceYaml]
    case DaemonSet => DropTemplate(DropTemplate(names, DeploymentYaml), HpaYaml) + [DaemonsetYaml]
  }

  function AfterExposure(names: seq<Template>, t: Resolved): seq<Template> {
    if t.exposure == NoExposure then DropTemplate(DropTemplate(names, ServiceYaml), NetworkPolicyYaml) else names
  }

  function AfterScaling(names: seq<Template>, t: Resolved): seq<Template> {
    match t.scaling
    case Auto => names
    case Fixed => DropTemplate(names, HpaYaml)
    case Singleton => DropTemplate(DropTemplate(names, HpaYaml), PdbYaml)
  }

  function EffectiveController(t: Resolved, controller: Controller): Controller {
    if t.ingress then controller else NoController
  }

  function AfterIngress(names: seq<Template>, controller: Controller): seq<Template> {
    DropTemplate(names, IngressYaml) +
    match controller
    case NoController => []
    case Istio => [IstioYaml]
    case _ => [IngressYaml]
  }

  /** The manifests buildSubchart leaves. */
  function Built(names: seq<Template>, t: Resolved, controller: Controller): seq<Template> {
    AfterIngress(AfterScaling(AfterExposure(AfterWorkload(names, t.workload), t), t), EffectiveController(t, controller))
  }

  // ----- the exact manifest set ---------------------------------------------------------

  function Count(names: seq<Template>, name: Template): nat {
    if names == [] then 0 else (if names[0] == name then 1 else 0) + Count(names[1..], name)
  }

  lemma {:induction false} CountConcat(a: seq<Template>, b: seq<Template>, name: Template)
    ensures Count(a + b, name) == Count(a, name) + Count(b, name)
  {
    if a == [] {
      assert a + b == b;
    } else {
      assert (a + b)[1..] == a[1..] + b;
      CountConcat(a[1..], b, name);
    }
  }

  lemma {:induction false} CountDropped(names: seq<Template>, dropped: Template, name: Template)
    ensures Count(DropTemplate(names, dropped), name) == if name == dropped then 0 else Count(names, name)
  {
    if names != [] {
      CountDropped(names[1..], dropped, name);
      var d := DropTemplate(names, dropped);
      assert names[0] != dropped ==> d[1..] == DropTemplate(names[1..], dropped);
    }
  }

  /** Which of the known manifests the resolved traits call for. */
  predicate Ships(t: Resolved, controller: Controller, name: Template)
    requires !name.Other?
  {
    match name
    case DeploymentYaml => t.workload == Deployment
    case StatefulsetYaml => t.workload == StatefulSet
    case HeadlessServiceYaml => t.workload == StatefulSet
    case DaemonsetYaml => t.workload == DaemonSet
    case HpaYaml => t.scaling == Auto
    case PdbYaml => t.scaling != Singleton
    case ServiceYaml => t.exposure != NoExposure
    case NetworkPolicyYaml => t.exposure != NoExposure
    case IngressYaml => t.ingress && controller != Istio
    case IstioYaml => t.ingress && controller == Istio
  }

  /** The subchart template directory: each optional manifest once, none of the generated ones. */
  predicate TemplateDirectory(names: seq<Template>) {
    && (forall n :: n in {DeploymentYaml, HpaYaml, PdbYaml, ServiceYaml, NetworkPolicyYaml, IngressYaml} ==> Count(names, n) == 1)
    && (forall n :: n in {StatefulsetYaml, HeadlessServiceYaml, DaemonsetYaml, IstioYaml} ==> Count(names, n) == 0)
  }

  lemma CountAfterWorkload(names: seq<Template>, workload: Workload, name: Template)
    requires TemplateDirectory(names)
    ensures Count(AfterWorkload(names, workload), name) ==
              match name
              case DeploymentYaml => (if workload == Deployment then 1 else 0)
              case StatefulsetYaml => (if workload == StatefulSet then 1 else 0)
              case HeadlessServiceYaml => (if workload == StatefulSet then 1 else 0)
              case DaemonsetYaml => (if workload == DaemonSet then 1 else 0)
              case HpaYaml => (if workload == DaemonSet then 0 else 1)
              case _ => Count(names, name)
  {
    var d := DropTemplate(names, DeploymentYaml);
    CountDropped(names, DeploymentYaml, name);
    CountDropped(d, HpaYaml, name);
    CountConcat(d, [StatefulsetYaml, HeadlessServiceYaml], name);
    assert [StatefulsetYaml, HeadlessServiceYaml] == [StatefulsetYaml] + [HeadlessServiceYaml];
    CountConcat([StatefulsetYaml], [HeadlessServiceYaml], name);
    CountConcat(DropTemplate(d, HpaYaml), [DaemonsetYaml], name);
  }

  lemma CountAfterExposure(names: seq<Template>, t: Resolved, name: Template)
    ensures Count(AfterExposure(names, t), name) ==
              if t.exposure == NoExposure && name in {ServiceYaml, NetworkPolicyYaml} then 0 else Count(names, name)
  {
    CountDropped(names, ServiceYaml, name);
    CountDropped(DropTemplate(names, ServiceYaml), NetworkPolicyYaml, name);
  }

  lemma CountAfterScaling(names: seq<Template>, t: Resolved, name: Template)
    ensures Count(AfterScaling(names, t), name) ==
              if (t.scaling != Auto && name == HpaYaml) || (t.scaling == Singleton && name == PdbYaml) then 0
              else Count(names, name)
  {
    CountDropped(names, HpaYaml, name);
    CountDropped(DropTemplate(names, HpaYaml), PdbYaml, name);
  }

  lemma CountAfterIngress(names: seq<Template>, controller: Controller, name: Template)
    ensures Count(AfterIngress(names, controller), name) ==
              if name == IngressYaml then (if controller == NoController || controller == Istio then 0 else 1)
              else Count(names, name) + (if name == IstioYaml && controller == Istio then 1 else 0)
  {
    var rest := DropTemplate(names, IngressYaml);
    assert rest + [] == rest;
    CountDropped(names, IngressYaml, name);
    CountConcat(rest, [IstioYaml], name);
    CountConcat(rest, [IngressYaml], name);
  }

  /** Every known manifest ships exactly once if the traits call for it, and not at all otherwise. */
  lemma ExactManifestSet(names: seq<Template>, t: Resolved, controller: Controller, name: Template)
    requires TemplateDirectory(names) && Coherent(t, controller)
    ensures var built := Built(names, t, controller);
            if name.Other? then Count(built, name) == Count(names, name)
            else Count(built, name) == if Ships(t, controller, name) then 1 else 0
  {
    var f1 := AfterWorkload(names, t.workload);
    var f2 := AfterExposure(f1, t);
    var f3 := AfterScaling(f2, t);
    CountAfterWorkload(names, t.workload, name);
    CountAfterExposure(f1, t, name);
    CountAfterScaling(f2, t, name);
    CountAfterIngress(f3, EffectiveController(t, controller), name);
    assert Built(names, t, controller) == AfterIngress(f3, EffectiveController(t, controller));
  }

  /** Exactly one workload manifest, whatever the traits. */
  lemma OneWorkloadManifest(names: seq<Template>, t: Resolved, controller: Controller)
    requires TemplateDirectory(names) && Coherent(t, controller)
    ensures var built := Built(names, t, controller);
            Count(built, DeploymentYaml) + Count(built, StatefulsetYaml) + Count(built, DaemonsetYaml) == 1
  {
    ExactManifestSet(names, t, controller, DeploymentYaml);
    ExactManifestSet(names, t, controller, StatefulsetYaml);
    ExactManifestSet(names, t, controller, DaemonsetYaml);
  }

  // ----- the sections that ship ---------------------------------------------------------

  /** Whether the manifest that reads a section of that name ships; other sections are read by every workload. */
  predicate Served(built: seq<Template>, section: string) {
    if section == "service" then Count(built, ServiceYaml) == 1
    else if section == "networkPolicy" then Count(built, NetworkPolicyYaml) == 1
    else if section == "ingress" then Count(built, IngressYaml) + Count(built, IstioYaml) == 1
    else if section == "pdb" then Count(built, PdbYaml) == 1
    else true
  }

  /** The block generated for a section, if the traits ask for another than the template's. */
  function Replacement(t: Resolved, section: string): Option<Block> {
    if section == "service" then
      if t.exposure == Http && t.port == PORT_HTTP then None else Some(ServiceBlock(t.port, t.exposure))
    else if section == "probes" then
      (match t.exposure
       case Http => None
       case Grpc => Some(GrpcProbes)
       case Tcp => Some(TcpProbes)
       case NoExposure => Some(WorkerProbes))
    else if section == "podCount" then
      (match t.scaling
       case Auto => None
       case Fixed => Some(FixedPodCount(t.pattern))
       case Singleton => Some(SingletonPodCount(t.workload)))
    else None
  }

  function BlockLines(w: Wording, b: Block): seq<string> {
    Split(TrimRight(w(b), IsNewline))
  }

  /** What a section holds in a subchart that ships these manifests: nothing, the generated block, or what it held. */
  function Content(built: seq<Template>, t: Resolved, w: Wording, section: string, body: seq<string>): seq<string> {
    if !Served(built, section) then []
    else match Replacement(t, section) case None => body case Some(b) => BlockLines(w, b)
  }

  /** The lines of a document with the content of each section read off the manifests. */
  function ShippedLines(d: Doc, built: seq<Template>, t: Resolved, w: Wording): seq<string> {
    match d
    case Tail(ls) => ls
    case Sect(ls, name, body, rest) => ls + Content(built, t, w, name, body) + ShippedLines(rest, built, t, w)
  }

  lemma ExposureFate(t: Resolved, w: Wording, name: string)
    ensures Fate(ExposureEdits(t, w), name) ==
              if t.exposure == NoExposure && (name == "service" || name == "networkPolicy") then Some([])
              else if name == "service" || name == "probes" then
                (match Replacement(t, name) case None => None case Some(b) => Some(BlockLines(w, b)))
              else None
  {
    var es := ExposureEdits(t, w);
    if |es| == 2 {
      assert es == [es[0]] + [es[1]];
      FateConcat([es[0]], [es[1]], name);
    } else if |es| == 3 {
      assert es == [es[0]] + ([es[1]] + [es[2]]);
      FateConcat([es[0]], [es[1]] + [es[2]], name);
      FateConcat([es[1]], [es[2]], name);
    }
  }

  lemma ScalingFate(t: Resolved, w: Wording, name: string)
    ensures Fate(ScalingEdits(t, w), name) ==
              if t.scaling == Singleton && name == "pdb" then Some([])
              else if name == "podCount" then
                (match Replacement(t, name) case None => None case Some(b) => Some(BlockLines(w, b)))
              else None
  {
    var es := ScalingEdits(t, w);
    if |es| == 2 {
      assert es == [es[0]] + [es[1]];
      FateConcat([es[0]], [es[1]], name);
    }
  }

  /** Which of the sections have lost their reader. */
  predicate Unread(t: Resolved, section: string) {
    || (t.exposure == NoExposure && (section == "service" || section == "networkPolicy"))
    || (!t.ingress && section == "ingress")
    || (t.scaling == Singleton && section == "pdb")
  }

  lemma TraitFate(t: Resolved, w: Wording, name: string)
    ensures Fate(TraitEdits(t, w), name) ==
              if Unread(t, name) then Some([])
              else match Replacement(t, name) case None => None case Some(b) => Some(BlockLines(w, b))
  {
    TraitEditsAre(t, w);
    ExposureFate(t, w, name);
    ScalingFate(t, w, name);
    FateConcat(ExposureEdits(t, w) + RouteEdits(t), ScalingEdits(t, w), name);
    FateConcat(ExposureEdits(t, w), RouteEdits(t), name);
  }

  /** Section by section, what applyTraits does to it under which traits. */
  lemma SectionsByTrait(t: Resolved, w: Wording, other: string)
    requires other !in {"service", "networkPolicy", "ingress", "probes", "podCount", "pdb"}
    ensures var es := TraitEdits(t, w);
            && Fate(es, "service") == (if t.exposure == NoExposure then Some([])
                                       else if t.exposure == Http && t.port == 8080 then None
                                       else Some(BlockLines(w, ServiceBlock(t.port, t.exposure))))
            && Fate(es, "networkPolicy") == (if t.exposure == NoExposure then Some([]) else None)
            && Fate(es, "ingress") == (if t.ingress then None else Some([]))
            && Fate(es, "pdb") == (if t.scaling == Singleton then Some([]) else None)
            && Fate(es, other) == None
    ensures Fate(TraitEdits(t, w), "probes") ==
              match t.exposure
              case Http => None
              case Grpc => Some(BlockLines(w, GrpcProbes))
              case Tcp => Some(BlockLines(w, TcpProbes))
              case NoExposure => Some(BlockLines(w, WorkerProbes))
    ensures Fate(TraitEdits(t, w), "podCount") ==
              match t.scaling
              case Auto => None
              case Fixed => Some(BlockLines(w, FixedPodCount(t.pattern)))
              case Singleton => Some(BlockLines(w, SingletonPodCount(t.workload)))
  {
    TraitFate(t, w, "service");
    TraitFate(t, w, "networkPolicy");
    TraitFate(t, w, "ingress");
    TraitFate(t, w, "probes");
    TraitFate(t, w, "podCount");
    TraitFate(t, w, "pdb");
    TraitFate(t, w, other);
  }

  lemma ServedIff(names: seq<Template>, t: Resolved, controller: Controller, section: string)
    requires TemplateDirectory(names) && Coherent(t, controller)
    ensures Served(Built(names, t, controller), section) <==> !Unread(t, section)
  {
    ExactManifestSet(names, t, controller, ServiceYaml);
    ExactManifestSet(names, t, controller, NetworkPolicyYaml);
    ExactManifestSet(names, t, controller, IngressYaml);
    ExactManifestSet(names, t, controller, IstioYaml);
    ExactManifestSet(names, t, controller, PdbYaml);
  }

  /** The edits of applyTraits drop or replace each section as the shipped manifests say. */
  lemma FateFollowsManifests(names: seq<Template>, t: Resolved, controller: Controller, w: Wording,
                             name: string, body: seq<string>)
    requires TemplateDirectory(names) && Coherent(t, controller)
    ensures (match Fate(TraitEdits(t, w), name) case None => body case Some(block) => block)
            == Content(Built(names, t, controller), t, w, name, body)
  {
    TraitFate(t, w, name);
    ServedIff(names, t, controller, name);
  }

  lemma {:induction false} SettledShips(d: Doc, names: seq<Template>, t: Resolved, controller: Controller, w: Wording)
    requires TemplateDirectory(names) && Coherent(t, controller)
    ensures PrintPlain(Settle(d, TraitEdits(t, w))) == ShippedLines(d, Built(names, t, controller), t, w)
  {
    if d.Sect? {
      SettledShips(d.rest, names, t, controller, w);
      FateFollowsManifests(names, t, controller, w, d.name, d.body);
      match Fate(TraitEdits(t, w), d.name)
      case None =>
      case Some(block) => PrintPrepend(d.lines + block, Settle(d.rest, TraitEdits(t, w)));
    }
  }

  /**
    The values text that ships holds each section of the template exactly when the
    manifest that reads it ships: service and networkPolicy, the ingress of either
    kind, the disruption budget. Sections that are not dropped hold what they held,
    or the block the traits call for, and everything outside sections stays.
  */
  lemma SectionsFollowManifests(text: string, names: seq<Template>, t: Resolved, controller: Controller, w: Wording)
    requires Sectioned(text) && PlainBlocks(TraitEdits(t, w))
    requires TemplateDirectory(names) && Coherent(t, controller)
    ensures Tailor(text, TraitEdits(t, w)) ==
              Squeeze(Join(ShippedLines(DocOf(text), Built(names, t, controller), t, w) + [LastLine(text)]), 0)
  {
    SurgeryIsDocumentEditing(text, TraitEdits(t, w));
    EditsAreFates(DocOf(text), TraitEdits(t, w));
    SettledShips(DocOf(text), names, t, controller, w);
  }

  // ----- the preview ------------------------------------------------------------------------

  function WorkloadYaml(workload: Workload): Template {
    match workload case Deployment => DeploymentYaml case StatefulSet => StatefulsetYaml case DaemonSet => DaemonsetYaml
  }

  /** subchartManifests in the web client. */
  function Preview(t: Resolved): seq<Template> {
    [WorkloadYaml(t.workload)]
    + (if t.exposure != NoExposure then [ServiceYaml] else [])
    + (if t.ingress then [IngressYaml] else [])
    + (if t.scaling == Auto && t.workload != DaemonSet then [HpaYaml] else [])
    + (if t.exposure != NoExposure then [NetworkPolicyYaml] else [])
  }

  /** The preview names an istio manifest ingress.yaml. */
  function PreviewName(name: Template): Template {
    if name == IstioYaml then IngressYaml else name
  }

  /** The preview lists exactly the manifests that ship, but for the two it never lists. */
  lemma PreviewIsExact(names: seq<Template>, t: Resolved, controller: Controller, name: Template)
    requires TemplateDirectory(names) && Coherent(t, controller) && !name.Other?
    ensures name in Preview(t) <==>
              name != PdbYaml && name != HeadlessServiceYaml &&
              exists shipped: Template :: !shipped.Other? && PreviewName(shipped) == name
                                          && Count(Built(names, t, controller), shipped) == 1
  {
    ExactManifestSet(names, t, controller, name);
    ExactManifestSet(names, t, controller, IstioYaml);
    PreviewShips(t, controller, name);
    if name in Preview(t) {
      var shipped := if name == IngressYaml && controller == Istio then IstioYaml else name;
      assert PreviewName(shipped) == name && Count(Built(names, t, controller), shipped) == 1;
    }
  }

  lemma PreviewShips(t: Resolved, controller: Controller, name: Template)
    requires Coherent(t, controller) && !name.Other?
    ensures name in Preview(t) <==>
              && name != PdbYaml && name != HeadlessServiceYaml && name != IstioYaml
              && (Ships(t, controller, name) || (name == IngressYaml && Ships(t, controller, IstioYaml)))
  {
  }
}
