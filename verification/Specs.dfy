/**
  The generation spec: normalization and validation in the engine, the CR it is
  wrapped into, the CRD schema the API server holds it to, and its decoding in
  the operator.
*/
module Specs {
  import opened Prelude
  import opened Text
  import opened Traits

  datatype Subchart = Subchart(
    name: string, workload: string, description: string, pattern: string, exposure: string,
    port: int, ingress: Option<bool>, scaling: string, sharedEnv: Option<bool>)

  datatype Rules = Rules(
    ingress: string, commonAnnotations: bool, linkedTemplates: bool, resourceNames: bool, sharedSecrets: bool,
    sharedNewrelic: bool, umbrellaReadme: bool, subchartReadme: bool, includeDocs: bool, handoff: Option<bool>)

  datatype Spec = Spec(
    umbrella: string, description: string, subcharts: seq<Subchart>, rules: Rules, dependencies: seq<string>)

  const DEFAULT_RULES := Rules("alb", false, true, false, false, false, true, true, true, None)

  // ----- names and enumerations -----------------------------------------------

  predicate Alnum(c: char) {
    'a' <= c <= 'z' || '0' <= c <= '9'
  }

  /** nameRE */
  predicate ValidName(s: string) {
    && s != "" && Alnum(s[0]) && Alnum(s[|s| - 1])
    && forall c :: c in s ==> Alnum(c) || c == '-'
  }

  function WorkloadOf(s: string): Key<Workload> {
    if s == "" then Unset
    else if s == "deployment" then Is(Deployment)
    else if s == "statefulset" then Is(StatefulSet)
    else if s == "daemonset" then Is(DaemonSet)
    else Unknown(s)
  }

  function ExposureOf(s: string): Key<Exposure> {
    if s == "" then Unset
    else if s == "http" then Is(Http)
    else if s == "grpc" then Is(Grpc)
    else if s == "tcp" then Is(Tcp)
    else if s == "none" then Is(NoExposure)
    else Unknown(s)
  }

  function ScalingOf(s: string): Key<Scaling> {
    if s == "" then Unset
    else if s == "auto" then Is(Auto)
    else if s == "fixed" then Is(Fixed)
    else if s == "singleton" then Is(Singleton)
    else Unknown(s)
  }

  function PatternOf(s: string): Key<PatternId> {
    if s == "" then Unset
    else if s == "api-microservice" then Is(ApiMicroservice)
    else if s == "grpc-service" then Is(GrpcService)
    else if s == "edge-gateway" then Is(EdgeGateway)
    else if s == "web-frontend" then Is(WebFrontend)
    else if s == "worker" then Is(WorkerPattern)
    else if s == "stream-processor" then Is(StreamProcessor)
    else if s == "scheduler" then Is(Scheduler)
    else if s == "realtime-gateway" then Is(RealtimeGateway)
    else if s == "ml-inference" then Is(MlInference)
    else if s == "webhook-ingest" then Is(WebhookIngest)
    else if s == "admin-dashboard" then Is(AdminDashboard)
    else if s == "node-agent" then Is(NodeAgent)
    else if s == "custom" then Is(Custom)
    else Unknown(s)
  }

  function ControllerOf(s: string): Option<Controller> {
    if s == "alb" then Some(Alb)
    else if s == "nginx" then Some(Nginx)
    else if s == "traefik" then Some(Traefik)
    else if s == "istio" then Some(Istio)
    else if s == "gce" then Some(Gce)
    else if s == "none" then Some(NoController)
    else None
  }

  function KeysOf(sc: Subchart): Keys {
    Keys(PatternOf(sc.pattern), WorkloadOf(sc.workload), ExposureOf(sc.exposure), sc.port,
         sc.ingress, ScalingOf(sc.scaling), sc.sharedEnv)
  }

  function WorkloadText(w: Workload): string {
    match w case Deployment => "deployment" case StatefulSet => "statefulset" case DaemonSet => "daemonset"
  }

  function ExposureText(x: Exposure): string {
    match x case Http => "http" case Grpc => "grpc" case Tcp => "tcp" case NoExposure => "none"
  }

  function ScalingText(s: Scaling): string {
    match s case Auto => "auto" case Fixed => "fixed" case Singleton => "singleton"
  }

  function PatternText(p: PatternId): string {
    match p
    case ApiMicroservice => "api-microservice"
    case GrpcService => "grpc-service"
    case EdgeGateway => "edge-gateway"
    case WebFrontend => "web-frontend"
    case WorkerPattern => "worker"
    case StreamProcessor => "stream-processor"
    case Scheduler => "scheduler"
    case RealtimeGateway => "realtime-gateway"
    case MlInference => "ml-inference"
    case WebhookIngest => "webhook-ingest"
    case AdminDashboard => "admin-dashboard"
    case NodeAgent => "node-agent"
    case Custom => "custom"
  }

  function ControllerText(c: Controller): string {
    match c
    case Alb => "alb"
    case Nginx => "nginx"
    case Traefik => "traefik"
    case Istio => "istio"
    case Gce => "gce"
    case NoController => "none"
  }

  /** Each value is written in one way, and read back from it. */
  lemma WorkloadIsRead(s: string, w: Workload)
    ensures WorkloadOf(s) == Is(w) <==> s == WorkloadText(w)
    ensures WorkloadOf(s) == Unset <==> s == ""
  {
  }

  lemma ExposureIsRead(s: string, x: Exposure)
    ensures ExposureOf(s) == Is(x) <==> s == ExposureText(x)
    ensures ExposureOf(s) == Unset <==> s == ""
  {
  }

  lemma ScalingIsRead(s: string, x: Scaling)
    ensures ScalingOf(s) == Is(x) <==> s == ScalingText(x)
    ensures ScalingOf(s) == Unset <==> s == ""
  {
  }

  lemma PatternComesBack(p: PatternId)
    ensures PatternOf(PatternText(p)) == Is(p)
  {
  }

  lemma PatternIsRead(s: string, p: PatternId)
    ensures PatternOf(s) == Is(p) <==> s == PatternText(p)
    ensures PatternOf(s) == Unset <==> s == ""
  {
    PatternComesBack(p);
    assert PatternOf(s).Is? ==> s == PatternText(PatternOf(s).value);
  }

  lemma ControllerIsRead(s: string, c: Controller)
    ensures ControllerOf(s) == Some(c) <==> s == ControllerText(c)
  {
  }

  /** How keys are written in a subchart entry. */
  function EntryOf(name: string, description: string, k: Keys): Subchart {
    Subchart(name,
      if k.workload.Is? then WorkloadText(k.workload.value) else "", description,
      if k.pattern.Is? then PatternText(k.pattern.value) else "",
      if k.exposure.Is? then ExposureText(k.exposure.value) else "", k.port, k.ingress,
      if k.scaling.Is? then ScalingText(k.scaling.value) else "", k.sharedEnv)
  }

  /** Whatever keys of the enumerations are written come back as they are. */
  lemma KeysComeBack(name: string, description: string, k: Keys)
    requires Known(k)
    ensures KeysOf(EntryOf(name, description, k)) == k
  {
    if k.workload.Is? { WorkloadIsRead(WorkloadText(k.workload.value), k.workload.value); }
    if k.pattern.Is? { PatternIsRead(PatternText(k.pattern.value), k.pattern.value); }
    if k.exposure.Is? { ExposureIsRead(ExposureText(k.exposure.value), k.exposure.value); }
    if k.scaling.Is? { ScalingIsRead(ScalingText(k.scaling.value), k.scaling.value); }
  }

  // ----- Normalize ------------------------------------------------------------

  function NormalSubchart(sc: Subchart): Subchart {
    sc.(name := Sanitize(sc.name), workload := Sanitize(sc.workload), description := TrimSpace(sc.description),
        pattern := Sanitize(sc.pattern), exposure := Sanitize(sc.exposure), scaling := Sanitize(sc.scaling))
  }

  function NormalSubcharts(scs: seq<Subchart>): (r: seq<Subchart>)
    ensures |r| == |scs| && forall i :: 0 <= i < |scs| ==> r[i] == NormalSubchart(scs[i])
  {
    seq(|scs|, i requires 0 <= i < |scs| => NormalSubchart(scs[i]))
  }

  function SanitizeAll(ss: seq<string>): (r: seq<string>)
    ensures |r| == |ss| && forall i :: 0 <= i < |ss| ==> r[i] == Sanitize(ss[i])
  {
    seq(|ss|, i requires 0 <= i < |ss| => Sanitize(ss[i]))
  }

  function Normalize(s: Spec): Spec {
    Spec(Sanitize(s.umbrella), TrimSpace(s.description), NormalSubcharts(s.subcharts),
         s.rules.(ingress := if Sanitize(s.rules.ingress) == "" then "alb" else Sanitize(s.rules.ingress)),
         SanitizeAll(s.dependencies))
  }

  /** The loops of Normalize, which overwrite the caller's slices. */
  method NormalizeSubcharts(subcharts: array<Subchart>)
    modifies subcharts
    ensures subcharts[..] == NormalSubcharts(old(subcharts[..]))
  {
    ghost var was := subcharts[..];
    for i := 0 to subcharts.Length
      invariant forall j :: 0 <= j < i ==> subcharts[j] == NormalSubchart(was[j])
      invariant forall j :: i <= j < subcharts.Length ==> subcharts[j] == was[j]
    {
      var sc := subcharts[i];
      sc := sc.(name := Sanitize(sc.name));
      sc := sc.(workload := Sanitize(sc.workload));
      sc := sc.(description := TrimSpace(sc.description));
      sc := sc.(pattern := Sanitize(sc.pattern));
      sc := sc.(exposure := Sanitize(sc.exposure));
      subcharts[i] := sc.(scaling := Sanitize(sc.scaling));
    }
  }

  method NormalizeDependencies(dependencies: array<string>)
    modifies dependencies
    ensures dependencies[..] == SanitizeAll(old(dependencies[..]))
  {
    ghost var was := dependencies[..];
    for i := 0 to dependencies.Length
      invariant forall j :: 0 <= j < i ==> dependencies[j] == Sanitize(was[j])
      invariant forall j :: i <= j < dependencies.Length ==> dependencies[j] == was[j]
    {
      dependencies[i] := Sanitize(dependencies[i]);
    }
  }

  lemma NormalSubchartTwice(sc: Subchart)
    ensures NormalSubchart(NormalSubchart(sc)) == NormalSubchart(sc)
  {
    SanitizeTwice(sc.name);
    SanitizeTwice(sc.workload);
    SanitizeTwice(sc.pattern);
    SanitizeTwice(sc.exposure);
    SanitizeTwice(sc.scaling);
    TrimSpaceTwice(sc.description);
  }

  lemma TrimSpaceTwice(s: string)
    ensures TrimSpace(TrimSpace(s)) == TrimSpace(s)
  {
    TrimTrims(s, IsSpace);
    TrimTrims(TrimSpace(s), IsSpace);
  }

  /** Normalizing again changes nothing, so the operator may normalize what the backend normalized. */
  lemma NormalizeTwice(s: Spec)
    ensures Normalize(Normalize(s)) == Normalize(s)
  {
    SanitizeTwice(s.umbrella);
    SanitizeTwice(s.rules.ingress);
    TrimSpaceTwice(s.description);
    NameIsNormal("alb");
    SubchartsTwice(s.subcharts);
    SanitizeAllTwice(s.dependencies);
  }

  lemma SubchartsTwice(scs: seq<Subchart>)
    ensures NormalSubcharts(NormalSubcharts(scs)) == NormalSubcharts(scs)
  {
    forall i | 0 <= i < |scs| ensures NormalSubchart(NormalSubchart(scs[i])) == NormalSubchart(scs[i]) {
      NormalSubchartTwice(scs[i]);
    }
  }

  lemma SanitizeAllTwice(ss: seq<string>)
    ensures SanitizeAll(SanitizeAll(ss)) == SanitizeAll(ss)
  {
    forall i | 0 <= i < |ss| ensures Sanitize(Sanitize(ss[i])) == Sanitize(ss[i]) { SanitizeTwice(ss[i]); }
  }

  /** A valid name is left alone. */
  lemma NameIsNormal(s: string)
    requires ValidName(s)
    ensures Sanitize(s) == s
  {
    TrimTrims(s, IsSpace);
    forall i | 0 <= i < |s| ensures LowerChar(s[i]) == s[i] { assert s[i] in s; }
    assert Lower(s) == s;
  }

  /** a is written like b, in other capitals and with other blanks around the words. */
  ghost predicate EntryLike(a: Subchart, b: Subchart) {
    && Spells(a.name, b.name) && Spells(a.workload, b.workload) && Spells(a.pattern, b.pattern)
    && Spells(a.exposure, b.exposure) && Spells(a.scaling, b.scaling) && Blanked(a.description, b.description)
    && a.port == b.port && a.ingress == b.ingress && a.sharedEnv == b.sharedEnv
  }

  ghost predicate Blanked(x: string, text: string) {
    exists left, right :: Padded(x, left, text, right)
  }

  ghost predicate SpecLike(a: Spec, b: Spec) {
    && Spells(a.umbrella, b.umbrella) && Blanked(a.description, b.description)
    && |a.subcharts| == |b.subcharts| && (forall i :: 0 <= i < |a.subcharts| ==> EntryLike(a.subcharts[i], b.subcharts[i]))
    && (Spells(a.rules.ingress, b.rules.ingress) || (Spells(a.rules.ingress, "") && b.rules.ingress == "alb"))
    && a.rules.(ingress := b.rules.ingress) == b.rules
    && |a.dependencies| == |b.dependencies|
    && forall i :: 0 <= i < |a.dependencies| ==> Spells(a.dependencies[i], b.dependencies[i])
  }

  lemma EntryLikeNormal(a: Subchart, b: Subchart)
    requires EntryLike(a, b) && NormalSubchart(b) == b
    ensures NormalSubchart(a) == b
  {
    SpellingIsSanitized(a.name, b.name);
    SpellingIsSanitized(a.workload, b.workload);
    SpellingIsSanitized(a.pattern, b.pattern);
    SpellingIsSanitized(a.exposure, b.exposure);
    SpellingIsSanitized(a.scaling, b.scaling);
    BlankedIsTrimmed(a.description, b.description);
  }

  lemma BlankedIsTrimmed(x: string, text: string)
    requires Blanked(x, text) && TrimSpace(text) == text
    ensures TrimSpace(x) == text
  {
    var left, right :| Padded(x, left, text, right);
    TrimTrims(text, IsSpace);
    TrimUnpads(left, text, right, IsSpace);
  }

  /**
    Every misspelling of a normal spec, in capitals and blanks, normalizes to that
    spec; so it is accepted exactly if the well-spelled one is.
  */
  lemma MisspelledIsNormalized(a: Spec, b: Spec)
    requires SpecLike(a, b) && Normalize(b) == b
    ensures Normalize(a) == b && (Valid(Normalize(a)) <==> Valid(b))
  {
    SpellingIsSanitized(a.umbrella, b.umbrella);
    BlankedIsTrimmed(a.description, b.description);
    IngressLikeNormal(a.rules.ingress, b.rules.ingress);
    forall i | 0 <= i < |a.subcharts| ensures NormalSubchart(a.subcharts[i]) == b.subcharts[i] {
      assert NormalSubcharts(b.subcharts)[i] == b.subcharts[i];
      EntryLikeNormal(a.subcharts[i], b.subcharts[i]);
    }
    assert NormalSubcharts(a.subcharts) == b.subcharts;
    forall i | 0 <= i < |a.dependencies| ensures Sanitize(a.dependencies[i]) == b.dependencies[i] {
      assert SanitizeAll(b.dependencies)[i] == b.dependencies[i];
      SpellingIsSanitized(a.dependencies[i], b.dependencies[i]);
    }
    assert SanitizeAll(a.dependencies) == b.dependencies;
  }

  lemma IngressLikeNormal(x: string, y: string)
    requires Spells(x, y) || (Spells(x, "") && y == "alb")
    requires y == if Sanitize(y) == "" then "alb" else Sanitize(y)
    ensures y == if Sanitize(x) == "" then "alb" else Sanitize(x)
  {
    NameIsNormal("alb");
    if Spells(x, y) {
      SpellingIsSanitized(x, y);
    } else {
      assert Sanitize("") == "";
      SpellingIsSanitized(x, "");
    }
  }

  // ----- Validate --------------------------------------------------------------

  datatype Problem = BadName | Reserved | Duplicate | BadTraits(blame: Blame)

  datatype Invalid = BadUmbrella | NoSubcharts | BadIngress | AtSubchart(index: nat, problem: Problem)

  predicate Clashes(scs: seq<Subchart>, i: nat)
    requires i < |scs|
  {
    exists j :: 0 <= j < i && scs[j].name == scs[i].name
  }

  predicate ValidAt(scs: seq<Subchart>, i: nat, controller: Controller)
    requires i < |scs|
  {
    && ValidName(scs[i].name) && scs[i].name != "global" && !Clashes(scs, i)
    && Resolve(KeysOf(scs[i]), controller).Ok?
  }

  /** What Validate promises of a spec it accepts. */
  predicate Valid(s: Spec) {
    && ValidName(s.umbrella) && s.subcharts != [] && ControllerOf(s.rules.ingress).Some?
    && forall i :: 0 <= i < |s.subcharts| ==> ValidAt(s.subcharts, i, ControllerOf(s.rules.ingress).value)
  }

  predicate HasProblem(scs: seq<Subchart>, i: nat, controller: Controller, p: Problem)
    requires i < |scs|
  {
    match p
    case BadName => !ValidName(scs[i].name)
    case Reserved => ValidName(scs[i].name) && scs[i].name == "global"
    case Duplicate => ValidName(scs[i].name) && scs[i].name != "global" && Clashes(scs, i)
    case BadTraits(b) =>
      && ValidName(scs[i].name) && scs[i].name != "global" && !Clashes(scs, i)
      && Resolve(KeysOf(scs[i]), controller) == Err(b)
  }

  /** The problem is really there, and nothing before it is wrong. */
  predicate FirstProblem(s: Spec, e: Invalid) {
    match e
    case BadUmbrella => !ValidName(s.umbrella)
    case NoSubcharts => ValidName(s.umbrella) && s.subcharts == []
    case BadIngress => ValidName(s.umbrella) && s.subcharts != [] && ControllerOf(s.rules.ingress).None?
    case AtSubchart(i, p) =>
      && ValidName(s.umbrella) && i < |s.subcharts| && ControllerOf(s.rules.ingress).Some?
      && var controller := ControllerOf(s.rules.ingress).value;
         && (forall j :: 0 <= j < i ==> ValidAt(s.subcharts, j, controller))
         && HasProblem(s.subcharts, i, controller, p)
  }

  /** A subchart entry is valid exactly if it has no problem. */
  lemma NoProblem(scs: seq<Subchart>, i: nat, controller: Controller)
    requires i < |scs|
    ensures ValidAt(scs, i, controller) <==> forall p :: !HasProblem(scs, i, controller, p)
  {
    var r := Resolve(KeysOf(scs[i]), controller);
    assert ValidAt(scs, i, controller) || HasProblem(scs, i, controller, BadName) || HasProblem(scs, i, controller, Reserved)
        || HasProblem(scs, i, controller, Duplicate) || (r.Err? && HasProblem(scs, i, controller, BadTraits(r.error)));
  }

  /** Validate accepts exactly the valid specs and otherwise reports the first problem. */
  method Validate(s: Spec) returns (e: Option<Invalid>)
    ensures e.None? ==> Valid(s)
    ensures e.Some? ==> FirstProblem(s, e.value) && !Valid(s)
  {
    if !ValidName(s.umbrella) { return Some(BadUmbrella); }
    if s.subcharts == [] { return Some(NoSubcharts); }
    if ControllerOf(s.rules.ingress).None? { return Some(BadIngress); }
    var controller := ControllerOf(s.rules.ingress).value;
    var seen: set<string> := {};
    for i := 0 to |s.subcharts|
      invariant forall j :: 0 <= j < i ==> ValidAt(s.subcharts, j, controller)
      invariant forall n :: n in seen <==> exists j :: 0 <= j < i && s.subcharts[j].name == n
    {
      var sc := s.subcharts[i];
      NoProblem(s.subcharts, i, controller);
      assert sc.name in seen <==> Clashes(s.subcharts, i);
      if !ValidName(sc.name) { return Some(AtSubchart(i, BadName)); }
      if sc.name == "global" { return Some(AtSubchart(i, Reserved)); }
      if sc.name in seen { return Some(AtSubchart(i, Duplicate)); }
      seen := seen + {sc.name};
      var rt := Resolve(KeysOf(sc), controller);
      if rt.Err? { return Some(AtSubchart(i, BadTraits(rt.error))); }
    }
    return None;
  }
}
