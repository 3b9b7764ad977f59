/**
  Trait resolution in the engine, its mirror in the web client, and the form's
  edits of one row.
*/
module Traits {
  import opened Prelude

  datatype Workload = Deployment | StatefulSet | DaemonSet
  datatype Exposure = Http | Grpc | Tcp | NoExposure
  datatype Scaling = Auto | Fixed | Singleton
  datatype Controller = Alb | Nginx | Traefik | Istio | Gce | NoController

  datatype PatternId =
    | ApiMicroservice | GrpcService | EdgeGateway | WebFrontend | WorkerPattern | StreamProcessor
    | Scheduler | RealtimeGateway | MlInference | WebhookIngest | AdminDashboard | NodeAgent | Custom

  /** A key as written: absent, outside its enumeration, or a value of it. */
  datatype Key<+T> = Unset | Unknown(text: string) | Is(value: T)

  /** The pattern and trait keys one subchart entry carries; port 0 and absent booleans mean unset. */
  datatype Keys = Keys(
    pattern: Key<PatternId>, workload: Key<Workload>, exposure: Key<Exposure>, port: int,
    ingress: Option<bool>, scaling: Key<Scaling>, sharedEnv: Option<bool>)

  datatype Defaults = Defaults(workload: Workload, exposure: Exposure, ingress: bool, scaling: Scaling, sharedEnv: bool)

  /** The pattern registry. */
  function PatternDefaults(p: PatternId): Defaults {
    match p
    case ApiMicroservice => Defaults(Deployment, Http, true, Auto, true)
    case GrpcService => Defaults(Deployment, Grpc, false, Auto, true)
    case EdgeGateway => Defaults(Deployment, Http, true, Auto, true)
    case WebFrontend => Defaults(Deployment, Http, true, Auto, false)
    case WorkerPattern => Defaults(Deployment, NoExposure, false, Auto, true)
    case StreamProcessor => Defaults(Deployment, NoExposure, false, Fixed, true)
    case Scheduler => Defaults(Deployment, NoExposure, false, Singleton, true)
    case RealtimeGateway => Defaults(Deployment, Http, true, Fixed, true)
    case MlInference => Defaults(Deployment, Http, false, Fixed, true)
    case WebhookIngest => Defaults(Deployment, Http, true, Auto, true)
    case AdminDashboard => Defaults(Deployment, Http, true, Fixed, true)
    case NodeAgent => Defaults(DaemonSet, NoExposure, false, Fixed, false)
    case Custom => Defaults(Deployment, Http, true, Auto, true)
  }

  /** The registry read column by column: which patterns default to what. */
  lemma RegistryByTrait(p: PatternId)
    ensures var d := PatternDefaults(p);
            && (d.workload == DaemonSet <==> p == NodeAgent) && d.workload != StatefulSet
            && (d.exposure == NoExposure <==> p in {WorkerPattern, StreamProcessor, Scheduler, NodeAgent})
            && (d.exposure == Grpc <==> p == GrpcService) && d.exposure != Tcp
            && (d.ingress <==> d.exposure == Http && p != MlInference)
            && (d.scaling == Singleton <==> p == Scheduler)
            && (d.scaling == Fixed <==> p in {StreamProcessor, RealtimeGateway, MlInference, AdminDashboard, NodeAgent})
            && (d.sharedEnv <==> p !in {WebFrontend, NodeAgent})
  {
  }

  datatype Resolved = Resolved(
    pattern: PatternId, workload: Workload, exposure: Exposure, port: int,
    ingress: bool, scaling: Scaling, sharedEnv: bool)

  /** Which key an error is about. */
  datatype Blame = PatternKey | WorkloadKey | ExposureKey | PortKey | IngressKey | ScalingKey

  const PORT_HTTP := 8080
  const PORT_GRPC := 50051

  predicate Ingressable(exposure: Exposure, controller: Controller) {
    (exposure == Http || exposure == Grpc) && controller != NoController
  }

  function DefaultPort(exposure: Exposure): int {
    match exposure case NoExposure => 0 case Grpc => PORT_GRPC case _ => PORT_HTTP
  }

  /** ResolveTraits: pattern defaults and explicit keys, applied dependently. */
  function Resolve(k: Keys, controller: Controller): Result<Resolved, Blame> {
    if k.pattern.Unknown? then Err(PatternKey) else
    var p := if k.pattern.Is? then k.pattern.value else ApiMicroservice;
    var d := PatternDefaults(p);
    if k.workload.Unknown? then Err(WorkloadKey) else
    var workload := if k.workload.Is? then k.workload.value else d.workload;
    if k.exposure.Unknown? then Err(ExposureKey) else
    var exposure := if k.exposure.Is? then k.exposure.value else d.exposure;
    if exposure != NoExposure && k.port != 0 && !(1 <= k.port <= 65535) then Err(PortKey) else
    var port := if exposure != NoExposure && k.port != 0 then k.port else DefaultPort(exposure);
    if k.ingress == Some(true) && !Ingressable(exposure, controller) then Err(IngressKey) else
    var ingress := if k.ingress.Some? then k.ingress.value else d.ingress && Ingressable(exposure, controller);
    if k.scaling.Unknown? || (k.scaling.Is? && workload == DaemonSet && k.scaling.value != Fixed) then Err(ScalingKey) else
    var scaling := if k.scaling.Is? then k.scaling.value else if workload == DaemonSet then Fixed else d.scaling;
    var sharedEnv := if k.sharedEnv.Some? then k.sharedEnv.value else d.sharedEnv;
    Ok(Resolved(p, workload, exposure, port, ingress, scaling, sharedEnv))
  }

  // ----- defaults never fail ----------------------------------------------------

  predicate Written(k: Keys, b: Blame) {
    match b
    case PatternKey => !k.pattern.Unset?
    case WorkloadKey => !k.workload.Unset?
    case ExposureKey => !k.exposure.Unset?
    case PortKey => k.port != 0
    case IngressKey => k.ingress.Some?
    case ScalingKey => !k.scaling.Unset?
  }

  function Drop(k: Keys, b: Blame): Keys {
    match b
    case PatternKey => k.(pattern := Unset)
    case WorkloadKey => k.(workload := Unset)
    case ExposureKey => k.(exposure := Unset)
    case PortKey => k.(port := 0)
    case IngressKey => k.(ingress := None)
    case ScalingKey => k.(scaling := Unset)
  }

  function WrittenCount(k: Keys): nat {
    (if k.pattern.Unset? then 0 else 1) + (if k.workload.Unset? then 0 else 1)
    + (if k.exposure.Unset? then 0 else 1) + (if k.port == 0 then 0 else 1)
    + (if k.ingress.None? then 0 else 1) + (if k.scaling.Unset? then 0 else 1)
  }

  /** Every error blames a key the user wrote; a row with no keys always resolves. */
  lemma OnlyWrittenKeysFail(k: Keys, controller: Controller)
    ensures Resolve(k, controller).Err? ==> Written(k, Resolve(k, controller).error)
  {
  }

  /** Drop the blamed key until the row resolves. */
  function Repair(k: Keys, controller: Controller): (r: Keys)
    ensures Resolve(r, controller).Ok?
    ensures Resolve(k, controller).Ok? ==> r == k
    ensures r.sharedEnv == k.sharedEnv
    ensures forall b :: Written(r, b) ==> Written(k, b)
    decreases WrittenCount(k)
  {
    match Resolve(k, controller)
    case Ok(_) => k
    case Err(b) =>
      OnlyWrittenKeysFail(k, controller);
      Repair(Drop(k, b), controller)
  }

  /** What holds across the fields of every resolved row. */
  predicate Coherent(t: Resolved, controller: Controller) {
    && (t.workload == DaemonSet ==> t.scaling == Fixed)
    && (t.ingress ==> Ingressable(t.exposure, controller))
    && (t.port == 0 <==> t.exposure == NoExposure)
    && 0 <= t.port <= 65535
  }

  lemma ResolvedIsCoherent(k: Keys, controller: Controller)
    ensures Resolve(k, controller).Ok? ==> Coherent(Resolve(k, controller).value, controller)
  {
  }

  /**
    A written key is what the row resolves to; an unwritten one takes the pattern's
    default, as far as the other traits leave room for it.
  */
  lemma ResolvedTraits(k: Keys, controller: Controller)
    requires Resolve(k, controller).Ok?
    ensures var t := Resolve(k, controller).value;
            var d, ingressable := PatternDefaults(t.pattern), t.exposure in {Http, Grpc} && controller != NoController;
            && (k.pattern == Is(t.pattern) || (k.pattern.Unset? && t.pattern == ApiMicroservice))
            && (k.workload == Is(t.workload) || (k.workload.Unset? && t.workload == d.workload))
            && (k.exposure == Is(t.exposure) || (k.exposure.Unset? && t.exposure == d.exposure))
            && (k.port != 0 && t.exposure != NoExposure ==> t.port == k.port)
            && (k.port == 0 && t.exposure == Grpc ==> t.port == 50051)
            && (k.port == 0 && t.exposure in {Http, Tcp} ==> t.port == 8080)
            && (k.ingress == Some(t.ingress) || (k.ingress.None? && (t.ingress <==> d.ingress && ingressable)))
            && (k.scaling == Is(t.scaling)
                || (k.scaling.Unset? && t.scaling == if t.workload == DaemonSet then Fixed else d.scaling))
            && (k.sharedEnv == Some(t.sharedEnv) || (k.sharedEnv.None? && t.sharedEnv == d.sharedEnv))
  {
  }

  /** A row is refused exactly if one of its written keys is unknown, out of range or contradicts the others. */
  lemma RefusedIff(k: Keys, controller: Controller)
    ensures var t := Mirror(k, controller);
            Resolve(k, controller).Err? <==>
              || !Known(k)
              || (t.exposure != NoExposure && k.port != 0 && (k.port < 1 || 65535 < k.port))
              || (k.ingress == Some(true) && (t.exposure in {NoExposure, Tcp} || controller == NoController))
              || (t.workload == DaemonSet && k.scaling in {Is(Auto), Is(Singleton)})
  {
  }

  function Explicit(t: Resolved): Keys {
    Keys(Is(t.pattern), Is(t.workload), Is(t.exposure), t.port, Some(t.ingress), Is(t.scaling), Some(t.sharedEnv))
  }

  /** Coherent traits are exactly those that, written out as explicit keys, resolve to themselves. */
  lemma ResolutionIsAFixpoint(t: Resolved, controller: Controller)
    ensures Coherent(t, controller) <==> Resolve(Explicit(t), controller) == Ok(t)
  {
  }

  // ----- the web client's mirror ----------------------------------------------------

  /** resolveTraits in JavaScript: it clamps where the engine reports an error. */
  function Mirror(k: Keys, controller: Controller): Resolved {
    var p := if k.pattern.Is? then k.pattern.value else ApiMicroservice;
    var d := PatternDefaults(p);
    var workload := if k.workload.Is? then k.workload.value else d.workload;
    var exposure := if k.exposure.Is? then k.exposure.value else d.exposure;
    var port := if exposure == NoExposure then 0 else if k.port != 0 then k.port else if exposure == Grpc then 50051 else 8080;
    var ingressable := (exposure == Http || exposure == Grpc) && controller != NoController;
    var ingress := (if k.ingress.Some? then k.ingress.value else d.ingress) && ingressable;
    var scaling := if workload == DaemonSet then Fixed else if k.scaling.Is? then k.scaling.value else d.scaling;
    Resolved(p, workload, exposure, port, ingress, scaling, if k.sharedEnv.Some? then k.sharedEnv.value else d.sharedEnv)
  }

  /** The form's selects and the decoded spec only ever hold values of the enumerations. */
  predicate Known(k: Keys) {
    !k.pattern.Unknown? && !k.workload.Unknown? && !k.exposure.Unknown? && !k.scaling.Unknown?
  }

  /** Whenever the engine accepts a row, the client shows exactly what the engine will generate. */
  lemma MirrorAgrees(k: Keys, controller: Controller)
    ensures Resolve(k, controller).Ok? ==> Mirror(k, controller) == Resolve(k, controller).value
  {
  }

  /** On rows the form can hold, the engine accepts iff clamping lost nothing the user wrote. */
  lemma EngineAcceptsIffNothingClamped(k: Keys, controller: Controller)
    requires Known(k)
    ensures var t := Mirror(k, controller);
            Resolve(k, controller).Ok? <==>
              && (k.ingress == Some(true) ==> t.ingress)
              && (k.scaling.Is? ==> t.scaling == k.scaling.value)
              && t.port <= 65535 && (t.exposure != NoExposure ==> 1 <= t.port)
  {
  }

  datatype Trait = WorkloadTrait | ExposureTrait | PortTrait | IngressTrait | ScalingTrait | SharedEnvTrait

  function Unwrite(k: Keys, t: Trait): Keys {
    match t
    case WorkloadTrait => k.(workload := Unset)
    case ExposureTrait => k.(exposure := Unset)
    case PortTrait => k.(port := 0)
    case IngressTrait => k.(ingress := None)
    case ScalingTrait => k.(scaling := Unset)
    case SharedEnvTrait => k.(sharedEnv := None)
  }

  predicate SameTrait(a: Resolved, b: Resolved, t: Trait) {
    match t
    case WorkloadTrait => a.workload == b.workload
    case ExposureTrait => a.exposure == b.exposure
    case PortTrait => a.port == b.port
    case IngressTrait => a.ingress == b.ingress
    case ScalingTrait => a.scaling == b.scaling
    case SharedEnvTrait => a.sharedEnv == b.sharedEnv
  }

  /** traitOverrides: the key is written and its own trait would differ without it. */
  predicate IsOverride(k: Keys, controller: Controller, t: Trait) {
    !SameTrait(Mirror(Unwrite(k, t), controller), Mirror(k, controller), t)
  }

  /** A chip shows exactly on a written key that is not what the pattern would have given, and is not ignored. */
  lemma ChipIff(k: Keys, controller: Controller, t: Trait)
    requires Known(k)
    ensures var r := Mirror(k, controller);
            var d := PatternDefaults(r.pattern);
            IsOverride(k, controller, t) <==>
              match t
              case WorkloadTrait => k.workload.Is? && k.workload.value != d.workload
              case ExposureTrait => k.exposure.Is? && k.exposure.value != d.exposure
              case PortTrait => k.port != 0 && r.exposure != NoExposure && k.port != (if r.exposure == Grpc then 50051 else 8080)
              case IngressTrait =>
                k.ingress.Some? && k.ingress.value != d.ingress && r.exposure in {Http, Grpc} && controller != NoController
              case ScalingTrait => k.scaling.Is? && k.scaling.value != d.scaling && r.workload != DaemonSet
              case SharedEnvTrait => k.sharedEnv.Some? && k.sharedEnv.value != d.sharedEnv
  {
  }

  function OnlyOverrides(k: Keys, controller: Controller): Keys {
    k.(
      workload := if IsOverride(k, controller, WorkloadTrait) then k.workload else Unset,
      exposure := if IsOverride(k, controller, ExposureTrait) then k.exposure else Unset,
      port := if IsOverride(k, controller, PortTrait) then k.port else 0,
      ingress := if IsOverride(k, controller, IngressTrait) then k.ingress else None,
      scaling := if IsOverride(k, controller, ScalingTrait) then k.scaling else Unset,
      sharedEnv := if IsOverride(k, controller, SharedEnvTrait) then k.sharedEnv else None)
  }

  /** Removing all keys that show no chip, at once, leaves the resolution as it was. */
  lemma ChipsSayEverything(k: Keys, controller: Controller)
    requires Known(k)
    ensures Mirror(OnlyOverrides(k, controller), controller) == Mirror(k, controller)
  {
  }
}
