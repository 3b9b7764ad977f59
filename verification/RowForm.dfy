/** The form's row edits: set one trait, reset the row, pick another pattern. */
module RowForm {
  import opened Prelude
  import opened Traits

  datatype RowEdit =
    | SetWorkload(workload: Workload)
    | SetExposure(exposure: Exposure)
    | SetPort(port: int)
    | SetIngress(ingress: bool)
    | SetScaling(scaling: Scaling)
    | SetSharedEnv(sharedEnv: bool)
    | ResetTraits
    | PickPattern(pattern: PatternId)

  function TraitOf(e: RowEdit): Trait
    requires !e.ResetTraits? && !e.PickPattern?
  {
    match e
    case SetWorkload(_) => WorkloadTrait
    case SetExposure(_) => ExposureTrait
    case SetPort(_) => PortTrait
    case SetIngress(_) => IngressTrait
    case SetScaling(_) => ScalingTrait
    case SetSharedEnv(_) => SharedEnvTrait
  }

  /** The chosen value is what the resolved row shows for that trait. */
  predicate Shows(t: Resolved, e: RowEdit) {
    match e
    case SetWorkload(w) => t.workload == w
    case SetExposure(x) => t.exposure == x
    case SetPort(n) => t.port == n
    case SetIngress(b) => t.ingress == b
    case SetScaling(s) => t.scaling == s
    case SetSharedEnv(b) => t.sharedEnv == b
    case ResetTraits => true
    case PickPattern(p) => t.pattern == p
  }

  function Write(k: Keys, e: RowEdit): Keys {
    match e
    case SetWorkload(w) => k.(workload := Is(w))
    case SetExposure(x) => k.(exposure := Is(x))
    case SetPort(n) => k.(port := n)
    case SetIngress(b) => k.(ingress := Some(b))
    case SetScaling(s) => k.(scaling := Is(s))
    case SetSharedEnv(b) => k.(sharedEnv := Some(b))
    case ResetTraits => k
    case PickPattern(p) => k.(pattern := Is(p))
  }

  function Bare(pattern: Key<PatternId>): Keys {
    Keys(pattern, Unset, Unset, 0, None, Unset, None)
  }

  /** Keys that no longer apply are dropped. */
  function CleanUp(k: Keys, controller: Controller): Keys {
    var t := Mirror(k, controller);
    k.(ingress := if t.exposure == NoExposure || t.exposure == Tcp then None else k.ingress,
       port := if t.exposure == NoExposure then 0 else k.port,
       scaling := if t.workload == DaemonSet then Unset else k.scaling)
  }

  /** The row between writing the key and cleaning up. */
  function Written(k: Keys, controller: Controller, e: RowEdit): Keys
    requires !e.ResetTraits? && !e.PickPattern?
  {
    var without := Unwrite(k, TraitOf(e));
    if Shows(Mirror(without, controller), e) then without else Write(without, e)
  }

  function EditRow(k: Keys, controller: Controller, e: RowEdit): Keys {
    if e.ResetTraits? then Bare(k.pattern)
    else if e.PickPattern? then Bare(Is(e.pattern))
    else CleanUp(Written(k, controller, e), controller)
  }

  /** A row that is reset, or given another pattern, shows that pattern's defaults and no chip. */
  lemma FreshRowShowsDefaults(k: Keys, controller: Controller, e: RowEdit)
    requires Known(k) && (e.ResetTraits? || e.PickPattern?)
    ensures var row := EditRow(k, controller, e);
            var p := if e.PickPattern? then e.pattern else Mirror(k, controller).pattern;
            var t, d := Mirror(row, controller), PatternDefaults(p);
            && t.pattern == p && t.workload == d.workload && t.exposure == d.exposure && t.sharedEnv == d.sharedEnv
            && t.scaling == d.scaling && (t.ingress <==> d.ingress && controller != NoController)
            && t.port == (match d.exposure case NoExposure => 0 case Grpc => 50051 case _ => 8080)
            && forall x: Trait :: !IsOverride(row, controller, x)
  {
  }

  /** Which controls the expanded row offers. */
  predicate Visible(t: Resolved, controller: Controller, sharedRules: bool, e: RowEdit) {
    match e
    case SetPort(_) => t.exposure != NoExposure
    case SetScaling(_) => t.workload != DaemonSet
    case SetIngress(_) => Ingressable(t.exposure, controller)
    case SetSharedEnv(_) => sharedRules
    case _ => true
  }

  predicate Accepted(k: Keys, controller: Controller) {
    Known(k) && Resolve(k, controller).Ok?
  }

  predicate PortInRange(port: int) {
    0 <= port <= 65535
  }

  /**
    Two ways to an unacceptable row: the number field does not enforce its
    bounds, and a port written while exposure was none (where it is ignored,
    in range or not) counts again once the row is exposed.
  */
  predicate Legal(k: Keys, e: RowEdit) {
    && (e.SetPort? ==> PortInRange(e.port))
    && (e.SetExposure? && e.exposure != NoExposure ==> PortInRange(k.port))
  }

  /** A visible edit keeps the row acceptable exactly when it is legal. */
  lemma EditKeepsRowAcceptable(k: Keys, controller: Controller, sharedRules: bool, e: RowEdit)
    requires Accepted(k, controller) && Visible(Mirror(k, controller), controller, sharedRules, e)
    ensures Accepted(EditRow(k, controller, e), controller) <==> Legal(k, e)
  {
    if e.SetWorkload? { WorkloadEdit(k, controller, e); }
    else if e.SetExposure? { ExposureEdit(k, controller, e); }
    else { LeafEdit(k, controller, sharedRules, e); }
  }

  /** Edits no other trait depends on. */
  lemma LeafEdit(k: Keys, controller: Controller, sharedRules: bool, e: RowEdit)
    requires Accepted(k, controller) && Visible(Mirror(k, controller), controller, sharedRules, e)
    requires !e.SetWorkload? && !e.SetExposure?
    ensures Accepted(EditRow(k, controller, e), controller) <==> Legal(k, e)
  {
    if e.ResetTraits? || e.PickPattern? {
      assert Resolve(Bare(k.pattern), controller).Ok?;
    } else {
      LeafEditKeeps(k, controller, e);
      var k', t' := EditRow(k, controller, e), Mirror(EditRow(k, controller, e), controller);
      assert e.SetPort? && t'.exposure != NoExposure ==> k'.port == e.port || (k'.port == 0 && PortInRange(e.port));
      assert !e.SetPort? && t'.exposure != NoExposure ==> k'.port == k.port;
      assert k'.ingress == Some(true) ==> Ingressable(t'.exposure, controller);
    }
  }

  lemma LeafEditKeeps(k: Keys, controller: Controller, e: RowEdit)
    requires Known(k) && (e.SetPort? || e.SetIngress? || e.SetScaling? || e.SetSharedEnv?)
    ensures var k' := EditRow(k, controller, e);
            && k'.pattern == k.pattern && k'.workload == k.workload && k'.exposure == k.exposure && Known(k')
            && Mirror(k', controller).exposure == Mirror(k, controller).exposure
            && Mirror(k', controller).workload == Mirror(k, controller).workload
  {
  }

  lemma WorkloadEdit(k: Keys, controller: Controller, e: RowEdit)
    requires Accepted(k, controller) && e.SetWorkload?
    ensures Accepted(EditRow(k, controller, e), controller)
  {
    var t, t' := Mirror(k, controller), Mirror(EditRow(k, controller, e), controller);
    assert t'.exposure == t.exposure && t'.port == t.port;
  }

  lemma ExposureEdit(k: Keys, controller: Controller, e: RowEdit)
    requires Accepted(k, controller) && e.SetExposure?
    ensures Accepted(EditRow(k, controller, e), controller) <==> Legal(k, e)
  {
    var k' := EditRow(k, controller, e);
    var t' := Mirror(k', controller);
    assert t'.exposure == e.exposure && t'.workload == Mirror(k, controller).workload;
    assert k'.port == if e.exposure == NoExposure then 0 else k.port;
    assert k'.ingress == if e.exposure == NoExposure || e.exposure == Tcp then None else k.ingress;
    assert k'.scaling == k.scaling || (t'.workload == DaemonSet && k'.scaling.Unset?);
    assert k'.pattern == k.pattern && k'.workload == k.workload && Known(k');
    assert k'.ingress == Some(true) ==> Ingressable(t'.exposure, controller);
  }

  /** Such a row exists: a worker that carries an ignored port, exposed over http. */
  lemma HiddenPortSurfaces()
    ensures var k := Keys(Is(WorkerPattern), Unset, Unset, 70000, None, Unset, None);
            && Accepted(k, Alb) && Visible(Mirror(k, Alb), Alb, false, SetExposure(Http))
            && Resolve(EditRow(k, Alb, SetExposure(Http)), Alb) == Err(PortKey)
  {
  }

  /** Dropping keys that no longer apply changes nothing the row resolves to. */
  lemma CleanUpIsInvisible(k: Keys, controller: Controller)
    ensures Mirror(CleanUp(k, controller), controller) == Mirror(k, controller)
  {
  }

  /** ... the trait set is the value chosen (an emptied port field falls back to the default) ... */
  lemma EditTakesEffect(k: Keys, controller: Controller, sharedRules: bool, e: RowEdit)
    requires Accepted(k, controller) && Visible(Mirror(k, controller), controller, sharedRules, e)
    ensures var t := Mirror(EditRow(k, controller, e), controller);
            if e == SetPort(0) then t.port == DefaultPort(t.exposure) else Shows(t, e)
  {
    if !e.ResetTraits? && !e.PickPattern? {
      CleanUpIsInvisible(Written(k, controller, e), controller);
    }
  }

  predicate Depends(on: Trait, t: Trait) {
    match on
    case WorkloadTrait => t == ScalingTrait
    case ExposureTrait => t == PortTrait || t == IngressTrait
    case _ => false
  }

  /** ... and no trait changes but that one and those that depend on it. */
  lemma EditChangesOnlyDependents(k: Keys, controller: Controller, sharedRules: bool, e: RowEdit, t: Trait)
    requires Accepted(k, controller) && Visible(Mirror(k, controller), controller, sharedRules, e)
    requires !e.ResetTraits? && !e.PickPattern? && t != TraitOf(e) && !Depends(TraitOf(e), t)
    ensures var now := Mirror(EditRow(k, controller, e), controller);
            SameTrait(now, Mirror(k, controller), t) && now.pattern == Mirror(k, controller).pattern
  {
    CleanUpIsInvisible(Written(k, controller, e), controller);
  }

  /**
    ... and the row stays clean: the key is written only if it is an override, and no
    key is kept that the row's other traits leave no room for.
  */
  lemma EditLeavesNoHiddenKey(k: Keys, controller: Controller, sharedRules: bool, e: RowEdit)
    requires Accepted(k, controller) && Visible(Mirror(k, controller), controller, sharedRules, e)
    requires !e.ResetTraits? && !e.PickPattern?
    ensures var row := EditRow(k, controller, e);
            var t := Mirror(row, controller);
            && (Unwrite(row, TraitOf(e)) != row ==> IsOverride(row, controller, TraitOf(e)))
            && (t.exposure == NoExposure ==> row.port == 0 && row.ingress.None?)
            && (t.exposure == Tcp ==> row.ingress.None?) && (t.workload == DaemonSet ==> row.scaling.Unset?)
  {
    CleanUpIsInvisible(Written(k, controller, e), controller);
  }

  function EditAll(k: Keys, controller: Controller, sharedRules: bool, es: seq<RowEdit>): Keys
    decreases |es|
  {
    if es == [] then k
    else if Visible(Mirror(k, controller), controller, sharedRules, es[0])
    then EditAll(EditRow(k, controller, es[0]), controller, sharedRules, es[1..])
    else EditAll(k, controller, sharedRules, es[1..])
  }

  /**
    From a row whose port is in range, after any series of visible edits with
    ports in range, the engine still accepts the row and agrees with the preview.
  */
  lemma {:induction false} AnySeriesOfEditsIsAccepted(k: Keys, controller: Controller, sharedRules: bool, es: seq<RowEdit>)
    requires Accepted(k, controller) && PortInRange(k.port)
    requires forall e :: e in es && e.SetPort? ==> PortInRange(e.port)
    ensures var k' := EditAll(k, controller, sharedRules, es);
            && Accepted(k', controller)
            && Resolve(k', controller) == Ok(Mirror(k', controller))
    decreases |es|
  {
    if es == [] {
      MirrorAgrees(k, controller);
    } else if Visible(Mirror(k, controller), controller, sharedRules, es[0]) {
      EditKeepsRowAcceptable(k, controller, sharedRules, es[0]);
      assert es[0] in es;
      AnySeriesOfEditsIsAccepted(EditRow(k, controller, es[0]), controller, sharedRules, es[1..]);
    } else {
      AnySeriesOfEditsIsAccepted(k, controller, sharedRules, es[1..]);
    }
  }

  /** The subchart rows of the form, edited in place the way the component's handlers do. */
  class Form {
    var rows: seq<Keys>
    var controller: Controller

    constructor (rows: seq<Keys>, controller: Controller)
      ensures this.rows == rows && this.controller == controller
    {
      this.rows, this.controller := rows, controller;
    }

    method SetTrait(i: nat, e: RowEdit)
      requires i < |rows| && !e.ResetTraits? && !e.PickPattern?
      modifies this`rows
      ensures rows == old(rows)[i := EditRow(old(rows)[i], controller, e)]
    {
      var next := Unwrite(rows[i], TraitOf(e));
      if !Shows(Mirror(next, controller), e) {
        next := Write(next, e);
      }
      var t := Mirror(next, controller);
      if t.exposure == NoExposure || t.exposure == Tcp {
        next := next.(ingress := None);
      }
      if t.exposure == NoExposure {
        next := next.(port := 0);
      }
      if t.workload == DaemonSet {
        next := next.(scaling := Unset);
      }
      rows := rows[i := next];
    }

    method ResetRow(i: nat)
      requires i < |rows|
      modifies this`rows
      ensures rows == old(rows)[i := EditRow(old(rows)[i], controller, ResetTraits)]
    {
      var next := rows[i];
      next := next.(workload := Unset);
      next := next.(exposure := Unset);
      next := next.(port := 0);
      next := next.(ingress := None);
      next := next.(scaling := Unset);
      next := next.(sharedEnv := None);
      rows := rows[i := next];
    }

    method Repick(i: nat, p: PatternId)
      requires i < |rows|
      modifies this`rows
      ensures rows == old(rows)[i := EditRow(old(rows)[i], controller, PickPattern(p))]
    {
      rows := rows[i := Bare(Is(p))];
    }
  }
}
