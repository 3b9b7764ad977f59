/**
  From a spec to the CR and back: wrapManifest in the backend, the CRD schema in
  between, decodeSpec in the operator.
*/
module Manifest {
  import opened Prelude
  import opened Text
  import opened Traits
  import opened Specs
  import Cluster

  // ----- wrapManifest: the spec as JSON ------------------------------------------

  /** How a number fares when JSON is read into untyped Go values: it becomes a float64. */
  type Rounding = int -> int

  /** Exact on 53 bits, monotone beyond. */
  ghost predicate Float64(round: Rounding) {
    && (forall n :: -0x20_0000_0000_0000 <= n <= 0x20_0000_0000_0000 ==> round(n) == n)
    && (forall m, n :: m <= n ==> round(m) <= round(n))
  }

  /** omitempty */
  function NonEmpty(s: string): Option<Json> {
    if s == "" then None else Some(JStr(s))
  }

  function Pointer(b: Option<bool>): Option<Json> {
    match b case None => None case Some(v) => Some(JBool(v))
  }

  function SubchartField(sc: Subchart, round: Rounding, f: Field): Option<Json> {
    match f
    case NameField => Some(JStr(sc.name))
    case WorkloadField => NonEmpty(sc.workload)
    case DescriptionField => NonEmpty(sc.description)
    case PatternField => NonEmpty(sc.pattern)
    case ExposureField => NonEmpty(sc.exposure)
    case PortField => if sc.port == 0 then None else Some(JNum(round(sc.port)))
    case IngressField => Pointer(sc.ingress)
    case ScalingField => NonEmpty(sc.scaling)
    case SharedEnvField => Pointer(sc.sharedEnv)
    case _ => None
  }

  const SUBCHART_FIELDS: set<Field> :=
    {NameField, WorkloadField, DescriptionField, PatternField, ExposureField,
     PortField, IngressField, ScalingField, SharedEnvField}

  function WrapSubchart(sc: Subchart, round: Rounding): Json {
    JObj(map f | f in SUBCHART_FIELDS && SubchartField(sc, round, f).Some? :: SubchartField(sc, round, f).value)
  }

  function RuleField(r: Rules, f: Field): Option<Json> {
    match f
    case IngressField => Some(JStr(r.ingress))
    case CommonAnnotationsField => Some(JBool(r.commonAnnotations))
    case LinkedTemplatesField => Some(JBool(r.linkedTemplates))
    case ResourceNamesField => Some(JBool(r.resourceNames))
    case SharedSecretsField => Some(JBool(r.sharedSecrets))
    case SharedNewrelicField => Some(JBool(r.sharedNewrelic))
    case UmbrellaReadmeField => Some(JBool(r.umbrellaReadme))
    case SubchartReadmeField => Some(JBool(r.subchartReadme))
    case IncludeDocsField => Some(JBool(r.includeDocs))
    case HandoffField => Pointer(r.handoff)
    case _ => None
  }

  const RULES_FIELDS: set<Field> :=
    {IngressField, CommonAnnotationsField, LinkedTemplatesField, ResourceNamesField, SharedSecretsField,
     SharedNewrelicField, UmbrellaReadmeField, SubchartReadmeField, IncludeDocsField, HandoffField}

  function WrapRules(r: Rules): Json {
    JObj(map f | f in RULES_FIELDS && RuleField(r, f).Some? :: RuleField(r, f).value)
  }

  function WrapSubcharts(scs: seq<Subchart>, round: Rounding): seq<Json> {
    seq(|scs|, i requires 0 <= i < |scs| => WrapSubchart(scs[i], round))
  }

  function WrapStrings(ss: seq<string>): seq<Json> {
    seq(|ss|, i requires 0 <= i < |ss| => JStr(ss[i]))
  }

  /** wrapManifest: the .spec of the CR. */
  function Wrap(s: Spec, round: Rounding): Json {
    var base := map[UmbrellaChartNameField := JStr(s.umbrella),
                    SubchartsField := JList(WrapSubcharts(s.subcharts, round)),
                    RulesField := WrapRules(s.rules)];
    var described := if s.description == "" then base else base[DescriptionField := JStr(s.description)];
    JObj(if s.dependencies == [] then described else described[DependenciesField := JList(WrapStrings(s.dependencies))])
  }

  // ----- decodeSpec -----------------------------------------------------------------

  function Get(m: map<Field, Json>, f: Field): Option<Json> {
    if f in m then Some(m[f]) else None
  }

  /** A missing field and null leave Go's zero value; a value of another type is an error. */
  function AsString(v: Option<Json>): Option<string> {
    match v
    case None => Some("")
    case Some(JNull) => Some("")
    case Some(JStr(s)) => Some(s)
    case _ => None
  }

  function AsBool(v: Option<Json>): Option<bool> {
    match v
    case None => Some(false)
    case Some(JNull) => Some(false)
    case Some(JBool(b)) => Some(b)
    case _ => None
  }

  function AsPointer(v: Option<Json>): Option<Option<bool>> {
    match v
    case None => Some(None)
    case Some(JNull) => Some(None)
    case Some(JBool(b)) => Some(Some(b))
    case _ => None
  }

  function AsInt(v: Option<Json>): Option<int> {
    match v
    case None => Some(0)
    case Some(JNull) => Some(0)
    case Some(JNum(n)) => if MIN_INT <= n <= MAX_INT then Some(n) else None
    case _ => None
  }

  function AsList(v: Option<Json>): Option<seq<Json>> {
    match v
    case None => Some([])
    case Some(JNull) => Some([])
    case Some(JList(items)) => Some(items)
    case _ => None
  }

  function AsFields(v: Option<Json>): Option<map<Field, Json>> {
    match v
    case None => Some(map[])
    case Some(JNull) => Some(map[])
    case Some(JObj(m)) => Some(m)
    case _ => None
  }

  function DecodeSubchart(j: Json): Option<Subchart> {
    var m :- AsFields(Some(j));
    var name :- AsString(Get(m, NameField));
    var workload :- AsString(Get(m, WorkloadField));
    var description :- AsString(Get(m, DescriptionField));
    var pattern :- AsString(Get(m, PatternField));
    var exposure :- AsString(Get(m, ExposureField));
    var port :- AsInt(Get(m, PortField));
    var ingress :- AsPointer(Get(m, IngressField));
    var scaling :- AsString(Get(m, ScalingField));
    var sharedEnv :- AsPointer(Get(m, SharedEnvField));
    Some(Subchart(name, workload, description, pattern, exposure, port, ingress, scaling, sharedEnv))
  }

  function DecodeRules(v: Option<Json>): Option<Rules> {
    var m :- AsFields(v);
    var ingress :- AsString(Get(m, IngressField));
    var commonAnnotations :- AsBool(Get(m, CommonAnnotationsField));
    var linkedTemplates :- AsBool(Get(m, LinkedTemplatesField));
    var resourceNames :- AsBool(Get(m, ResourceNamesField));
    var sharedSecrets :- AsBool(Get(m, SharedSecretsField));
    var sharedNewrelic :- AsBool(Get(m, SharedNewrelicField));
    var umbrellaReadme :- AsBool(Get(m, UmbrellaReadmeField));
    var subchartReadme :- AsBool(Get(m, SubchartReadmeField));
    var includeDocs :- AsBool(Get(m, IncludeDocsField));
    var handoff :- AsPointer(Get(m, HandoffField));
    Some(Rules(ingress, commonAnnotations, linkedTemplates, resourceNames, sharedSecrets, sharedNewrelic,
               umbrellaReadme, subchartReadme, includeDocs, handoff))
  }

  function DecodeAll<T>(js: seq<Json>, decode: Json -> Option<T>): Option<seq<T>> {
    if js == [] then Some([]) else
    var first :- decode(js[0]);
    var rest :- DecodeAll(js[1..], decode);
    Some([first] + rest)
  }

  function Decode(j: Json): Option<Spec> {
    if !j.JObj? then None else
    var umbrella :- AsString(Get(j.fields, UmbrellaChartNameField));
    var description :- AsString(Get(j.fields, DescriptionField));
    var items :- AsList(Get(j.fields, SubchartsField));
    var subcharts :- DecodeAll(items, DecodeSubchart);
    var rules :- DecodeRules(Get(j.fields, RulesField));
    var names :- AsList(Get(j.fields, DependenciesField));
    var dependencies :- DecodeAll(names, n => AsString(Some(n)));
    Some(Spec(umbrella, description, subcharts, rules, dependencies))
  }

  /** decodeSpec in the operator: a CR without a .spec block is an error. */
  function OperatorDecode(raw: Json): Option<Spec> {
    var s :- Decode(raw);
    Some(Normalize(s))
  }

  // ----- the CRD schema ----------------------------------------------------------------

  predicate StringOrAbsent(v: Option<Json>) {
    v.None? || v.value.JStr?
  }

  predicate BoolOrAbsent(v: Option<Json>) {
    v.None? || v.value.JBool?
  }

  predicate EnumOrAbsent(v: Option<Json>, allowed: string -> bool) {
    v.None? || (v.value.JStr? && allowed(v.value.s))
  }

  predicate IsWorkload(s: string) { WorkloadOf(s).Is? }
  predicate IsPattern(s: string) { PatternOf(s).Is? }
  predicate IsExposure(s: string) { ExposureOf(s).Is? }
  predicate IsScaling(s: string) { ScalingOf(s).Is? }

  predicate AdmitsSubchart(j: Json) {
    && j.JObj?
    && var m := j.fields;
       && StringOrAbsent(Get(m, NameField)) && StringOrAbsent(Get(m, DescriptionField))
       && EnumOrAbsent(Get(m, WorkloadField), IsWorkload)
       && EnumOrAbsent(Get(m, PatternField), IsPattern)
       && EnumOrAbsent(Get(m, ExposureField), IsExposure)
       && EnumOrAbsent(Get(m, ScalingField), IsScaling)
       && (Get(m, PortField).Some? ==> m[PortField].JNum? && 1 <= m[PortField].n <= 65535)
       && BoolOrAbsent(Get(m, IngressField)) && BoolOrAbsent(Get(m, SharedEnvField))
  }

  predicate AdmitsRules(j: Json) {
    && j.JObj?
    && var m := j.fields;
       && (Get(m, IngressField).Some? ==> m[IngressField].JStr? && ControllerOf(m[IngressField].s).Some?)
       && (forall f :: f in RULES_FIELDS - {IngressField} ==> BoolOrAbsent(Get(m, f)))
  }

  /** The API server's structural check of .spec. */
  predicate Admits(j: Json) {
    && j.JObj?
    && var m := j.fields;
       && UmbrellaChartNameField in m && m[UmbrellaChartNameField].JStr?
       && StringOrAbsent(Get(m, DescriptionField))
       && SubchartsField in m && m[SubchartsField].JList?
       && (forall i :: 0 <= i < |m[SubchartsField].items| ==> AdmitsSubchart(m[SubchartsField].items[i]))
       && RulesField in m && AdmitsRules(m[RulesField])
       && (DependenciesField in m ==>
             && m[DependenciesField].JList?
             && forall i :: 0 <= i < |m[DependenciesField].items| ==> m[DependenciesField].items[i].JStr?)
  }

  // ----- round trip ---------------------------------------------------------------------

  /** The number survives: it is still the same, still a Go int, and not mistaken for an absent one. */
  predicate Survives(n: int, round: Rounding) {
    n == 0 || (round(n) == n && MIN_INT <= n <= MAX_INT)
  }

  lemma SubchartGet(sc: Subchart, round: Rounding, f: Field)
    requires f in SUBCHART_FIELDS
    ensures Get(WrapSubchart(sc, round).fields, f) == SubchartField(sc, round, f)
  {
  }

  lemma StringField(m: map<Field, Json>, f: Field, s: string)
    requires Get(m, f) == NonEmpty(s) || Get(m, f) == Some(JStr(s))
    ensures AsString(Get(m, f)) == Some(s)
  {
  }

  /** Every key comes back as it was, unset told from explicit false. */
  lemma SubchartRoundTrip(sc: Subchart, round: Rounding)
    requires Survives(sc.port, round)
    ensures DecodeSubchart(WrapSubchart(sc, round)) == Some(sc)
  {
    var m := WrapSubchart(sc, round).fields;
    SubchartStrings(m, sc, round);
    SubchartOthers(m, sc, round);
  }

  lemma SubchartStrings(m: map<Field, Json>, sc: Subchart, round: Rounding)
    requires JObj(m) == WrapSubchart(sc, round)
    ensures AsString(Get(m, NameField)) == Some(sc.name)
    ensures AsString(Get(m, WorkloadField)) == Some(sc.workload)
    ensures AsString(Get(m, DescriptionField)) == Some(sc.description)
    ensures AsString(Get(m, PatternField)) == Some(sc.pattern)
    ensures AsString(Get(m, ExposureField)) == Some(sc.exposure)
    ensures AsString(Get(m, ScalingField)) == Some(sc.scaling)
  {
    SubchartGet(sc, round, NameField);
    StringField(m, NameField, sc.name);
    SubchartGet(sc, round, WorkloadField);
    StringField(m, WorkloadField, sc.workload);
    SubchartGet(sc, round, DescriptionField);
    StringField(m, DescriptionField, sc.description);
    SubchartGet(sc, round, PatternField);
    StringField(m, PatternField, sc.pattern);
    SubchartGet(sc, round, ExposureField);
    StringField(m, ExposureField, sc.exposure);
    SubchartGet(sc, round, ScalingField);
    StringField(m, ScalingField, sc.scaling);
  }

  lemma SubchartOthers(m: map<Field, Json>, sc: Subchart, round: Rounding)
    requires JObj(m) == WrapSubchart(sc, round) && Survives(sc.port, round)
    ensures AsInt(Get(m, PortField)) == Some(sc.port)
    ensures AsPointer(Get(m, IngressField)) == Some(sc.ingress)
    ensures AsPointer(Get(m, SharedEnvField)) == Some(sc.sharedEnv)
  {
    SubchartGet(sc, round, PortField);
    SubchartGet(sc, round, IngressField);
    SubchartGet(sc, round, SharedEnvField);
  }

  lemma RuleGet(r: Rules, f: Field)
    requires f in RULES_FIELDS
    ensures Get(WrapRules(r).fields, f) == RuleField(r, f)
  {
  }

  lemma RulesRoundTrip(r: Rules)
    ensures DecodeRules(Some(WrapRules(r))) == Some(r)
  {
    RuleGet(r, IngressField);
    RuleGet(r, CommonAnnotationsField);
    RuleGet(r, LinkedTemplatesField);
    RuleGet(r, ResourceNamesField);
    RuleGet(r, SharedSecretsField);
    RuleGet(r, SharedNewrelicField);
    RuleGet(r, UmbrellaReadmeField);
    RuleGet(r, SubchartReadmeField);
    RuleGet(r, IncludeDocsField);
    RuleGet(r, HandoffField);
    DecodeRulesFrom(WrapRules(r).fields, r);
  }

  lemma DecodeRulesFrom(m: map<Field, Json>, r: Rules)
    requires Get(m, IngressField) == Some(JStr(r.ingress))
    requires Get(m, CommonAnnotationsField) == Some(JBool(r.commonAnnotations))
    requires Get(m, LinkedTemplatesField) == Some(JBool(r.linkedTemplates))
    requires Get(m, ResourceNamesField) == Some(JBool(r.resourceNames))
    requires Get(m, SharedSecretsField) == Some(JBool(r.sharedSecrets))
    requires Get(m, SharedNewrelicField) == Some(JBool(r.sharedNewrelic))
    requires Get(m, UmbrellaReadmeField) == Some(JBool(r.umbrellaReadme))
    requires Get(m, SubchartReadmeField) == Some(JBool(r.subchartReadme))
    requires Get(m, IncludeDocsField) == Some(JBool(r.includeDocs))
    requires Get(m, HandoffField) == Pointer(r.handoff)
    ensures DecodeRules(Some(JObj(m))) == Some(r)
  {
  }

  lemma {:induction false} SubchartsRoundTrip(scs: seq<Subchart>, round: Rounding)
    requires forall sc :: sc in scs ==> Survives(sc.port, round)
    ensures DecodeAll(WrapSubcharts(scs, round), DecodeSubchart) == Some(scs)
  {
    if scs != [] {
      SubchartRoundTrip(scs[0], round);
      assert WrapSubcharts(scs, round)[1..] == WrapSubcharts(scs[1..], round);
      SubchartsRoundTrip(scs[1..], round);
      assert scs == [scs[0]] + scs[1..];
    }
  }

  lemma {:induction false} StringsRoundTrip(ss: seq<string>, decode: Json -> Option<string>)
    requires forall s :: decode(JStr(s)) == Some(s)
    ensures DecodeAll(WrapStrings(ss), decode) == Some(ss)
  {
    if ss != [] {
      assert WrapStrings(ss)[1..] == WrapStrings(ss[1..]);
      StringsRoundTrip(ss[1..], decode);
      assert ss == [ss[0]] + ss[1..];
    }
  }

  lemma WrapGets(s: Spec, round: Rounding)
    ensures var m := Wrap(s, round).fields;
            && Get(m, UmbrellaChartNameField) == Some(JStr(s.umbrella))
            && Get(m, DescriptionField) == NonEmpty(s.description)
            && Get(m, SubchartsField) == Some(JList(WrapSubcharts(s.subcharts, round)))
            && Get(m, RulesField) == Some(WrapRules(s.rules))
            && Get(m, DependenciesField) == if s.dependencies == [] then None else Some(JList(WrapStrings(s.dependencies)))
  {
  }

  /** decode(encode(spec)) == spec, as long as the ports survive. */
  lemma WrapRoundTrip(s: Spec, round: Rounding)
    requires forall sc :: sc in s.subcharts ==> Survives(sc.port, round)
    ensures Decode(Wrap(s, round)) == Some(s)
  {
    var m := Wrap(s, round).fields;
    WrapGets(s, round);
    SubchartsRoundTrip(s.subcharts, round);
    RulesRoundTrip(s.rules);
    StringsRoundTrip(s.dependencies, n => AsString(Some(n)));
    assert WrapStrings([]) == [];
    DecodeFrom(m, s, WrapSubcharts(s.subcharts, round), WrapStrings(s.dependencies));
  }

  lemma DecodeFrom(m: map<Field, Json>, s: Spec, items: seq<Json>, names: seq<Json>)
    requires Get(m, UmbrellaChartNameField) == Some(JStr(s.umbrella)) && Get(m, DescriptionField) == NonEmpty(s.description)
    requires Get(m, SubchartsField) == Some(JList(items)) && DecodeAll(items, DecodeSubchart) == Some(s.subcharts)
    requires DecodeRules(Get(m, RulesField)) == Some(s.rules)
    requires Get(m, DependenciesField) == if names == [] then None else Some(JList(names))
    requires DecodeAll(names, n => AsString(Some(n))) == Some(s.dependencies)
    ensures Decode(JObj(m)) == Some(s)
  {
    StringField(m, UmbrellaChartNameField, s.umbrella);
    StringField(m, DescriptionField, s.description);
  }

  // ----- what an accepted spec meets on its way ---------------------------------------

  /** Unset, or what the schema allows. */
  predicate PortAdmitted(port: int) {
    port == 0 || 1 <= port <= 65535
  }

  lemma RoundingKeepsRange(port: int, round: Rounding)
    requires Float64(round)
    ensures 1 <= round(port) <= 65535 <==> 1 <= port <= 65535
    ensures PortAdmitted(port) ==> Survives(port, round)
  {
    assert round(0) == 0 && round(65536) == 65536;
  }

  /** Of a subchart whose traits resolve, only the port can offend the schema. */
  lemma SubchartAdmission(sc: Subchart, controller: Controller, round: Rounding)
    requires Float64(round) && Resolve(KeysOf(sc), controller).Ok?
    ensures AdmitsSubchart(WrapSubchart(sc, round)) <==> PortAdmitted(sc.port)
  {
    EnumFields(WrapSubchart(sc, round).fields, sc, controller, round);
    OnlyPortMatters(WrapSubchart(sc, round).fields, sc, round);
  }

  lemma OnlyPortMatters(m: map<Field, Json>, sc: Subchart, round: Rounding)
    requires Float64(round) && JObj(m) == WrapSubchart(sc, round)
    requires EnumOrAbsent(Get(m, WorkloadField), IsWorkload) && EnumOrAbsent(Get(m, PatternField), IsPattern)
    requires EnumOrAbsent(Get(m, ExposureField), IsExposure) && EnumOrAbsent(Get(m, ScalingField), IsScaling)
    ensures AdmitsSubchart(JObj(m)) <==> PortAdmitted(sc.port)
  {
    RoundingKeepsRange(sc.port, round);
    SubchartGet(sc, round, NameField);
    SubchartGet(sc, round, DescriptionField);
    SubchartGet(sc, round, PortField);
    SubchartGet(sc, round, IngressField);
    SubchartGet(sc, round, SharedEnvField);
  }

  lemma EnumFields(m: map<Field, Json>, sc: Subchart, controller: Controller, round: Rounding)
    requires JObj(m) == WrapSubchart(sc, round) && Resolve(KeysOf(sc), controller).Ok?
    ensures EnumOrAbsent(Get(m, WorkloadField), IsWorkload) && EnumOrAbsent(Get(m, PatternField), IsPattern)
    ensures EnumOrAbsent(Get(m, ExposureField), IsExposure) && EnumOrAbsent(Get(m, ScalingField), IsScaling)
  {
    ResolvedKeysAreKnown(KeysOf(sc), controller);
    SubchartGet(sc, round, WorkloadField);
    SubchartGet(sc, round, PatternField);
    SubchartGet(sc, round, ExposureField);
    SubchartGet(sc, round, ScalingField);
  }

  lemma ResolvedKeysAreKnown(k: Keys, controller: Controller)
    requires Resolve(k, controller).Ok?
    ensures !k.pattern.Unknown? && !k.workload.Unknown? && !k.exposure.Unknown? && !k.scaling.Unknown?
  {
  }

  lemma RulesAdmission(r: Rules)
    requires ControllerOf(r.ingress).Some?
    ensures AdmitsRules(WrapRules(r))
  {
    RuleGet(r, IngressField);
    forall f | f in RULES_FIELDS - {IngressField} ensures BoolOrAbsent(Get(WrapRules(r).fields, f)) {
      RuleGet(r, f);
    }
  }

  /**
    The API server admits a spec that Validate accepted exactly if every written
    port is in range. Validate itself lets a port stand unchecked next to
    exposure none, so it accepts more than the schema does.
  */
  lemma AdmittedIffPortsInRange(s: Spec, round: Rounding)
    requires Float64(round) && Valid(s)
    ensures Admits(Wrap(s, round)) <==> forall sc :: sc in s.subcharts ==> PortAdmitted(sc.port)
  {
    var controller := ControllerOf(s.rules.ingress).value;
    var items := WrapSubcharts(s.subcharts, round);
    WrapGets(s, round);
    RulesAdmission(s.rules);
    forall i | 0 <= i < |items| ensures AdmitsSubchart(items[i]) <==> PortAdmitted(s.subcharts[i].port) {
      assert ValidAt(s.subcharts, i, controller);
      SubchartAdmission(s.subcharts[i], controller, round);
    }
  }

  /** ... such as port 70000 on a subchart that exposes nothing: accepted by Validate, refused by the schema. */
  lemma IgnoredPortIsRefused(round: Rounding)
    requires Float64(round)
    ensures exists s :: Normalize(s) == s && Valid(s) && !Admits(Wrap(s, round))
  {
    var sc := Subchart("a", "", "", "", "none", 70000, None, "", None);
    var s := Spec("a", "", [sc], DEFAULT_RULES, []);
    HiddenIsNormal(sc);
    NameIsNormal("a");
    NameIsNormal("alb");
    assert NormalSubcharts(s.subcharts) == [NormalSubchart(sc)];
    assert TrimSpace("") == "";
    HiddenResolves(sc);
    assert ValidAt(s.subcharts, 0, Alb);
    AdmittedIffPortsInRange(s, round);
    assert sc in s.subcharts && !PortAdmitted(sc.port);
  }

  lemma HiddenIsNormal(sc: Subchart)
    requires sc == Subchart("a", "", "", "", "none", 70000, None, "", None)
    ensures NormalSubchart(sc) == sc
  {
    NameIsNormal("a");
    NameIsNormal("none");
    assert Sanitize("") == "" && TrimSpace("") == "";
  }

  lemma HiddenResolves(sc: Subchart)
    requires sc == Subchart("a", "", "", "", "none", 70000, None, "", None)
    ensures Resolve(KeysOf(sc), Alb).Ok?
  {
    assert ExposureOf(sc.exposure) == Is(NoExposure);
  }

  /** What the operator decodes is exactly the spec that was accepted, so its own Validate accepts it too. */
  lemma AcceptedSpecReachesOperator(s: Spec, round: Rounding)
    requires Float64(round) && Normalize(s) == s && Valid(s) && Admits(Wrap(s, round))
    ensures OperatorDecode(Wrap(s, round)) == Some(s)
  {
    AdmittedIffPortsInRange(s, round);
    forall sc | sc in s.subcharts ensures Survives(sc.port, round) { RoundingKeepsRange(sc.port, round); }
    WrapRoundTrip(s, round);
  }

  // ----- handleGenerate as a step of the cluster -----------------------------------------

  /** The operator's view of .spec: decode, validate, render. */
  function SpecCompiler(render: Spec -> Option<string>): Cluster.Compiler {
    Cluster.Compiler(
      raw => OperatorDecode(raw).Some? && Valid(OperatorDecode(raw).value),
      raw => if OperatorDecode(raw).Some? then render(OperatorDecode(raw).value) else None)
  }

  /** handleGenerate: decode (which normalizes), validate, wrap, apply; an error leaves the cluster alone. */
  function Generate(st: Cluster.State, n: string, request: Spec, stamp: Cluster.Stamp, round: Rounding): Cluster.State {
    var s := Normalize(request);
    if Valid(s) && Admits(Wrap(s, round)) then Cluster.ApiApply(st, n, Wrap(s, round), stamp) else st
  }

  /** After a successful generate, the artifact wanted for the CR is the rendering of the very spec requested. */
  lemma GeneratedIsWanted(
      st: Cluster.State, n: string, request: Spec, stamp: Cluster.Stamp, round: Rounding, render: Spec -> Option<string>)
    requires Float64(round)
    requires Valid(Normalize(request)) && Admits(Wrap(Normalize(request), round))
    ensures var st', c := Generate(st, n, request, stamp, round), SpecCompiler(render);
            && Cluster.Exists(st', n) && c.accept(Cluster.Live(st', n).raw)
            && Cluster.Want(c, Cluster.Live(st', n).raw) == render(Normalize(request))
  {
    var s, st' := Normalize(request), Generate(st, n, request, stamp, round);
    NormalizeTwice(request);
    AcceptedSpecReachesOperator(s, round);
    AppliedIsLive(st, n, Wrap(s, round), stamp);
  }

  lemma AppliedIsLive(st: Cluster.State, n: string, raw: Json, stamp: Cluster.Stamp)
    ensures var st' := Cluster.ApiApply(st, n, raw, stamp);
            Cluster.Exists(st', n) && Cluster.Live(st', n).raw == raw
  {
  }
}
