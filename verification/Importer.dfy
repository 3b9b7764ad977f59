/** ToSpec: the import loop over a compose file's services, and what the drafted spec promises. */
module Importer {
  import opened Prelude
  import opened Text
  import opened Traits
  import opened Specs
  import opened Compose

  datatype Note =
    | UmbrellaNormalized(name: string) | Unrecognized(key: string, image: string) | Skipped(key: string)
    | Renamed(key: string, name: string) | Numbered(name: string, deduped: string) | ManyPorts(key: string, port: int)
    | NoApplications | NotImported

  type Services = map<string, Service>

  /** What the YAML loader makes of the upload; the loader itself is not part of this model. */
  datatype ComposeFile = Blank | Unparsable | Parsed(name: string, services: Services)

  datatype ImportError = FileRequired | InvalidFile | NoServices

  // ----- the specification: one service after the other -------------------------------

  datatype Fate = Infra(dep: string) | Nameless | App

  function FateOf(key: string, svc: Service): Fate {
    if !svc.build && InfraKey(ImageBase(svc.image)).Some? then Infra(InfraKey(ImageBase(svc.image)).value)
    else if Kebab(key) == "" then Nameless
    else App
  }

  /** The subchart drafted for an application service. */
  function Entry(name: string, svc: Service): Subchart {
    Subchart(
      name,
      if svc.deploy.Some? && Lower(svc.deploy.value.mode) == "global" then "daemonset" else "",
      "",
      if PortOf(svc) > 0 then "api-microservice" else "worker",
      "",
      PortOf(svc),
      None,
      if svc.deploy.Some? && svc.deploy.value.replicas.Some? then "fixed" else "",
      None)
  }

  datatype Draft = Draft(subcharts: seq<Subchart>, dependencies: seq<string>, notes: seq<Note>, seen: set<string>)

  /** Append a note if there is cause for it. */
  function Noted(notes: seq<Note>, cause: bool, note: Note): seq<Note> {
    if cause then notes + [note] else notes
  }

  function ImageNoted(notes: seq<Note>, key: string, svc: Service): seq<Note> {
    Noted(notes, !svc.build && svc.image != "", Unrecognized(key, svc.image))
  }

  function AppNoted(notes: seq<Note>, key: string, svc: Service, seen: set<string>): seq<Note> {
    var base := Kebab(key);
    Noted(Noted(Noted(notes,
      base != TrimSpace(key), Renamed(key, base)),
      base in seen, Numbered(base, UniqueName(base, seen))),
      |PortsOf(svc)| > 1, ManyPorts(key, PortOf(svc)))
  }

  function ImportOne(d: Draft, key: string, svc: Service): Draft {
    match FateOf(key, svc)
    case Infra(dep) => if dep in d.dependencies then d else d.(dependencies := d.dependencies + [dep])
    case Nameless => d.(notes := ImageNoted(d.notes, key, svc) + [Skipped(key)])
    case App =>
      var name := UniqueName(Kebab(key), d.seen);
      Draft(d.subcharts + [Entry(name, svc)], d.dependencies,
            AppNoted(ImageNoted(d.notes, key, svc), key, svc, d.seen), d.seen + {name})
  }

  predicate Among(names: seq<string>, services: Services) {
    forall n :: n in names ==> n in services
  }

  function ImportAll(names: seq<string>, services: Services, start: seq<Note>): Draft
    requires Among(names, services)
  {
    if names == [] then Draft([], [], start, {})
    else
      var last := names[|names| - 1];
      ImportOne(ImportAll(names[..|names| - 1], services, start), last, services[last])
  }

  function TopNotes(top: string): seq<Note> {
    if Kebab(top) != "" && Kebab(top) != TrimSpace(top) then [UmbrellaNormalized(Kebab(top))] else []
  }

  predicate DropsSomething(services: Services) {
    exists k :: k in services && services[k].extras
  }

  ghost function DraftOf(top: string, services: Services): Draft {
    InOrderSorts(services.Keys);
    ImportAll(InOrder(services.Keys), services, TopNotes(top))
  }

  function Drafted(top: string, d: Draft): Spec {
    Spec(Kebab(top), "", d.subcharts, DEFAULT_RULES, Sort(d.dependencies))
  }

  function LastNoted(d: Draft, dropped: bool): seq<Note> {
    Noted(Noted(d.notes, d.subcharts == [], NoApplications), dropped, NotImported)
  }

  ghost function Imported(file: ComposeFile): Result<(Spec, seq<Note>), ImportError> {
    match file
    case Blank => Err(FileRequired)
    case Unparsable => Err(InvalidFile)
    case Parsed(top, services) =>
      if services == map[] then Err(NoServices)
      else
        var d := DraftOf(top, services);
        Ok((Normalize(Drafted(top, d)), LastNoted(d, DropsSomething(services))))
  }

  // ----- the loop ---------------------------------------------------------------------------

  /** for k := range proj.Services, in whatever order, then sort.Strings. */
  method SortedNames(services: Services) returns (names: seq<string>)
    ensures names == InOrder(services.Keys)
  {
    names := [];
    var rest := services.Keys;
    while rest != {}
      invariant rest <= services.Keys && multiset(names) + multiset(rest) == multiset(services.Keys)
      decreases |rest|
    {
      var k :| k in rest;
      names := names + [k];
      assert multiset(rest) == multiset(rest - {k}) + multiset{k};
      rest := rest - {k};
    }
    assert multiset(rest) == multiset{};
    SortSorts(names);
    InOrderSorts(services.Keys);
    SortedIsUnique(Sort(names), InOrder(services.Keys));
    names := Sort(names);
  }

  /** The fields an application service sets on its subchart. */
  method DraftSubchart(name: string, key: string, svc: Service, notes: seq<Note>) returns (sc: Subchart, more: seq<Note>)
    ensures sc == Entry(name, svc)
    ensures more == Noted(notes, |PortsOf(svc)| > 1, ManyPorts(key, PortOf(svc)))
  {
    sc, more := Subchart(name, "", "", "", "", 0, None, "", None), notes;
    var port, extra := FirstPort(svc);
    if port > 0 {
      sc := sc.(port := port, pattern := "api-microservice");
    } else {
      sc := sc.(pattern := "worker");
    }
    if extra { more := more + [ManyPorts(key, port)]; }
    if svc.deploy.Some? {
      if Lower(svc.deploy.value.mode) == "global" { sc := sc.(workload := "daemonset"); }
      if svc.deploy.value.replicas.Some? { sc := sc.(scaling := "fixed"); }
    }
  }

  /** One round of the loop for a service that is no infrastructure and has a name. */
  method ImportApp(d: Draft, key: string, svc: Service) returns (subcharts: seq<Subchart>, notes: seq<Note>, seen: set<string>)
    requires Kebab(key) != ""
    ensures notes == AppNoted(d.notes, key, svc, d.seen)
    ensures var name := UniqueName(Kebab(key), d.seen);
            subcharts == d.subcharts + [Entry(name, svc)] && seen == d.seen + {name}
  {
    notes, seen := d.notes, d.seen;
    var name := Kebab(key);
    if name != TrimSpace(key) { notes := notes + [Renamed(key, name)]; }
    if name in seen {
      var deduped := Dedupe(name, seen);
      notes := notes + [Numbered(name, deduped)];
      name := deduped;
    }
    seen := seen + {name};
    var sc: Subchart;
    sc, notes := DraftSubchart(name, key, svc, notes);
    subcharts := d.subcharts + [sc];
  }

  /** One round of the loop. */
  method ImportService(d: Draft, depSet: set<string>, key: string, svc: Service) returns (d': Draft, depSet': set<string>)
    requires forall x :: x in depSet <==> x in d.dependencies
    ensures d' == ImportOne(d, key, svc)
    ensures forall x :: x in depSet' <==> x in d'.dependencies
  {
    d', depSet' := d, depSet;
    var dep := if svc.build then None else InfraKey(ImageBase(svc.image));
    if dep.Some? {
      if dep.value !in depSet {
        depSet' := depSet + {dep.value};
        d' := d.(dependencies := d.dependencies + [dep.value]);
      }
      return;
    }
    if !svc.build && svc.image != "" { d' := d'.(notes := d'.notes + [Unrecognized(key, svc.image)]); }
    if Kebab(key) == "" {
      d' := d'.(notes := d'.notes + [Skipped(key)]);
      return;
    }
    var subcharts, notes, seen := ImportApp(d', key, svc);
    d' := Draft(subcharts, d'.dependencies, notes, seen);
  }

  predicate AnyExtras(names: seq<string>, services: Services)
    requires Among(names, services)
  {
    names != [] && (services[names[|names| - 1]].extras || AnyExtras(names[..|names| - 1], services))
  }

  lemma {:induction false} AnyExtrasIs(names: seq<string>, services: Services)
    requires Among(names, services)
    ensures AnyExtras(names, services) <==> exists k :: k in names && services[k].extras
  {
    if names != [] {
      var init, last := names[..|names| - 1], names[|names| - 1];
      assert names == init + [last];
      AnyExtrasIs(init, services);
    }
  }

  /** The loop over the sorted names. */
  method ImportServices(names: seq<string>, services: Services, start: seq<Note>) returns (d: Draft, sawDropped: bool)
    requires Among(names, services)
    ensures d == ImportAll(names, services, start)
    ensures sawDropped == AnyExtras(names, services)
  {
    var depSet: set<string> := {};
    d, sawDropped := Draft([], [], start, {}), false;
    for i := 0 to |names|
      invariant d == ImportAll(names[..i], services, start)
      invariant forall x :: x in depSet <==> x in d.dependencies
      invariant sawDropped == AnyExtras(names[..i], services)
    {
      var key := names[i];
      assert names[..i + 1][..i] == names[..i];
      if services[key].extras { sawDropped := true; }
      d, depSet := ImportService(d, depSet, key, services[key]);
    }
    assert names[..|names|] == names;
  }

  method UmbrellaName(name: string) returns (umbrella: string, notes: seq<Note>)
    ensures umbrella == Kebab(name) && notes == TopNotes(name)
  {
    umbrella, notes := "", [];
    var top := Kebab(name);
    if top != "" {
      umbrella := top;
      if top != TrimSpace(name) { notes := notes + [UmbrellaNormalized(top)]; }
    }
  }

  /** ToSpec up to its final Normalize. */
  method DraftSpec(name: string, services: Services) returns (spec: Spec, notes: seq<Note>)
    ensures var d := DraftOf(name, services);
            spec == Drafted(name, d) && notes == LastNoted(d, DropsSomething(services))
  {
    var umbrella, start := UmbrellaName(name);
    var names := SortedNames(services);
    InOrderSorts(services.Keys);
    AnyExtrasIs(names, services);
    var d, sawDropped := ImportServices(names, services, start);
    notes := d.notes;
    if d.subcharts == [] { notes := notes + [NoApplications]; }
    if sawDropped { notes := notes + [NotImported]; }
    spec := Spec(umbrella, "", d.subcharts, DEFAULT_RULES, Sort(d.dependencies));
  }

  /** The result depends on the service map alone, not on the order it is walked in. */
  method ToSpec(file: ComposeFile) returns (r: Result<(Spec, seq<Note>), ImportError>)
    ensures r == Imported(file)
  {
    if file.Blank? { return Err(FileRequired); }
    if file.Unparsable? { return Err(InvalidFile); }
    if file.services == map[] { return Err(NoServices); }
    var spec, notes := DraftSpec(file.name, file.services);
    return Ok((Normalize(spec), notes));
  }
}
