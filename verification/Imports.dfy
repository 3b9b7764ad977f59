/** What holds of every imported compose file: names, conservation of services, acceptance. */
module Imports {
  import opened Prelude
  import opened Text
  import opened Traits
  import opened Specs
  import opened Compose
  import opened Importer

  // ----- names ------------------------------------------------------------------

  ghost predicate NamesOk(d: Draft) {
    && (forall n :: n in d.seen <==> exists i :: 0 <= i < |d.subcharts| && d.subcharts[i].name == n)
    && (forall i, j :: 0 <= i < j < |d.subcharts| ==> d.subcharts[i].name != d.subcharts[j].name)
    && (forall i :: 0 <= i < |d.subcharts| ==> ValidName(d.subcharts[i].name))
  }

  lemma AddName(d: Draft, d': Draft, sc: Subchart)
    requires NamesOk(d) && ValidName(sc.name) && sc.name !in d.seen
    requires d'.subcharts == d.subcharts + [sc] && d'.seen == d.seen + {sc.name}
    ensures NamesOk(d')
  {
    forall n ensures n in d'.seen <==> exists i :: 0 <= i < |d'.subcharts| && d'.subcharts[i].name == n {
      if n in d.seen {
        var i :| 0 <= i < |d.subcharts| && d.subcharts[i].name == n;
        assert d'.subcharts[i].name == n;
      } else if n == sc.name {
        assert d'.subcharts[|d.subcharts|].name == n;
      }
    }
  }

  /** Whatever the service keys, the drafted names are valid and pairwise distinct. */
  lemma {:induction false} NamesAreDistinct(names: seq<string>, services: Services, start: seq<Note>)
    requires Among(names, services)
    ensures NamesOk(ImportAll(names, services, start))
  {
    if names != [] {
      var key := names[|names| - 1];
      var svc, before := services[key], ImportAll(names[..|names| - 1], services, start);
      NamesAreDistinct(names[..|names| - 1], services, start);
      if FateOf(key, svc).App? {
        var name := UniqueName(Kebab(key), before.seen);
        KebabIsName(key);
        UniqueNameIsFree(Kebab(key), before.seen);
        UniqueNameIsName(Kebab(key), before.seen);
        AddName(before, ImportAll(names, services, start), Entry(name, svc));
      }
    }
  }

  // ----- conservation -----------------------------------------------------------

  /** The application services among names, in order. */
  function Apps(names: seq<string>, services: Services): seq<string>
    requires Among(names, services)
  {
    if names == [] then []
    else
      var key := names[|names| - 1];
      Apps(names[..|names| - 1], services) + if FateOf(key, services[key]).App? then [key] else []
  }

  /** name is base, or base with a number. */
  ghost predicate NamedAfter(name: string, base: string) {
    name == base || exists n: nat :: n >= 2 && name == Suffixed(base, n)
  }

  /** sc is the draft of the service called key, and of no other. */
  ghost predicate DraftedFrom(sc: Subchart, key: string, services: Services)
    requires key in services
  {
    sc == Entry(sc.name, services[key]) && NamedAfter(sc.name, Kebab(key))
  }

  lemma {:induction false} AppsMembers(names: seq<string>, services: Services)
    requires Among(names, services)
    ensures forall k :: k in Apps(names, services) <==> k in names && FateOf(k, services[k]).App?
    ensures Distinct(names) ==> Distinct(Apps(names, services))
  {
    if names != [] {
      var init, key := names[..|names| - 1], names[|names| - 1];
      assert names == init + [key];
      AppsMembers(init, services);
      assert Distinct(names) ==> key !in init;
    }
  }

  lemma UniqueIsNamedAfter(base: string, seen: set<string>)
    ensures NamedAfter(UniqueName(base, seen), base)
  {
    if base in seen { UniqueNameIsFree(base, seen); }
  }

  /** The i-th subchart is drafted from the i-th application service. */
  lemma {:induction false} SubchartsAreApps(names: seq<string>, services: Services, start: seq<Note>)
    requires Among(names, services)
    ensures var d, apps := ImportAll(names, services, start), Apps(names, services);
            && |d.subcharts| == |apps|
            && forall i :: 0 <= i < |apps| ==> apps[i] in services && DraftedFrom(d.subcharts[i], apps[i], services)
  {
    if names != [] {
      var init, key := names[..|names| - 1], names[|names| - 1];
      SubchartsAreApps(init, services, start);
      UniqueIsNamedAfter(Kebab(key), ImportAll(init, services, start).seen);
    }
  }

  lemma DependencyStep(d: Draft, key: string, svc: Service)
    ensures var d' := ImportOne(d, key, svc);
            && (Distinct(d.dependencies) ==> Distinct(d'.dependencies))
            && forall x :: x in d'.dependencies <==> x in d.dependencies || FateOf(key, svc) == Infra(x)
  {
    match FateOf(key, svc)
    case Infra(dep) =>
    case Nameless =>
    case App =>
  }

  /** Dependencies are what the infrastructure services need, each once. */
  lemma {:induction false} DependenciesAreInfra(names: seq<string>, services: Services, start: seq<Note>)
    requires Among(names, services)
    ensures var d := ImportAll(names, services, start);
            && Distinct(d.dependencies)
            && forall x :: x in d.dependencies <==> exists k :: k in names && FateOf(k, services[k]) == Infra(x)
  {
    if names != [] {
      var init, key := names[..|names| - 1], names[|names| - 1];
      assert names == init + [key];
      var before := ImportAll(init, services, start);
      DependenciesAreInfra(init, services, start);
      DependencyStep(before, key, services[key]);
      forall x ensures x in before.dependencies || FateOf(key, services[key]) == Infra(x) <==>
                         exists k :: k in names && FateOf(k, services[k]) == Infra(x)
      {
        if FateOf(key, services[key]) == Infra(x) {
          assert key in names;
        } else if k :| k in init && FateOf(k, services[k]) == Infra(x) {
          assert k in names;
        }
      }
    }
  }

  /** The service becomes a subchart. */
  predicate IsApp(key: string, svc: Service) {
    Kebab(key) != "" && (svc.build || InfraKey(ImageBase(svc.image)).None?)
  }

  /** What gives cause for a note about one service. */
  predicate CausesNote(note: Note, key: string, svc: Service) {
    var known := !svc.build && InfraKey(ImageBase(svc.image)).Some?;
    match note
    case Skipped(k) => k == key && !known && Kebab(key) == ""
    case Unrecognized(k, image) => k == key && !known && !svc.build && svc.image == image != ""
    case Renamed(k, name) => k == key && !known && Kebab(key) == name != "" && name != TrimSpace(key)
    case ManyPorts(k, port) => k == key && !known && Kebab(key) != "" && |PortsOf(svc)| > 1 && port == PortOf(svc)
    case _ => false
  }

  lemma NotedMember(notes: seq<Note>, cause: bool, note: Note, x: Note)
    ensures x in Noted(notes, cause, note) <==> x in notes || (cause && x == note)
  {
  }

  lemma AppNotes(notes: seq<Note>, key: string, svc: Service, seen: set<string>, x: Note)
    requires !x.Numbered?
    ensures x in AppNoted(notes, key, svc, seen) <==>
              || x in notes || (Kebab(key) != TrimSpace(key) && x == Renamed(key, Kebab(key)))
              || (|PortsOf(svc)| > 1 && x == ManyPorts(key, PortOf(svc)))
  {
    var base := Kebab(key);
    var renamed := Noted(notes, base != TrimSpace(key), Renamed(key, base));
    var numbered := Noted(renamed, base in seen, Numbered(base, UniqueName(base, seen)));
    NotedMember(notes, base != TrimSpace(key), Renamed(key, base), x);
    NotedMember(renamed, base in seen, Numbered(base, UniqueName(base, seen)), x);
    NotedMember(numbered, |PortsOf(svc)| > 1, ManyPorts(key, PortOf(svc)), x);
  }

  lemma NoteStep(d: Draft, key: string, svc: Service, x: Note)
    requires !x.Numbered?
    ensures x in ImportOne(d, key, svc).notes <==> x in d.notes || CausesNote(x, key, svc)
  {
    FateIs(key, svc);
    NotedMember(d.notes, !svc.build && svc.image != "", Unrecognized(key, svc.image), x);
    AppNotes(ImageNoted(d.notes, key, svc), key, svc, d.seen, x);
  }

  predicate SomeCauses(names: seq<string>, services: Services, x: Note)
    requires Among(names, services)
  {
    names != [] &&
    var last := names[|names| - 1];
    SomeCauses(names[..|names| - 1], services, x) || CausesNote(x, last, services[last])
  }

  lemma {:induction false} SomeCausesIs(names: seq<string>, services: Services, x: Note)
    requires Among(names, services)
    ensures SomeCauses(names, services, x) <==> exists k :: k in names && CausesNote(x, k, services[k])
  {
    if names != [] {
      var init, last := names[..|names| - 1], names[|names| - 1];
      assert names == init + [last];
      SomeCausesIs(init, services, x);
      if k :| k in init && CausesNote(x, k, services[k]) { assert k in names; }
      assert last in names;
    }
  }

  /** Such notes are made exactly if some service gives cause for them. */
  lemma {:induction false} ServiceNotes(names: seq<string>, services: Services, start: seq<Note>, x: Note)
    requires Among(names, services) && !x.Numbered?
    ensures x in ImportAll(names, services, start).notes <==> x in start || SomeCauses(names, services, x)
  {
    if names != [] {
      var init, last := names[..|names| - 1], names[|names| - 1];
      ServiceNotes(init, services, start, x);
      NoteStep(ImportAll(init, services, start), last, services[last], x);
    }
  }

  /** What the fates come down to in the service's own fields. */
  lemma FateIs(key: string, svc: Service)
    ensures FateOf(key, svc).App? <==> Kebab(key) != "" && (svc.build || InfraKey(ImageBase(svc.image)).None?)
    ensures FateOf(key, svc).Nameless? <==> Kebab(key) == "" && (svc.build || InfraKey(ImageBase(svc.image)).None?)
    ensures forall x :: FateOf(key, svc) == Infra(x) <==> !svc.build && InfraKey(ImageBase(svc.image)) == Some(x)
  {
  }

  // Conservation: FateOf gives each service one of three fates, and each fate
  // shows in the draft in one way.

  ghost function AppsOf(services: Services): (apps: seq<string>)
    ensures Among(apps, services)
  {
    InOrderSorts(services.Keys);
    AppsMembers(InOrder(services.Keys), services);
    Apps(InOrder(services.Keys), services)
  }

  lemma AppsOfIs(services: Services)
    ensures Distinct(AppsOf(services)) && forall k :: k in AppsOf(services) <==> k in services && FateOf(k, services[k]).App?
  {
    InOrderSorts(services.Keys);
    CountsDistinct(InOrder(services.Keys));
    AppsMembers(InOrder(services.Keys), services);
  }

  lemma AppsAreSubcharts(top: string, services: Services)
    ensures var d, apps := DraftOf(top, services), AppsOf(services);
            && Distinct(apps) && |apps| == |d.subcharts|
            && forall i :: 0 <= i < |apps| ==> DraftedFrom(d.subcharts[i], apps[i], services)
  {
    InOrderSorts(services.Keys);
    AppsOfIs(services);
    SubchartsAreApps(InOrder(services.Keys), services, TopNotes(top));
  }

  /** The services that become subcharts: built from source or of an unrecognized image, with a name left after kebab. */
  lemma EveryAppIsASubchart(top: string, services: Services)
    ensures var d, apps := DraftOf(top, services), AppsOf(services);
            && Distinct(apps) && |apps| == |d.subcharts|
            && (forall k :: k in apps <==>
                  k in services && Kebab(k) != "" && (services[k].build || InfraKey(ImageBase(services[k].image)).None?))
            && forall i :: 0 <= i < |apps| ==> DraftedFrom(d.subcharts[i], apps[i], services)
  {
    AppsAreSubcharts(top, services);
    AppsOfIs(services);
    forall k | k in services
      ensures k in AppsOf(services) <==>
                Kebab(k) != "" && (services[k].build || InfraKey(ImageBase(services[k].image)).None?)
    {
      FateIs(k, services[k]);
    }
  }

  lemma DependenciesAreFates(top: string, services: Services)
    ensures var deps := Drafted(top, DraftOf(top, services)).dependencies;
            && Sorted(deps) && Distinct(deps)
            && forall x :: x in deps <==> exists k :: k in services && FateOf(k, services[k]) == Infra(x)
  {
    var deps := DraftOf(top, services).dependencies;
    InOrderSorts(services.Keys);
    DependenciesAreInfra(InOrder(services.Keys), services, TopNotes(top));
    SortSorts(deps);
    SortMembers(deps);
    SortKeepsDistinct(deps);
  }

  /** The dependencies: sorted and without duplicates, what recognized images stand for, services built from source left out. */
  lemma DependenciesAreTheInfraImages(top: string, services: Services)
    ensures var deps := Drafted(top, DraftOf(top, services)).dependencies;
            && Sorted(deps) && Distinct(deps)
            && forall x :: x in deps <==>
                 exists k :: k in services && !services[k].build && InfraKey(ImageBase(services[k].image)) == Some(x)
  {
    DependenciesAreFates(top, services);
    forall k | k in services
      ensures forall x :: FateOf(k, services[k]) == Infra(x) <==>
                !services[k].build && InfraKey(ImageBase(services[k].image)) == Some(x)
    {
      FateIs(k, services[k]);
    }
  }

  /** Every other service is noted as skipped: it has no name left, and nothing to depend on either. */
  lemma EveryOtherServiceIsNoted(top: string, services: Services, key: string)
    ensures Skipped(key) in DraftOf(top, services).notes <==>
              key in services && Kebab(key) == "" && (services[key].build || InfraKey(ImageBase(services[key].image)).None?)
  {
    InOrderSorts(services.Keys);
    ServiceNotes(InOrder(services.Keys), services, TopNotes(top), Skipped(key));
    SomeCausesIs(InOrder(services.Keys), services, Skipped(key));
    assert key in services ==>
      (CausesNote(Skipped(key), key, services[key]) <==>
        Kebab(key) == "" && (services[key].build || InfraKey(ImageBase(services[key].image)).None?));
  }

  lemma LastNotes(d: Draft, dropped: bool, x: Note)
    ensures x in LastNoted(d, dropped) <==>
              x in d.notes || (d.subcharts == [] && x == NoApplications) || (dropped && x == NotImported)
  {
    NotedMember(d.notes, d.subcharts == [], NoApplications, x);
    NotedMember(Noted(d.notes, d.subcharts == [], NoApplications), dropped, NotImported, x);
  }

  /** What gives cause for a note about the whole file. */
  predicate CausesFileNote(note: Note, top: string, services: Services) {
    match note
    case UmbrellaNormalized(name) => Kebab(top) == name != "" && name != TrimSpace(top)
    case NoApplications => forall k :: k in services ==> !IsApp(k, services[k])
    case NotImported => exists k :: k in services && services[k].extras
    case _ => false
  }

  /**
    The user is told exactly what could not be mapped: a service that is skipped, an
    image that is not recognized, a name that was changed, ports beyond the first,
    each for the services that give cause for it; and what is lost of the file.
  */
  lemma NotesTellWhatIsLost(top: string, services: Services, x: Note)
    requires services != map[] && !x.Numbered?
    ensures Imported(Parsed(top, services)).Ok? &&
            (x in Imported(Parsed(top, services)).value.1 <==>
              CausesFileNote(x, top, services) || exists k :: k in services && CausesNote(x, k, services[k]))
  {
    var d := DraftOf(top, services);
    InOrderSorts(services.Keys);
    ServiceNotes(InOrder(services.Keys), services, TopNotes(top), x);
    SomeCausesIs(InOrder(services.Keys), services, x);
    LastNotes(d, DropsSomething(services), x);
    NoSubchartsIff(top, services);
    forall k ensures k in InOrder(services.Keys) <==> k in services { }
  }

  lemma AppsAre(services: Services)
    ensures forall k :: k in AppsOf(services) <==> k in services && IsApp(k, services[k])
  {
    AppsOfIs(services);
    forall k | k in services ensures k in AppsOf(services) <==> IsApp(k, services[k]) { FateIs(k, services[k]); }
  }

  lemma NoSubchartsIff(top: string, services: Services)
    ensures DraftOf(top, services).subcharts == [] <==> forall k :: k in services ==> !IsApp(k, services[k])
  {
    var apps := AppsOf(services);
    AppsAreSubcharts(top, services);
    AppsAre(services);
    assert apps != [] ==> apps[0] in apps;
  }

  /** Some subchart drafted from a service that kebab calls base is called name instead. */
  predicate BearsNumber(scs: seq<Subchart>, apps: seq<string>, base: string, name: string)
    requires |scs| == |apps|
  {
    exists i :: 0 <= i < |apps| && Kebab(apps[i]) == base && scs[i].name == name && name != base
  }

  lemma NumberSnoc(scs: seq<Subchart>, apps: seq<string>, sc: Subchart, key: string, base: string, name: string)
    requires |scs| == |apps|
    ensures BearsNumber(scs + [sc], apps + [key], base, name) <==>
              BearsNumber(scs, apps, base, name) || (Kebab(key) == base && sc.name == name && name != base)
  {
    var more, keys := scs + [sc], apps + [key];
    assert forall i :: 0 <= i < |apps| ==> more[i] == scs[i] && keys[i] == apps[i];
    assert more[|apps|] == sc && keys[|apps|] == key;
  }

  /** A numbered name is noted exactly for the subcharts that bear one instead of their service's own. */
  lemma {:induction false} NumberedNotes(names: seq<string>, services: Services, start: seq<Note>, base: string, name: string)
    requires Among(names, services) && Numbered(base, name) !in start
    ensures var d, apps := ImportAll(names, services, start), Apps(names, services);
            |d.subcharts| == |apps| && (Numbered(base, name) in d.notes <==> BearsNumber(d.subcharts, apps, base, name))
  {
    if names != [] {
      var init, key := names[..|names| - 1], names[|names| - 1];
      var d, apps := ImportAll(init, services, start), Apps(init, services);
      NumberedNotes(init, services, start, base, name);
      NumberedStep(d, key, services[key], base, name);
      if FateOf(key, services[key]).App? {
        NumberSnoc(d.subcharts, apps, Entry(UniqueName(Kebab(key), d.seen), services[key]), key, base, name);
      } else {
        assert Apps(names, services) == apps && ImportAll(names, services, start).subcharts == d.subcharts;
      }
    }
  }

  lemma NumberedNamesAreNoted(top: string, services: Services, base: string, name: string)
    requires services != map[]
    ensures var d, apps := DraftOf(top, services), AppsOf(services);
            && |d.subcharts| == |apps| && Imported(Parsed(top, services)).Ok?
            && (Numbered(base, name) in Imported(Parsed(top, services)).value.1 <==> BearsNumber(d.subcharts, apps, base, name))
  {
    InOrderSorts(services.Keys);
    NumberedNotes(InOrder(services.Keys), services, TopNotes(top), base, name);
    LastNotes(DraftOf(top, services), DropsSomething(services), Numbered(base, name));
  }

  lemma NumberedStep(d: Draft, key: string, svc: Service, base: string, name: string)
    ensures Numbered(base, name) in ImportOne(d, key, svc).notes <==>
              || Numbered(base, name) in d.notes
              || (FateOf(key, svc).App? && Kebab(key) == base && UniqueName(base, d.seen) == name != base)
  {
    var imaged, b, x := ImageNoted(d.notes, key, svc), Kebab(key), Numbered(base, name);
    var renamed := Noted(imaged, b != TrimSpace(key), Renamed(key, b));
    var numbered := Noted(renamed, b in d.seen, Numbered(b, UniqueName(b, d.seen)));
    NotedMember(d.notes, !svc.build && svc.image != "", Unrecognized(key, svc.image), x);
    NotedMember(imaged, b != TrimSpace(key), Renamed(key, b), x);
    NotedMember(renamed, b in d.seen, Numbered(b, UniqueName(b, d.seen)), x);
    NotedMember(numbered, |PortsOf(svc)| > 1, ManyPorts(key, PortOf(svc)), x);
    if b in d.seen { SuffixIsLonger(b, UniqueSuffix(b, d.seen)); }
  }

  // ----- acceptance -------------------------------------------------------------------

  lemma InfraKeyIsName(base: string)
    requires InfraKey(base).Some?
    ensures ValidName(InfraKey(base).value)
  {
  }

  lemma EntryIsNormal(name: string, svc: Service)
    requires ValidName(name)
    ensures NormalSubchart(Entry(name, svc)) == Entry(name, svc)
  {
    NameIsNormal(name);
    NameIsNormal("daemonset");
    NameIsNormal("api-microservice");
    NameIsNormal("worker");
    NameIsNormal("fixed");
    assert Sanitize("") == "" && TrimSpace("") == "";
  }

  lemma SubchartsAreNormal(top: string, services: Services)
    ensures var scs := DraftOf(top, services).subcharts; NormalSubcharts(scs) == scs
  {
    var d := DraftOf(top, services);
    InOrderSorts(services.Keys);
    NamesAreDistinct(InOrder(services.Keys), services, TopNotes(top));
    AppsAreSubcharts(top, services);
    forall i | 0 <= i < |d.subcharts| ensures NormalSubchart(d.subcharts[i]) == d.subcharts[i] {
      EntryIsNormal(d.subcharts[i].name, services[AppsOf(services)[i]]);
    }
  }

  lemma DependenciesAreNormal(top: string, services: Services)
    ensures var deps := Drafted(top, DraftOf(top, services)).dependencies; SanitizeAll(deps) == deps
  {
    var deps := Drafted(top, DraftOf(top, services)).dependencies;
    DependenciesAreFates(top, services);
    forall i | 0 <= i < |deps| ensures Sanitize(deps[i]) == deps[i] {
      var k :| k in services && FateOf(k, services[k]) == Infra(deps[i]);
      InfraKeyIsName(ImageBase(services[k].image));
      NameIsNormal(deps[i]);
    }
  }

  /** The final Normalize of ToSpec finds nothing to do. */
  lemma DraftedIsNormal(top: string, services: Services)
    ensures var spec := Drafted(top, DraftOf(top, services)); Normalize(spec) == spec
  {
    SubchartsAreNormal(top, services);
    DependenciesAreNormal(top, services);
    KebabIsName(top);
    if Kebab(top) != "" { NameIsNormal(Kebab(top)); }
    NameIsNormal("alb");
    assert Sanitize("") == "" && TrimSpace("") == "";
  }

  /** A drafted subchart resolves exactly if its port fits. */
  lemma EntryResolves(name: string, svc: Service)
    ensures Resolve(KeysOf(Entry(name, svc)), Alb).Ok? <==> PortOf(svc) <= 65535
  {
    PortIsPositive(svc);
    var sc := Entry(name, svc);
    assert WorkloadOf(sc.workload) in {Unset, Is(DaemonSet)};
    assert PatternOf(sc.pattern) == if PortOf(svc) > 0 then Is(ApiMicroservice) else Is(WorkerPattern);
    assert ScalingOf(sc.scaling) in {Unset, Is(Fixed)};
    assert ExposureOf(sc.exposure) == Unset;
  }

  /** What a draft resolves to: an HTTP API on its port or a worker, one pod per node or a pinned count if it says so. */
  lemma DraftedTraits(name: string, svc: Service)
    requires PortOf(svc) <= 65535
    ensures var t := Resolve(KeysOf(Entry(name, svc)), Alb);
            var global, pinned := svc.deploy.Some? && Lower(svc.deploy.value.mode) == "global",
                                  svc.deploy.Some? && svc.deploy.value.replicas.Some?;
            && t.Ok? && Entry(name, svc).name == name && t.value.port == PortOf(svc)
            && (if PortOf(svc) > 0 then t.value.pattern == ApiMicroservice && t.value.exposure == Http
                else t.value.pattern == WorkerPattern && t.value.exposure == NoExposure)
            && t.value.workload == (if global then DaemonSet else Deployment)
            && t.value.scaling == (if global || pinned then Fixed else Auto)
            && (t.value.ingress <==> PortOf(svc) > 0) && t.value.sharedEnv
  {
    PortIsPositive(svc);
    var sc := Entry(name, svc);
    WorkloadIsRead(sc.workload, DaemonSet);
    ScalingIsRead(sc.scaling, Fixed);
    PatternIsRead(sc.pattern, ApiMicroservice);
    PatternIsRead(sc.pattern, WorkerPattern);
    assert ExposureOf(sc.exposure) == Unset;
  }

  lemma DraftIsValidIff(top: string, services: Services)
    ensures var d := DraftOf(top, services);
            Valid(Drafted(top, d)) <==>
              && Kebab(top) != "" && d.subcharts != []
              && forall i :: 0 <= i < |d.subcharts| ==> d.subcharts[i].name != "global" && d.subcharts[i].port <= 65535
  {
    var d := DraftOf(top, services);
    var spec := Drafted(top, d);
    InOrderSorts(services.Keys);
    NamesAreDistinct(InOrder(services.Keys), services, TopNotes(top));
    AppsAreSubcharts(top, services);
    KebabIsName(top);
    forall i | 0 <= i < |d.subcharts|
      ensures ValidAt(d.subcharts, i, Alb) <==> d.subcharts[i].name != "global" && d.subcharts[i].port <= 65535
    {
      EntryResolves(d.subcharts[i].name, services[AppsOf(services)[i]]);
    }
    assert ControllerOf(spec.rules.ingress) == Some(Alb);
    assert !ValidName("");
  }

  /** The kebab form of every application service is in use, by itself or by an earlier service. */
  lemma {:induction false} KebabIsTaken(names: seq<string>, services: Services, start: seq<Note>, key: string)
    requires Among(names, services) && key in Apps(names, services)
    ensures Kebab(key) in ImportAll(names, services, start).seen
  {
    var init := names[..|names| - 1];
    if key in Apps(init, services) { KebabIsTaken(init, services, start, key); }
  }

  /** A subchart is called global exactly if some application service's name reduces to it. */
  lemma GlobalIsAService(top: string, services: Services)
    ensures var d := DraftOf(top, services);
            (exists i :: 0 <= i < |d.subcharts| && d.subcharts[i].name == "global") <==>
              exists k :: k in AppsOf(services) && Kebab(k) == "global"
  {
    var d, apps := DraftOf(top, services), AppsOf(services);
    InOrderSorts(services.Keys);
    NamesAreDistinct(InOrder(services.Keys), services, TopNotes(top));
    AppsAreSubcharts(top, services);
    if i :| 0 <= i < |d.subcharts| && d.subcharts[i].name == "global" {
      OnlyPlainGlobal(Kebab(apps[i]));
      assert apps[i] in apps;
    }
    if k :| k in apps && Kebab(k) == "global" {
      KebabIsTaken(InOrder(services.Keys), services, TopNotes(top), k);
    }
  }

  lemma OnlyPlainGlobal(base: string)
    requires NamedAfter("global", base)
    ensures base == "global"
  {
    forall n: nat ensures Suffixed(base, n) != "global" {
      assert '-' in Suffixed(base, n) by { assert Suffixed(base, n)[|base|] == '-'; }
      assert '-' !in "global";
    }
  }

  /**
    What an import returns is accepted by Validate exactly if the file names the
    umbrella chart, holds an application service, none of which reduces to the
    reserved name, and every one's first port fits.
  */
  lemma ImportIsValidIff(top: string, services: Services)
    requires services != map[]
    ensures Imported(Parsed(top, services)).Ok? &&
            (Valid(Imported(Parsed(top, services)).value.0) <==>
              && Kebab(top) != "" && (exists k :: k in services && IsApp(k, services[k]))
              && forall k :: k in services && IsApp(k, services[k]) ==> Kebab(k) != "global" && PortOf(services[k]) <= 65535)
  {
    var d, apps := DraftOf(top, services), AppsOf(services);
    AppsAre(services);
    NoSubchartsIff(top, services);
    DraftedIsNormal(top, services);
    DraftIsValidIff(top, services);
    AppsAreSubcharts(top, services);
    GlobalIsAService(top, services);
    PortsMatch(top, services);
  }

  lemma PortsMatch(top: string, services: Services)
    ensures var d, apps := DraftOf(top, services), AppsOf(services);
            (forall i :: 0 <= i < |d.subcharts| ==> d.subcharts[i].port <= 65535) <==>
              forall k :: k in apps ==> k in services && PortOf(services[k]) <= 65535
  {
    var d, apps := DraftOf(top, services), AppsOf(services);
    AppsAreSubcharts(top, services);
    forall i | 0 <= i < |apps| ensures d.subcharts[i].port == PortOf(services[apps[i]]) {
      assert DraftedFrom(d.subcharts[i], apps[i], services);
    }
    assert (forall k :: k in apps ==> PortOf(services[k]) <= 65535) <==>
           (forall i :: 0 <= i < |apps| ==> PortOf(services[apps[i]]) <= 65535);
  }
}
