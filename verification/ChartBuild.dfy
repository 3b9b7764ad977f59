/**
  BuildChart: the umbrella and its subcharts as objects, the loop that builds
  them, and the umbrella's definitions collected from one chart and inlined into
  another.
*/
module ChartBuild {
  import opened Prelude
  import opened Text
  import opened Traits
  import opened Replacing
  import opened Renaming
  import opened YamlKeys
  import opened Subcharts
  import opened SubchartValues
  import opened ChartObject
  import opened SubchartBuild
  import Specs
  import ValuesText

  // ----- template files as text and as structure -------------------------------------------

  /** The files of these templates. */
  function Printed(ts: Templates): (r: Texts)
    ensures |r| == |ts| && forall i :: 0 <= i < |ts| ==> r[i] == (ts[i].name, Renaming.Print(ts[i].body))
  {
    seq(|ts|, i requires 0 <= i < |ts| => (ts[i].name, Renaming.Print(ts[i].body)))
  }

  /** Replacing in the files renames the templates. */
  lemma ReplacingRenames(ts: Templates, swaps: seq<Swap>)
    requires Replacing.Proper(swaps)
    ensures ReplacedTexts(Printed(ts), swaps) == Printed(RenameAll(ts, swaps))
  {
    forall i | 0 <= i < |ts| ensures ReplacedTexts(Printed(ts), swaps)[i] == Printed(RenameAll(ts, swaps))[i] {
      RenamingIsByName(ts[i].body, swaps);
    }
  }

  /** The .tpl files one after another, each followed by a newline. */
  function CollectedText(texts: Texts): string {
    if texts == [] then ""
    else
      var init, last := texts[..|texts| - 1], texts[|texts| - 1];
      if IsTpl(last.0) then CollectedText(init) + last.1 + "\n" else CollectedText(init)
  }

  /** A file whose name ends in .tpl counts with a newline behind it, any other not at all, and the pieces stand in order. */
  lemma CollectedFile(stem: string, data: string)
    ensures CollectedText([(stem + ".tpl", data)]) == data + "\n"
    ensures (forall s: string :: stem != s + ".tpl") ==> CollectedText([(stem, data)]) == ""
  {
    assert (stem + ".tpl")[|stem|..] == ".tpl";
    if IsTpl(stem) { assert stem == stem[..|stem| - 4] + ".tpl"; }
    assert [(stem + ".tpl", data)][..0] == [] && [(stem, data)][..0] == [];
  }

  lemma {:induction false} CollectedPieces(a: Texts, b: Texts)
    ensures CollectedText(a + b) == CollectedText(a) + CollectedText(b)
    decreases |b|
  {
    if b == [] {
      assert a + b == a && CollectedText(a) + "" == CollectedText(a);
    } else {
      var init, last := b[..|b| - 1], b[|b| - 1];
      assert (a + b)[..|a + b| - 1] == a + init;
      CollectedPieces(a, init);
      Associate(CollectedText(a), CollectedText(init), last.1);
      Associate(CollectedText(a), CollectedText(init) + last.1, "\n");
    }
  }

  /** collectUmbrellaDefines */
  method CollectUmbrellaDefines(fs: seq<File>) returns (defines: string)
    ensures defines == CollectedText(TextsOf(fs))
  {
    defines := "";
    ghost var texts := TextsOf(fs);
    for i := 0 to |fs|
      invariant defines == CollectedText(texts[..i])
    {
      assert texts[..i + 1][..i] == texts[..i];
      if IsTpl(fs[i].name) {
        defines := defines + fs[i].data + "\n";
      }
    }
    assert texts[..|fs|] == texts;
  }

  lemma {:induction false} CollectingCollects(ts: Templates)
    ensures CollectedText(Printed(ts)) == Renaming.Print(Collected(ts))
  {
    if ts != [] {
      var k := |ts| - 1;
      CollectingCollects(ts[..k]);
      assert Printed(ts)[..k] == Printed(ts[..k]);
      if IsTpl(ts[k].name) {
        JoinedPrints(Collected(ts[..k]), ts[k].body);
        JoinedPrints(Joined(Collected(ts[..k]), ts[k].body), NEWLINE);
        assert Renaming.Print(NEWLINE) == "\n";
      }
    }
  }

  lemma PrintedCons(t: TemplateFile, rest: Templates)
    ensures Printed([t] + rest) == [(t.name, Renaming.Print(t.body))] + Printed(rest)
  {
  }

  lemma {:induction false} InliningInlines(ts: Templates, defines: Body)
    ensures InlinedText(Printed(ts), Renaming.Print(defines)) == Printed(Inlined(ts, defines))
  {
    if ts == [] {
      PrintedCons(TemplateFile(HELPERS, defines), []);
      assert [TemplateFile(HELPERS, defines)] + [] == [TemplateFile(HELPERS, defines)];
    } else {
      var first, rest := ts[0], ts[1..];
      assert ts == [first] + rest;
      PrintedCons(first, rest);
      assert Printed(ts)[1..] == Printed(rest);
      if first.name == HELPERS {
        JoinedPrints(NEWLINE, defines);
        JoinedPrints(first.body, Joined(NEWLINE, defines));
        assert Renaming.Print(NEWLINE) == "\n";
        Associate(Renaming.Print(first.body), "\n", Renaming.Print(defines));
        PrintedCons(first.(body := Joined(first.body, Joined(NEWLINE, defines))), rest);
      } else {
        InliningInlines(rest, defines);
        PrintedCons(first, Inlined(rest, defines));
      }
    }
  }

  /**
    With linked_templates off: when the umbrella's files hold its renamed templates
    and the subchart's files what became of its own, the collected definitions
    inlined leave files with templates that resolve every reference on their own.
  */
  lemma InlinedTextStandsAlone(us: Templates, ss: Templates, built: Templates, u: string, c: string)
    requires Specs.ValidName(u) && Specs.ValidName(c)
    requires Linked(us, ss, c) && SelfContained(us) && Develops(RenameAll(ss, SubchartSwaps(u, c)), built, c)
    ensures var renamed := ReplacedTexts(Printed(us), UmbrellaSwaps(u));
            var closed := Inlined(built, Collected(RenameAll(us, UmbrellaSwaps(u))));
            InlinedText(Printed(built), CollectedText(renamed)) == Printed(closed) && Resolves([], closed, c)
  {
    var renamed := RenameAll(us, UmbrellaSwaps(u));
    ReplacingRenames(us, UmbrellaSwaps(u));
    CollectingCollects(renamed);
    InliningInlines(built, Collected(renamed));
    UnlinkedSubchartStandsAlone(us, ss, built, u, c);
  }

  /** The same of the whole of buildSubchart: built is what its later steps make of the renamed templates. */
  lemma BuiltSubchartStandsAlone(us: Templates, ss: Templates, built: Templates, texts: Texts, u: string, c: string, r: Recipe)
    requires Specs.ValidName(u) && Specs.ValidName(c) && !r.rules.linkedTemplates
    requires WorkloadTexts(texts, r.traits.workload) == Printed(ss) && Linked(us, ss, c) && SelfContained(us)
    requires r.defines == CollectedText(ReplacedTexts(Printed(us), UmbrellaSwaps(u)))
    requires var renamed := RenameAll(ss, SubchartSwaps(u, c));
             ServedTexts(Printed(renamed), r) == Printed(built) && Develops(renamed, built, c)
    ensures var closed := Inlined(built, Collected(RenameAll(us, UmbrellaSwaps(u))));
            BuiltTexts(texts, SubchartSwaps(u, c), r) == Printed(closed) && Resolves([], closed, c)
  {
    ReplacingRenames(ss, SubchartSwaps(u, c));
    InlinedTextStandsAlone(us, ss, built, u, c);
  }

  // ----- loading ---------------------------------------------------------------------------

  /** A chart directory as the loader reads it. */
  datatype Source = Source(name: string, templates: Texts, files: Texts, raw: Texts)

  /** The text of the first values.yaml, "" if there is none. */
  function ValuesIn(raw: Texts): string {
    if raw == [] then "" else if raw[0].0 == VALUES_FILE then raw[0].1 else ValuesIn(raw[1..])
  }

  lemma {:induction false} ValuesAreIn(fs: seq<File>)
    ensures TextOf(fs, VALUES_FILE) == ValuesIn(TextsOf(fs))
  {
    if fs != [] {
      ValuesAreIn(fs[1..]);
      assert TextsOf(fs)[1..] == TextsOf(fs[1..]);
    }
  }

  method NewFiles(texts: Texts) returns (fs: seq<File>)
    ensures TextsOf(fs) == texts && Distinct(fs) && forall i :: 0 <= i < |fs| ==> fresh(fs[i])
  {
    fs := [];
    for i := 0 to |texts|
      invariant |fs| == i && Distinct(fs)
      invariant forall j :: 0 <= j < i ==> fresh(fs[j]) && (fs[j].name, fs[j].data) == texts[j]
    {
      var f := new File(texts[i].0, texts[i].1);
      fs := fs + [f];
    }
  }

  /** loader.Load: every file a new object, the values parsed from the text. */
  method Load(src: Source, parse: Parser) returns (ch: Chart?)
    ensures ch == null <==> parse(ValuesIn(src.raw)).None?
    ensures ch != null ==>
              && fresh(ch) && ch.Valid() && ch.Coherent(parse) && ch.RawValues() == ValuesIn(src.raw)
              && ch.name == src.name && TextsOf(ch.templates) == src.templates && TextsOf(ch.files) == src.files
              && (forall i :: 0 <= i < |ch.templates| ==> fresh(ch.templates[i]))
              && (forall i :: 0 <= i < |ch.files| ==> fresh(ch.files[i]))
              && (forall i :: 0 <= i < |ch.raw| ==> fresh(ch.raw[i]))
  {
    var values := parse(ValuesIn(src.raw));
    if values.None? { return null; }
    var templates := NewFiles(src.templates);
    var files := NewFiles(src.files);
    var raw := NewFiles(src.raw);
    ch := new Chart(src.name, templates, files, raw, values.value);
    ValuesAreIn(raw);
  }

  // ----- BuildChart -------------------------------------------------------------------------

  /** What a chart is called, its template files, its values text, and whether that is what renders. */
  datatype Look = Look(name: string, templates: Texts, text: string, coherent: bool)

  ghost function LookOf(ch: Chart, parse: Parser): Look
    reads ch, ch.raw, ch.templates
  {
    Look(ch.name, TextsOf(ch.templates), ch.RawValues(), ch.Coherent(parse))
  }

  ghost function Objects(fs: seq<File>): (r: set<object>)
    ensures forall f :: f in fs ==> f in r
  {
    set i | 0 <= i < |fs| :: fs[i]
  }

  /** The two charts share no object that a change of the umbrella's values writes to. */
  ghost predicate Separate(umbrella: Chart, sub: Chart)
    reads umbrella, sub
  {
    && umbrella != sub
    && forall j :: 0 <= j < |umbrella.raw| ==> umbrella.raw[j] !in Objects(sub.templates) && umbrella.raw[j] !in Objects(sub.raw)
  }

  /** One subchart to build. */
  datatype Job = Job(umbrella: string, name: string, recipe: Recipe, words: Words)

  predicate Named(job: Job) {
    Specs.ValidName(job.umbrella) && Specs.ValidName(job.name)
  }

  /** The values text as applyTraits gets it. */
  function StartOf(job: Job, text: string, parse: Parser): string
    requires Named(job)
  {
    Placed(text, SubchartSwaps(job.umbrella, job.name), parse)
  }

  /** The subchart as buildSubchart leaves it, provided that every values text on the way parses. */
  function Outcome(job: Job, src: Source, parse: Parser): Option<Look>
    requires Named(job)
  {
    var text, r := ValuesIn(src.raw), job.recipe;
    var start := StartOf(job, text, parse);
    if parse(text).None? || !Parses(start, r.traits, r.rules, job.words, parse) then None
    else Some(Look(job.name, BuiltTexts(src.templates, SubchartSwaps(job.umbrella, job.name), r),
                FinishedText(start, r.traits, r.rules, job.words), true))
  }

  lemma OutcomeIs(job: Job, src: Source, parse: Parser, ok: bool, look: Look)
    requires Named(job) && parse(ValuesIn(src.raw)).Some?
    requires ok <==> Parses(StartOf(job, ValuesIn(src.raw), parse), job.recipe.traits, job.recipe.rules, job.words, parse)
    requires ok ==> look.name == job.name && look.coherent
    requires ok ==> look.templates == BuiltTexts(src.templates, SubchartSwaps(job.umbrella, job.name), job.recipe)
    requires ok ==> look.text ==
                      FinishedText(StartOf(job, ValuesIn(src.raw), parse), job.recipe.traits, job.recipe.rules, job.words)
    ensures Outcome(job, src, parse) == if ok then Some(look) else None
  {
  }

  lemma NothingLoaded(job: Job, src: Source, parse: Parser)
    requires Named(job) && parse(ValuesIn(src.raw)).None?
    ensures Outcome(job, src, parse) == None
  {
  }

  /** buildSubchart on what was loaded. */
  method BuildLoaded(ch: Chart, job: Job, src: Source, parse: Parser) returns (ok: bool)
    requires Named(job) && ch.Valid() && ch.Coherent(parse) && parse(ValuesIn(src.raw)).Some?
    requires ch.RawValues() == ValuesIn(src.raw) && TextsOf(ch.templates) == src.templates
    modifies ch, ch.templates, ch.files, ch.raw
    ensures Outcome(job, src, parse) == if ok then Some(LookOf(ch, parse)) else None
    ensures fresh(Objects(ch.templates) - Objects(old(ch.templates))) && fresh(Objects(ch.raw) - Objects(old(ch.raw)))
  {
    ok := BuildSubchart(ch, parse, job.umbrella, job.name, job.recipe, job.words);
    OutcomeIs(job, src, parse, ok, LookOf(ch, parse));
  }

  /** Load the subchart template and build it. */
  method BuildOne(job: Job, src: Source, parse: Parser) returns (sub: Chart?)
    requires Named(job)
    ensures sub == null ==> Outcome(job, src, parse) == None
    ensures sub != null ==> Outcome(job, src, parse) == Some(LookOf(sub, parse))
    ensures sub != null ==> fresh(sub) && fresh(Objects(sub.templates)) && fresh(Objects(sub.raw))
  {
    sub := Load(src, parse);
    if sub == null {
      NothingLoaded(job, src, parse);
      return;
    }
    assert fresh(Objects(sub.templates)) && fresh(Objects(sub.raw));
    var ok := BuildLoaded(sub, job, src, parse);
    if !ok { return null; }
  }

  predicate AllNamed(jobs: seq<Job>) {
    forall i :: 0 <= i < |jobs| ==> Named(jobs[i])
  }

  /** The outcomes of these jobs, one by one. */
  function Outcomes(jobs: seq<Job>, src: Source, parse: Parser): (r: seq<Option<Look>>)
    requires AllNamed(jobs)
    ensures |r| == |jobs|
    decreases |jobs|
  {
    if jobs == [] then [] else Outcomes(jobs[..|jobs| - 1], src, parse) + [Outcome(jobs[|jobs| - 1], src, parse)]
  }

  lemma {:induction false} OutcomesAt(jobs: seq<Job>, src: Source, parse: Parser, i: nat)
    requires AllNamed(jobs) && i < |jobs|
    ensures Outcomes(jobs, src, parse)[i] == Outcome(jobs[i], src, parse)
    decreases |jobs|
  {
    if i < |jobs| - 1 { OutcomesAt(jobs[..|jobs| - 1], src, parse, i); }
  }

  /** The i-th round. */
  method BuildNext(jobs: seq<Job>, i: nat, src: Source, parse: Parser) returns (sub: Chart?, ghost look: Option<Look>)
    requires AllNamed(jobs) && i < |jobs|
    ensures look == Outcomes(jobs, src, parse)[i] && (sub == null <==> look.None?)
    ensures sub != null ==> LookOf(sub, parse) == look.value
    ensures sub != null ==> fresh(sub) && fresh(Objects(sub.templates)) && fresh(Objects(sub.raw))
  {
    sub := BuildOne(jobs[i], src, parse);
    OutcomesAt(jobs, src, parse, i);
    look := if sub == null then None else Some(LookOf(sub, parse));
  }

  /** The loop over the subcharts; it stops at the first that fails. */
  method BuildSubcharts(jobs: seq<Job>, src: Source, parse: Parser) returns (ok: bool, subs: seq<Chart>)
    requires AllNamed(jobs)
    ensures if ok then |subs| == |jobs| else subs == [] && None in Outcomes(jobs, src, parse)
    ensures forall i :: 0 <= i < |subs| ==> fresh(subs[i]) && fresh(Objects(subs[i].templates)) && fresh(Objects(subs[i].raw))
    ensures forall i :: 0 <= i < |subs| ==> Outcomes(jobs, src, parse)[i] == Some(LookOf(subs[i], parse))
  {
    subs := [];
    ghost var outcomes := Outcomes(jobs, src, parse);
    for i := 0 to |jobs|
      invariant |subs| == i
      invariant forall j :: 0 <= j < |subs| ==>
        fresh(subs[j]) && fresh(Objects(subs[j].templates)) && fresh(Objects(subs[j].raw))
      invariant forall j :: 0 <= j < |subs| ==> Some(LookOf(subs[j], parse)) == outcomes[j]
    {
      var sub, look := BuildNext(jobs, i, src, parse);
      if sub == null { return false, []; }
      subs := subs + [sub];
    }
    ok := true;
  }

  /** What is inlined: nothing when the templates stay linked. */
  function Defines(templates: Texts, umbrella: string, linked: bool): string
    requires Specs.ValidName(umbrella)
  {
    if linked then "" else CollectedText(ReplacedTexts(templates, UmbrellaSwaps(umbrella)))
  }

  /** renameChart is the replacement of the one placeholder. */
  method Rename(ch: Chart, parse: Parser, name: string)
    requires ch.Valid() && ch.Coherent(parse) && ch.name == PLACEHOLDER && Specs.ValidName(name)
    modifies ch`name, ch.templates, ch.files
    ensures ch.Valid() && ch.Coherent(parse) && ch.name == name
    ensures TextsOf(ch.templates) == ReplacedTexts(old(TextsOf(ch.templates)), UmbrellaSwaps(name))
  {
    assert '"' !in PLACEHOLDER;
    assert Replacing.Proper(UmbrellaSwaps(name));
    ch.RenameChart(parse, name);
  }

  /** renameChart and the first setValues. */
  method Seed(ch: Chart, parse: Parser, name: string, text: string) returns (ok: bool)
    requires ch.Valid() && ch.Coherent(parse) && ch.name == PLACEHOLDER && Specs.ValidName(name)
    modifies ch`name, ch`raw, ch`values, ch.templates, ch.files, ch.raw
    ensures ch.Valid() && ch.Coherent(parse) && ch.name == name && ok == parse(text).Some?
    ensures ok ==> ch.RawValues() == text
    ensures TextsOf(ch.templates) == ReplacedTexts(old(TextsOf(ch.templates)), UmbrellaSwaps(name))
    ensures forall i :: 0 <= i < |ch.raw| ==> ch.raw[i] in old(ch.raw) || fresh(ch.raw[i])
  {
    Rename(ch, parse, name);
    ghost var texts := ReplacedTexts(old(TextsOf(ch.templates)), UmbrellaSwaps(name));
    assert forall i :: 0 <= i < |ch.templates| ==> ch.templates[i] !in ch.raw;
    ok := ch.SetValues(parse, text);
    assert TextsOf(ch.templates) == texts;
  }

  /** The umbrella loaded, renamed and given its values, and the definitions collected from it. */
  method OpenUmbrella(src: Source, name: string, text: string, linked: bool, parse: Parser)
    returns (ch: Chart?, defines: string)
    requires src.name == PLACEHOLDER && Specs.ValidName(name)
    ensures ch != null <==> parse(ValuesIn(src.raw)).Some? && parse(text).Some?
    ensures ch != null ==> fresh(ch) && ch.Valid() && ch.Coherent(parse) && ch.name == name && ch.RawValues() == text
    ensures ch != null ==> forall i :: 0 <= i < |ch.raw| ==> fresh(ch.raw[i])
    ensures ch != null ==> defines == Defines(src.templates, name, linked)
  {
    defines := "";
    ch := Load(src, parse);
    if ch == null { return; }
    ghost var raw := ch.raw;
    var ok := Seed(ch, parse, name, text);
    forall j | 0 <= j < |ch.raw| ensures fresh(ch.raw[j]) {
      if l :| 0 <= l < |raw| && raw[l] == ch.raw[j] {}
    }
    if !ok { return null, ""; }
    if !linked {
      defines := CollectUmbrellaDefines(ch.templates);
    }
  }

  /** The wording of everything generated, and the rewritings of the helpers file. */
  datatype Wordings = Wordings(
    header: ValuesText.Prose, global: ValuesText.Prose, stanza: string -> ValuesText.Prose,
    depHeader: ValuesText.Prose, depProse: string -> ValuesText.Prose,
    words: string -> Words, routes: Routes, helpers: string -> HelperEdits)

  function ControllerFor(spec: Specs.Spec): Controller
    requires Specs.Valid(spec)
  {
    Specs.ControllerOf(spec.rules.ingress).value
  }

  function TraitsFor(spec: Specs.Spec, i: nat): Resolved
    requires Specs.Valid(spec) && i < |spec.subcharts|
  {
    assert Specs.ValidAt(spec.subcharts, i, ControllerFor(spec));
    Resolve(Specs.KeysOf(spec.subcharts[i]), ControllerFor(spec)).value
  }

  function JobFor(spec: Specs.Spec, i: nat, k: Wordings, defines: string): (job: Job)
    requires Specs.Valid(spec) && i < |spec.subcharts|
    ensures Named(job)
  {
    var sc := spec.subcharts[i];
    assert Specs.ValidAt(spec.subcharts, i, ControllerFor(spec));
    Job(spec.umbrella, sc.name,
      Recipe(TraitsFor(spec, i), spec.rules, ControllerFor(spec), k.routes, k.helpers(sc.name), defines), k.words(sc.name))
  }

  function JobsFor(spec: Specs.Spec, k: Wordings, defines: string): (jobs: seq<Job>)
    requires Specs.Valid(spec)
    ensures |jobs| == |spec.subcharts| && AllNamed(jobs)
    ensures forall i :: 0 <= i < |jobs| ==> jobs[i] == JobFor(spec, i, k, defines)
  {
    seq(|spec.subcharts|, i requires 0 <= i < |spec.subcharts| => JobFor(spec, i, k, defines))
  }

  /** The subcharts of an accepted spec as the loop leaves them. */
  function Subs(spec: Specs.Spec, usrc: Source, ssrc: Source, k: Wordings, parse: Parser): (r: seq<Option<Look>>)
    requires Specs.Valid(spec)
    ensures |r| == |spec.subcharts|
  {
    Outcomes(JobsFor(spec, k, Defines(usrc.templates, spec.umbrella, spec.rules.linkedTemplates)), ssrc, parse)
  }

  function UmbrellaStart(spec: Specs.Spec, k: Wordings): string {
    ValuesText.UmbrellaText(spec, k.header, k.global, k.stanza)
  }

  function UmbrellaEnd(spec: Specs.Spec, k: Wordings): string {
    ValuesText.UmbrellaValues(spec, k.header, k.global, k.stanza, k.depHeader, k.depProse)
  }

  /** The spec is accepted and every values text on the way parses. */
  predicate Builds(spec: Specs.Spec, usrc: Source, ssrc: Source, k: Wordings, parse: Parser) {
    && Specs.Valid(spec) && parse(ValuesIn(usrc.raw)).Some? && parse(UmbrellaStart(spec, k)).Some?
    && None !in Subs(spec, usrc, ssrc, k, parse) && parse(UmbrellaEnd(spec, k)).Some?
  }

  /** applyDependencies on the values; the subcharts share no object with the umbrella. */
  method AddDependencies(ch: Chart, parse: Parser, spec: Specs.Spec, k: Wordings, ghost subs: seq<Chart>)
    returns (ok: bool)
    requires ch.Valid() && ch.Coherent(parse) && ch.RawValues() == UmbrellaStart(spec, k)
    requires forall i :: 0 <= i < |subs| ==> Separate(ch, subs[i])
    modifies ch`raw, ch`values, ch.raw
    ensures ch.Coherent(parse) && ok == parse(UmbrellaEnd(spec, k)).Some? && ch.name == old(ch.name)
    ensures ok ==> ch.RawValues() == UmbrellaEnd(spec, k)
    ensures forall i :: 0 <= i < |subs| ==> LookOf(subs[i], parse) == old(LookOf(subs[i], parse))
  {
    ok := true;
    if spec.dependencies != [] {
      ok := ch.AppendValues(parse, ValuesText.DependencyText(spec, k.depHeader, k.depProse));
    }
  }

  /**
    BuildChart: a chart comes out exactly when the spec is accepted and every values
    text on the way parses. Its saved values parse to what renders, and so do those
    of every subchart, whose values text and template files are known one by one.
  */
  method BuildChart(spec: Specs.Spec, usrc: Source, ssrc: Source, k: Wordings, parse: Parser)
    returns (umbrella: Chart?, subs: seq<Chart>)
    requires usrc.name == PLACEHOLDER
    ensures umbrella != null <==> Builds(spec, usrc, ssrc, k, parse)
    ensures umbrella != null ==>
              umbrella.name == spec.umbrella && umbrella.Coherent(parse) && umbrella.RawValues() == UmbrellaEnd(spec, k)
    ensures umbrella != null ==> |subs| == |spec.subcharts|
    ensures umbrella != null ==>
              forall i :: 0 <= i < |subs| ==> Subs(spec, usrc, ssrc, k, parse)[i] == Some(LookOf(subs[i], parse))
  {
    subs := [];
    var invalid := Specs.Validate(spec);
    if invalid.Some? { return null, []; }
    var defines;
    umbrella, defines := OpenUmbrella(usrc, spec.umbrella, UmbrellaStart(spec, k), spec.rules.linkedTemplates, parse);
    if umbrella == null { return; }
    var ok;
    ok, subs := BuildSubcharts(JobsFor(spec, k, defines), ssrc, parse);
    if !ok { return null, []; }
    ok := AddDependencies(umbrella, parse, spec, k, subs);
    if !ok { return null, []; }
  }

  // ----- what comes out ---------------------------------------------------------------------

  lemma Ends(job: Job, src: Source, parse: Parser)
    requires Named(job) && forall text :: parse(text).Some?
    ensures Outcome(job, src, parse) != None
  {
    assert Parses(StartOf(job, ValuesIn(src.raw), parse), job.recipe.traits, job.recipe.rules, job.words, parse);
  }

  lemma {:induction false} AllEnd(jobs: seq<Job>, src: Source, parse: Parser)
    requires AllNamed(jobs) && forall text :: parse(text).Some?
    ensures None !in Outcomes(jobs, src, parse)
    decreases |jobs|
  {
    if jobs != [] {
      var n := |jobs| - 1;
      AllEnd(jobs[..n], src, parse);
      Ends(jobs[n], src, parse);
      var last := Outcome(jobs[n], src, parse);
      assert Outcomes(jobs, src, parse) == Outcomes(jobs[..n], src, parse) + [last];
    }
  }

  /** Only a values text that does not parse keeps an accepted spec from becoming a chart. */
  lemma AcceptedSpecsBuild(spec: Specs.Spec, usrc: Source, ssrc: Source, k: Wordings, parse: Parser)
    requires forall text :: parse(text).Some?
    ensures Builds(spec, usrc, ssrc, k, parse) <==> Specs.Valid(spec)
  {
    if Specs.Valid(spec) {
      AllEnd(JobsFor(spec, k, Defines(usrc.templates, spec.umbrella, spec.rules.linkedTemplates)), ssrc, parse);
    }
  }

  lemma SubIs(spec: Specs.Spec, usrc: Source, ssrc: Source, k: Wordings, parse: Parser, i: nat)
    requires Builds(spec, usrc, ssrc, k, parse) && i < |spec.subcharts|
    ensures Subs(spec, usrc, ssrc, k, parse)[i].Some?
    ensures var defines := Defines(usrc.templates, spec.umbrella, spec.rules.linkedTemplates);
            Subs(spec, usrc, ssrc, k, parse)[i] == Outcome(JobFor(spec, i, k, defines), ssrc, parse)
  {
    var defines := Defines(usrc.templates, spec.umbrella, spec.rules.linkedTemplates);
    OutcomesAt(JobsFor(spec, k, defines), ssrc, parse, i);
    assert Subs(spec, usrc, ssrc, k, parse)[i] in Subs(spec, usrc, ssrc, k, parse);
  }

  /**
    Every subchart of a chart that comes out is called as the spec calls it, its
    saved values parse to what renders, and it holds the manifests called for by
    the traits its own entry resolves to; if the values file is the template's, its
    text opens exactly the keys those traits and the rules call for, each once.
  */
  lemma SubchartsFollowTheSpec(spec: Specs.Spec, usrc: Source, ssrc: Source, k: Wordings, parse: Parser, i: nat,
                               controller: Controller, t: Resolved)
    requires Builds(spec, usrc, ssrc, k, parse) && i < |spec.subcharts|
    requires Specs.ControllerOf(spec.rules.ingress) == Some(controller)
    requires Resolve(Specs.KeysOf(spec.subcharts[i]), controller) == Ok(t)
    ensures Subs(spec, usrc, ssrc, k, parse)[i].Some?
    ensures var sub, name := Subs(spec, usrc, ssrc, k, parse)[i].value, spec.subcharts[i].name;
            && sub.name == name && sub.coherent
            && NamesIn(sub.templates) ==
                 WithHelpers(Subcharts.Built(NamesIn(ssrc.templates), t, controller), spec.rules.linkedTemplates)
            && Specs.ValidName(name)
            && (IsTemplate(Placed(ValuesIn(ssrc.raw), SubchartSwaps(spec.umbrella, name), parse), k.words(name)) ==>
                  Listed(sub.text, t, spec.rules))
  {
    var job := JobFor(spec, i, k, Defines(usrc.templates, spec.umbrella, spec.rules.linkedTemplates));
    SubIs(spec, usrc, ssrc, k, parse, i);
    BuiltNames(ssrc.templates, SubchartSwaps(job.umbrella, job.name), job.recipe);
    BuiltKeys(StartOf(job, ValuesIn(ssrc.raw), parse), job.recipe.traits, job.recipe.rules, job.words);
  }

  /** Nothing but its own entry, the rules and the umbrella's name makes a subchart, wherever the entry stands. */
  lemma EntryMakesTheSubchart(a: Specs.Spec, i: nat, b: Specs.Spec, j: nat,
                              usrc: Source, ssrc: Source, k: Wordings, parse: Parser)
    requires Specs.Valid(a) && Specs.Valid(b) && i < |a.subcharts| && j < |b.subcharts|
    requires a.umbrella == b.umbrella && a.rules == b.rules && a.subcharts[i] == b.subcharts[j]
    ensures Subs(a, usrc, ssrc, k, parse)[i] == Subs(b, usrc, ssrc, k, parse)[j]
  {
    var defines := Defines(usrc.templates, a.umbrella, a.rules.linkedTemplates);
    OutcomesAt(JobsFor(a, k, defines), ssrc, parse, i);
    OutcomesAt(JobsFor(b, k, defines), ssrc, parse, j);
    assert JobFor(a, i, k, defines) == JobFor(b, j, k, defines);
  }

  /** With linked_templates off every subchart of a chart that comes out resolves its references on its own. */
  lemma SubchartsStandAlone(spec: Specs.Spec, usrc: Source, ssrc: Source, k: Wordings, parse: Parser, i: nat,
                            us: Templates, ss: Templates, built: Templates)
    requires Builds(spec, usrc, ssrc, k, parse) && i < |spec.subcharts| && !spec.rules.linkedTemplates
    requires usrc.templates == Printed(us) && SelfContained(us)
    requires WorkloadTexts(ssrc.templates, TraitsFor(spec, i).workload) == Printed(ss) && Linked(us, ss, spec.subcharts[i].name)
    requires var job := JobFor(spec, i, k, "");
             var renamed := RenameAll(ss, SubchartSwaps(job.umbrella, job.name));
             ServedTexts(Printed(renamed), job.recipe) == Printed(built) && Develops(renamed, built, job.name)
    ensures Subs(spec, usrc, ssrc, k, parse)[i].Some?
    ensures var closed := Inlined(built, Collected(RenameAll(us, UmbrellaSwaps(spec.umbrella))));
            && Subs(spec, usrc, ssrc, k, parse)[i].value.templates == Printed(closed)
            && Resolves([], closed, spec.subcharts[i].name)
  {
    var job := JobFor(spec, i, k, Defines(usrc.templates, spec.umbrella, false));
    SubIs(spec, usrc, ssrc, k, parse, i);
    BuiltSubchartStandsAlone(us, ss, built, ssrc.templates, job.umbrella, job.name, job.recipe);
  }
}
