# Verified model of chartpress

chartpress turns a short spec into a Helm umbrella chart: a web form or a
docker-compose file drafts the spec, a backend stores it as a
`ChartpressConfig` object, and an operator renders the chart, uploads the
archive and reports it Ready. This project models the parts of that path whose
correctness does not show from reading one function, and proves it in Dafny.

`dafny verify dfyconfig.toml` checks everything.

## How the model is laid out

The generation protocol:

- `Cluster.dfy` is a transition system of the API server (every version of
  every object, optimistic concurrency), the informer cache that lags behind
  it, the object store, the work queue and the operator's one worker, which
  stands between two calls of `Reconcile`. Every event is total, so a run is a
  sequence of events and a theorem about runs quantifies over all of them.
- `Safety.dfy`, `Reaping.dfy`, `Expiry.dfy` and `Wakeups.dfy` prove what holds in
  all runs: nothing stale is served, what an expiry can hit, no lost wakeups.
- `Cleanup.dfy` proves that expired charts are deleted and deleted ones cleaned up.
- `Convergence.dfy`, `Schedules.dfy` and `Refusal.dfy` follow one object left to
  the operator: whole passes, then every step-by-step schedule with other
  objects' passes and deliveries in between, then refused specs.
- `Reconciler.dfy` is the imperative code; each of its methods is shown to be a
  run of the transition system, whatever happens between its calls.
- `Specs.dfy` and `Manifest.dfy` carry a spec from the request through
  normalization, validation, the CR, the CRD schema and the operator's decoder.
- `Ownership.dfy` covers owner-scoped names and the per-owner libraries.

The compiler from spec to chart:

- `Traits.dfy`, `RowForm.dfy`: trait resolution, the web client's mirror of it,
  and the form's edits.
- `BlankRuns.dfy`, `Sections.dfy`: text surgery on values files as document
  editing.
- `Subcharts.dfy`: which manifests and values sections a subchart ships.
- `YamlKeys.dfy`, `ValuesText.dfy`, `SubchartValues.dfy`: which keys a text opens at
  the left margin, and the keys of the umbrella's and the subcharts' values files,
  from the template to the finished text.
- `Replacing.dfy`, `Renaming.dfy`: when ReplaceAll and the single-pass Replacer
  agree, and what the two renamers and inlining do to template names.
- `ChartObject.dfy`, `SubchartBuild.dfy`, `ChartBuild.dfy`: the chart object with its
  values held as text and parsed, the whole of buildSubchart on it, and BuildChart
  around it: loading, the loop over the subcharts, collecting and inlining.

Import and explorer:

- `Compose.dfy`, `Importer.dfy`, `Imports.dfy`: the docker-compose import.
- `FileTree.dfy`, `Explorer.dfy`, `Archive.dfy`: the archive, its entry names and
  the tree shown for it.

`Prelude.dfy` and `Text.dfy` hold what the others share.

## What is assumed

- Only the operator writes status and drops its finalizer; it runs one worker;
  the cache never goes backwards; status and metadata writes do not bump
  `generation`. A delete may or may not bump it: both are covered.
- Decoding, validating and rendering are deterministic functions of `.spec`.
- The owner hash gives twelve hex digits (`Ownership.Shaped`). It tells apart the
  owners a theorem is about, a finite set (`Ownership.Apart`); it cannot tell apart
  all owners there could be, and no theorem asks that of it. What a collision
  among the owners would do is stated too (`Ownership.LibrariesStayApartIff`,
  `Ownership.UserChartsAreNeverReaped`).
- Numbers on their way through untyped JSON become float64: exact on 53 bits and
  monotone beyond.
- The YAML parser, the ZIP encoding, Helm rendering, RFC 3339 printing and parsing
  and the wording of comments and nested lines in generated text are parameters.
- Replacement blocks hold no `$` that Go's ReplaceAllString would expand
  (`Sections.PlainBlocks`); no comment in them looks like a section marker.

## What turned out different from the documentation

- Reaping deletes by name without a precondition, so "only expired charts are
  reaped" holds of the snapshot acted on (`Reaping.ReapsOnlyExpiredSnapshots`),
  not of the live object (`Reaping.RenewedChartCanBeReaped`).
- What the Delete hits is unexpired exactly when the last expiry that took effect
  since the snapshot is not past (`Expiry.ReapHitsUnexpiredIff`).
- A refused or failing spec never comes to rest (`Schedules.ComesToRestIff`): each
  pass writes Generating and then Failed, and each write is delivered and queues
  the key again. Should the Failed write not get through, the pass's own
  Generating write still does that; the failure is lost until the next resync
  only if the status already was Generating, so that the pass wrote nothing
  (`Refusal.LostFailure`, `Refusal.FailureCanBeLost`).
- A linked template name that holds "component" is torn apart in the subcharts
  (`Renaming.RenamersAgreeIff`, `Renaming.LinksLeadHomeIff`); the templates have none.
- Validate ignores the port of a subchart that exposes nothing, the CRD schema
  does not: such a spec passes the backend's validation and is refused by the
  API server (`Manifest.AdmittedIffPortsInRange`, `Manifest.IgnoredPortIsRefused`).
- A row that arrives with an out-of-range port next to exposure none, where the
  port is ignored, turns invalid when the form exposes it
  (`RowForm.HiddenPortSurfaces`).
- Stored names collide from 241 characters on (`Ownership.LongNamesCanCollide`),
  since nothing bounds a chart name.
- A subchart may bear the umbrella's name, and then its helper definitions take
  the place of the umbrella's (`Renaming.CaptureIff`).
- A comment says the umbrella's definitions must be collected before renaming
  (internal/engine/rules.go:134); the code collects them after, and the model
  follows the code.
- A dependency key that YAML does not read as a plain scalar, say "- x", is accepted,
  and so is a chart name beyond the 1024 characters of an implicit key; then the
  umbrella's values open something else (`ValuesText.FinishedKeys`,
  `ValuesText.ListItemIsAccepted`).
- A file above 32 MiB inside an archive is cut off without an error
  (`Archive.ContentsComeBack`).

## Model

| member | source | states |
|---|---|---|
| Safety.StepKeeps | internal/operator/reconcile.go:53-148 | every event (apply, edit, delete, clock, delivery, resync, crash, one worker call with any outcome) keeps the inductive invariant: what is stored belongs to a live finalized object, a Ready gate implies the matching archive, the worker holds a version from the log |
| Safety.NothingStaleIsServed | internal/server/charts.go:55-64 | in every run, for a non-deleting object a download URL is minted only for the archive that renders the spec the API server holds, and the file view answers conflict exactly when the freshness gate is closed and otherwise serves that same archive |
| Safety.ObservedIffReady | internal/operator/reconcile.go:133-143 | in every version ever written, observedGeneration is present iff the phase is Ready and never exceeds the generation |
| Safety.ReadyOnlyFromGenerating | internal/operator/reconcile.go:103-147 | an object turns Ready only by the worker's own status write over its Generating status, on the same incarnation, stamping the generation it read |
| Safety.NoOrphans | internal/operator/reconcile.go:60-83 | in every run each stored key is the key of an existing object that still carries the cleanup finalizer; covers deletes racing an upload, crashes between Remove and the finalizer drop, and re-creation under a stale cache |
| Reaping.ReapsOnlyExpiredSnapshots | internal/operator/reconcile.go:85-93 | the operator is about to delete only on a snapshot whose parsable stamp is already past |
| Reaping.NeverStampedNeverReaped | internal/operator/reconcile.go:172-185 | an object never stamped with a parsable expiry is never reaped in any run |
| Expiry.ReapHitsUnexpiredIff | internal/operator/reconcile.go:85-93 | exact condition, over all runs: what the unconditional Delete hits is unexpired iff an apply or edit that took effect has written an expiry since the snapshot and the last one written is not past; re-applies with an old stamp, status writes, user deletes and refused edits leave it expired |
| Expiry.EveryReapHasItsSnapshot | internal/operator/reconcile.go:85-93 | whenever the worker is about to delete, the object it holds was the live version at some earlier moment of the run, so the exact condition always applies |
| Reaping.RenewedChartCanBeReaped | internal/operator/reconcile.go:88-90 | counterexample: Delete carries no precondition, so a chart renewed after the snapshot is deleted although its live stamp is in the future |
| Reaping.DownloadNeverOlderThanGate | internal/server/files.go:60-89 | the handler reads the object first and the archive later; whatever happens in between, the bytes are the render of the version that passed the gate or of a later one |
| Wakeups.NoLostWakeup | internal/operator/controller.go:39-99 | in every run, once the cache has every version of an object, its key is queued, or the worker is on it, or it is at rest: without the cleanup finalizer if it is being deleted, Ready for its generation if its spec is accepted, left at Generating if it is refused |
| Cleanup.DeletedIsCleanedUp | internal/operator/reconcile.go:60-73 | a pass over a deleted chart, with any outcome of its two calls: the archive goes unless that call is refused, the finalizer goes iff the archive was reported gone and the update is not refused, and a call that fails or seems to queues the key again |
| Cleanup.ExpiredIsReaped | internal/operator/reconcile.go:85-93 | on the live version of a chart with the finalizer the operator sets out to delete it iff its stamp is past, whatever its status; then it is being deleted unless the call is refused, and queued again if it fails or seems to |
| Cleanup.ExpiredUntouchedIsReaped | internal/operator/reconcile.go:75-93 | the same of a chart without the finalizer, which gets it first |
| Cleanup.ExpiredGoesAway | internal/operator/reconcile.go:53-93 | a resync, a pass, the delivery of the deletion and one more pass leave neither the expired object nor its archive |
| Refusal.RefusedPass | internal/operator/reconcile.go:103-117 | a pass over any refused spec ends Failed with at least one version on its way to the cache, whose delivery queues the key again; two versions unless the status already was Generating |
| Refusal.LostFailure | internal/operator/reconcile.go:104-117 | when the Failed write of a refused spec does not get through, the pass ends without an error at Generating and out of the queue; something will queue it again iff the pass found another status than Generating |
| Refusal.FailureCanBeLost | internal/operator/reconcile.go:104-117 | explicit run for every name and refused spec: two Failed writes refused in a row leave the object seen, idle, unqueued and Generating |
| Refusal.FailedRenderIsReported | internal/operator/reconcile.go:119-124 | an accepted spec that does not render ends the pass Failed, queued again, and with the archives as they were |
| Refusal.FailedUploadIsReported | internal/operator/reconcile.go:126-131 | an upload that fails, or seems to, ends the pass Failed and queued again |
| Convergence.StalePass | internal/operator/reconcile.go:53-148 | a whole pass on a superseded snapshot changes no status, no finalizer and no stored archive |
| Convergence.CurrentPass | internal/operator/reconcile.go:75-148 | one pass on the live version of an unfinished object reaches Ready with the render of its spec stored |
| Convergence.SettledPass | internal/operator/reconcile.go:95-101 | a pass on a settled object writes nothing |
| Schedules.StillKept | internal/operator/reconcile.go:53-148 | any single step that leaves n to the operator - a delivery or a resync in the middle of a pass, calls of passes over other names whatever their outcome, writes to other names, the clock - keeps the hypotheses of convergence, for accepted and refused specs alike |
| Schedules.EveryScheduleConverges | internal/operator/reconcile.go:53-148 | for an accepted spec and any schedule of such steps: versions written plus versions still to be written stay the same, every productive step is paid for by the measure, and a schedule without one changes nothing |
| Schedules.RoundsSettle | internal/operator/reconcile.go:53-148 | any schedules one after the other, each with a productive step as long as there is one to take, have settled the chart after as many as the measure says, whatever other steps they hold |
| Schedules.NothingProductiveIff | internal/operator/reconcile.go:95-101 | the measure is zero iff no schedule at all has a productive step left, so such rounds exist until the chart is settled |
| Schedules.SettledIff | internal/operator/reconcile.go:95-101 | the measure is zero iff the object is Ready for its generation and fully delivered; Ready then means the stored archive is the render of its spec and no version is left to be written |
| Schedules.SettledStaysQuiet | internal/operator/reconcile.go:95-101 | once Ready, no schedule of such steps writes a version again |
| Schedules.RestsIff | internal/operator/reconcile.go:95-101 | an object left to the operator is never written again iff it is Ready for its generation |
| Schedules.ComesToRestIff | internal/operator/reconcile.go:103-124 | from any such state some schedule brings the object to rest iff its spec is accepted and renders; a refused or failing one is reported for ever |
| Schedules.ReachableIsStill | internal/operator/reconcile.go:53-148 | every reachable state, in the middle of a pass or not, satisfies these hypotheses if the object exists, is not being deleted, shows no expired version and is not just being reaped |
| Reconciler.RemoveFinalizer | internal/operator/reconcile.go:203-212 | compacting the finalizer list in place leaves exactly the other finalizers, in order |
| Reconciler.Operator.Reconcile | internal/operator/reconcile.go:53-148 | the code as written, with anything happening between its calls and any call failing or losing its reply, is a run of the transition system |
| Reconciler.Operator.ProcessNext | internal/operator/controller.go:75-99 | fetch from the cache, reconcile, requeue on error: again a run of the transition system |
| Reconciler.Operator.WorkerLoop | internal/operator/controller.go:65-73 | between any two passes of the loop the whole safety invariant holds |
| Specs.NormalizeSubcharts | internal/engine/types.go:94-101 | the loop overwrites each subchart of the caller's slice with its normal form |
| Specs.NormalizeDependencies | internal/engine/types.go:102-104 | the loop overwrites each dependency key with its normal form |
| Text.SanitizeIs | internal/engine/types.go:84-86 | sanitizeName leaves no surrounding blank and no capital, keeps the length of the trimmed text and every ASCII character of it up to case |
| Text.SpellingIsSanitized | internal/engine/types.go:84-86 | every spelling of a normal word in other capitals and with blanks around it becomes that word |
| Specs.MisspelledIsNormalized | internal/engine/types.go:88-110 | a spec that differs from a normal one only in capitals and blanks of its words normalizes to it, field by field, and so is accepted iff that one is |
| Specs.NormalizeTwice | internal/engine/types.go:88-110 | Normalize is idempotent, so the operator may normalize what the backend normalized |
| Specs.NameIsNormal | internal/engine/types.go:84-86 | a name matching nameRE is left alone by sanitizeName |
| Specs.KeysComeBack | internal/engine/types.go:25-42 | keys written out as texts in a subchart entry are read back as they were |
| Specs.ControllerIsRead | internal/engine/types.go:67-67 | each ingress controller is written in exactly one way |
| Specs.Validate | internal/engine/types.go:121-154 | accepts exactly the valid specs; otherwise reports a problem that is really there, with nothing before it wrong |
| Manifest.WrapRoundTrip | internal/server/manifest.go:24-48 | decoding what wrapManifest wrote gives back the spec, unset told from explicit false, as long as the ports survive the trip through float64 |
| Manifest.AdmittedIffPortsInRange | crds/crd-helmchart.yaml:23-110 | of a spec Validate accepts, the CRD schema admits the CR iff every written port is within 1-65535 |
| Manifest.IgnoredPortIsRefused | internal/engine/resolve.go:69-84 | counterexample: Validate ignores the port of a subchart that exposes nothing, the schema does not |
| Manifest.AcceptedSpecReachesOperator | internal/operator/decode.go:15-32 | what the operator decodes from an admitted CR is exactly the accepted spec, so its own Validate cannot reject it |
| Manifest.GeneratedIsWanted | internal/server/generate.go:29-50 | after a successful generate the live object is accepted by the operator and the artifact wanted for it is the rendering of the requested spec |
| Traits.OnlyWrittenKeysFail | internal/engine/resolve.go:10-16 | every resolution error blames a key the user wrote |
| Traits.RegistryByTrait | internal/engine/patterns.json:1-171 | the registry column by column: which patterns run as a daemonset, expose nothing, speak gRPC, get an ingress, are pinned or single, share the environment |
| Traits.ResolvedTraits | internal/engine/resolve.go:42-128 | a written key is what the row resolves to, an unwritten one takes the default of the pattern as far as the other traits leave room |
| Traits.RefusedIff | internal/engine/resolve.go:42-128 | a row is refused iff a key is outside its enumeration, the port is out of range where it counts, ingress is asked for where there is none, or a daemonset is to scale |
| Traits.Repair | internal/engine/resolve.go:42-128 | dropping the blamed key again and again ends in success, touches nothing else, and changes nothing that resolved already |
| Traits.ResolvedIsCoherent | internal/engine/resolve.go:69-117 | resolved traits satisfy the cross-field invariants: daemonset implies fixed, ingress implies http or grpc and a controller, port 0 iff no exposure and in range otherwise |
| Traits.ResolutionIsAFixpoint | internal/engine/resolve.go:42-128 | traits are coherent iff, written out as explicit keys, they resolve to themselves |
| Traits.MirrorAgrees | web/src/app/spec.js:89-109 | whenever the engine accepts a row the client's mirror shows the same traits |
| Traits.EngineAcceptsIffNothingClamped | web/src/app/spec.js:85-109 | the engine accepts a row of known keys iff the mirror's clamping lost nothing the user wrote |
| Traits.ChipIff | web/src/app/spec.js:111-122 | a chip shows iff the key is written, is not ignored, and is not what the pattern gives |
| Traits.ChipsSayEverything | web/src/app/spec.js:111-122 | removing at once all keys that show no override chip leaves the resolution as it was |
| RowForm.EditKeepsRowAcceptable | web/src/app/RichFormScreen.jsx:84-112 | a visible edit of an acceptable row leaves it acceptable iff it is legal: a written port is in range, and no ignored out-of-range port comes back to count |
| RowForm.HiddenPortSurfaces | web/src/app/RichFormScreen.jsx:98-98 | counterexample: a port ignored under exposure none makes the row invalid when the exposure is set to http |
| RowForm.FreshRowShowsDefaults | web/src/app/RichFormScreen.jsx:104-112 | a reset or re-picked row shows the defaults of its pattern, as far as there is a controller, and no chip |
| RowForm.EditTakesEffect | web/src/app/RichFormScreen.jsx:87-102 | after a visible edit the row resolves to the chosen value |
| RowForm.EditChangesOnlyDependents | web/src/app/RichFormScreen.jsx:94-99 | an edit changes no resolved trait but its own and those that depend on it |
| RowForm.EditLeavesNoHiddenKey | web/src/app/RichFormScreen.jsx:87-102 | after an edit its key is written only if it is an override, and no key is kept that the other traits leave no room for |
| RowForm.AnySeriesOfEditsIsAccepted | web/src/app/RichFormScreen.jsx:50-112 | any series of visible, legal edits keeps an accepted row accepted |
| RowForm.Form.SetTrait | web/src/app/RichFormScreen.jsx:87-102 | the step-by-step row copy, deletes and assignments amount to the row edit, and no other row changes |
| RowForm.Form.ResetRow | web/src/app/RichFormScreen.jsx:104-112 | deleting the trait keys one by one resets exactly that row |
| RowForm.Form.Repick | web/src/app/RichFormScreen.jsx:55-59 | picking another pattern keeps only the pattern of exactly that row |
| BlankRuns.CollapseBlankRuns | internal/engine/traits.go:114-119 | the replacing loop terminates and computes the one-pass squeeze of newline runs |
| BlankRuns.MaximalRunBecomesAtMostTwo | internal/engine/traits.go:114-119 | a maximal run of k newlines comes out as min(k, 2) |
| BlankRuns.SqueezeTwice | internal/engine/traits.go:114-119 | collapsing is idempotent, whatever stands in front |
| BlankRuns.CollapseIsACongruence | internal/engine/traits.go:114-119 | collapsing a part first makes no difference to collapsing the whole |
| Sections.StripSectionMarkers | internal/engine/traits.go:100-112 | compacting the split lines in place and collapsing gives the text without marker lines |
| Sections.ParsePrint | internal/engine/traits.go:86-89 | parsing undoes printing of a document of closed, unnested sections |
| Sections.PrintParse | internal/engine/traits.go:86-89 | printing undoes parsing, and what parses is well formed |
| Sections.SurgeryIsDocumentEditing | internal/engine/traits.go:22-112 | on sectioned texts the whole drop/replace/strip sequence, collapsing as it goes, equals editing the parsed document, printing it once and collapsing once |
| Sections.EditsCommute | internal/engine/traits.go:91-98 | edits of different sections commute on documents |
| Sections.TextEditsCommute | internal/engine/traits.go:91-98 | and on texts, wherever they stand in a series of edits |
| Sections.NoMarkerSurvives | internal/engine/traits.go:100-112 | no marker line survives, whatever the text and the edits |
| Sections.EditsAreFates | internal/engine/traits.go:91-98 | a series of edits settles every section on its own: the first edit of its name decides |
| Subcharts.DropFile | internal/engine/rules.go:44-52 | filtering the slice in place equals the filter of what was there |
| Subcharts.ExactManifestSet | internal/engine/rules.go:17-38 | each known manifest ships exactly once if the resolved traits call for it and not at all otherwise; other templates keep their count |
| Subcharts.OneWorkloadManifest | internal/engine/rules.go:17-38 | exactly one workload manifest ships |
| Subcharts.SectionsFollowManifests | internal/engine/traits.go:22-68 | the values text that ships, not the edits: each section of the template is in it iff the manifest that reads it ships (service, networkPolicy, ingress or istio, pdb), kept sections hold what they held or the block the traits call for, and all else stays |
| Subcharts.SectionsByTrait | internal/engine/traits.go:22-68 | for each section the traits under which it is emptied, replaced by which block with which port, pattern or workload, or left alone; no other section is touched |
| Subcharts.PreviewIsExact | web/src/design/components/data/StructurePreview.jsx:53-61 | the web preview lists exactly the manifests that ship, up to naming istio.yaml ingress.yaml, but for the disruption budget and the headless service, which it never lists |
| Renaming.RenamingIsByName | internal/engine/engine.go:152-169 | no replacement reaches across a quote, so replacing in the text is renaming quoted name by quoted name |
| Renaming.StructureIsInTheText | internal/engine/engine.go:152-169 | which names a file defines, includes, computes from .Chart.Name or merely quotes is read back from its text by the words in front of the quotes, and what the renamer writes reads as the renamed file |
| Renaming.RenamedFilesRead | internal/engine/engine.go:105-169 | so for both renamers and any valid chart names: a file written by either reads as the renamed file |
| Replacing.ReplaceAllKeepsIff | internal/engine/engine.go:107-116 | ReplaceAll leaves a text as it is iff the old text occurs nowhere in it or is replaced by itself |
| Replacing.FirstIsReplaced | internal/engine/engine.go:144-169 | with one or several patterns: the first occurrence from the left is replaced, what stands before it stays, and the rest is replaced on its own |
| Replacing.PairAgreesIff | internal/engine/engine.go:147-151 | for two patterns that cannot overlap, the single pass over both equals the single pass over the first iff the second is put in for itself or occurs nowhere |
| Renaming.RenamersAgreeIff | internal/engine/engine.go:105-169 | for every name: ReplaceAll on the umbrella and the single pass on the subchart give the same iff the name does not hold "component" or the subchart is called component |
| Renaming.LinksLeadHomeIff | internal/engine/engine.go:105-169 | every link from a subchart to an umbrella definition still leads to that definition after both renamers iff no linked name holds "component" or the subchart is called component |
| Renaming.RenamingKeepsLinks | internal/engine/engine.go:105-169 | after both renamers every reference still has a definition, those whose names are computed from the chart name at render time included, and whatever manifests are dropped, rewritten or added after the renaming |
| Renaming.ManifestsDevelop | internal/engine/ingress.go:98-115 | dropping renamed manifests and adding one that computes names of the template's component definitions, as applyIngress does, is among the later changes these theorems allow |
| Renaming.ReferenceResolvesIff | internal/engine/engine.go:105-169 | a literal reference resolves after renaming iff the subchart defines it or the umbrella does and its name is not torn apart |
| Renaming.UmbrellaNames | internal/engine/engine.go:144-151 | umbrella-chart.x becomes u.x' in both charts, also for a u that embeds "component" |
| Renaming.TwoPassesWouldRescan | internal/engine/engine.go:147-151 | what the single pass avoids: two successive passes would change the umbrella's own name iff that name holds "component" and the subchart is called otherwise |
| Renaming.UmbrellaLinkIff | internal/engine/engine.go:152-169 | for every umbrella definition umbrella-chart.x: both charts name it alike iff x does not hold "component" or the subchart is called component |
| Renaming.CaptureIff | internal/engine/engine.go:121-125 | a subchart definition takes the place of an umbrella definition iff the charts bear the same name and the rest of the names agree |
| Renaming.CollectedNames | internal/engine/rules.go:132-145 | the collected text holds exactly the names of the .tpl files |
| Renaming.JoinedPrints | internal/engine/rules.go:147-160 | appending text is joining the files' structures |
| Renaming.InliningClosesTheSubchart | internal/engine/rules.go:147-160 | with the umbrella's definitions inlined, every reference of the subchart is resolved by the subchart alone |
| Renaming.UnlinkedSubchartStandsAlone | internal/engine/engine.go:41-50 | with linked_templates off, after both renamers, whatever manifests are dropped or added in between, and the inlining of the renamed definitions, each subchart resolves all its references alone, for any valid umbrella and subchart names |
| ChartObject.RewriteFiles | internal/engine/engine.go:107-116 | every file's data is replaced in place, each once |
| ChartObject.Chart.SetValues | internal/engine/values.go:35-55 | source text and parsed values change together, or, if the text does not parse, neither changes |
| ChartObject.Chart.AppendValues | internal/engine/values.go:57-62 | the block is appended behind one blank line, or nothing changes; text and values stay in step |
| ChartObject.Chart.RenameChart | internal/engine/engine.go:105-116 | metadata, templates and files are renamed; text and values stay in step |
| ChartObject.Chart.ReplacePlaceholders | internal/engine/engine.go:152-169 | templates and files are rewritten; the values text follows iff the result parses, and the ignored failure leaves text and values in step |
| SubchartBuild.ApplyTraits | internal/engine/traits.go:22-72 | the branches of applyTraits on the chart object: the section edits of the traits on the values text with the template drops between them, setValues, then the pattern extras; text and values in step on every exit |
| SubchartBuild.WorkloadFiles | internal/engine/rules.go:17-38 | exactly the files after applyWorkload: the new manifests hold the include of the umbrella template of their own kind, the replaced ones are gone |
| SubchartBuild.TailoredFiles | internal/engine/traits.go:22-68 | exactly the files applyTraits leaves: service and network policy go iff nothing is exposed, the autoscaler iff not auto, the disruption budget iff single |
| SubchartBuild.RoutedFiles | internal/engine/ingress.go:98-115 | exactly the files after applyIngress: the manifest of that controller, under its own path, in place of the template ingress |
| SubchartBuild.ApplyInlining | internal/engine/rules.go:149-160 | the definitions go behind the first helpers file, or become one; nothing else changes |
| SubchartBuild.InlinedTextAt | internal/engine/rules.go:149-160 | the first helpers file and no other has the definitions behind it |
| SubchartBuild.BuildSubchart | internal/engine/engine.go:121-142 | whichever step fails, the saved values text parses to what renders; it succeeds iff the three texts on the way parse, and then the values text is the template's with placeholders replaced, sections tailored, extras and generated block appended, opens each key once, every template file is known by name and text from the workload stubs to the inlined definitions, and the readme is there iff asked for |
| SubchartBuild.BuiltNames | internal/engine/engine.go:121-142 | by name these files are exactly the manifests the traits call for, and with linked_templates off a helpers file |
| ChartBuild.CollectUmbrellaDefines | internal/engine/rules.go:132-145 | the loop collects the texts of the .tpl files, each with a newline, in order |
| ChartBuild.CollectedFile | internal/engine/rules.go:132-145 | a file counts iff its name ends in .tpl, with a newline behind it |
| ChartBuild.CollectedPieces | internal/engine/rules.go:132-145 | the pieces stand in the order of the files |
| ChartBuild.BuiltSubchartStandsAlone | internal/engine/engine.go:41-50 | the text side and the name side meet: with linked_templates off, the files of the built subchart, inlined text included, print templates that resolve every reference on their own |
| ChartBuild.BuildSubcharts | internal/engine/engine.go:58-72 | the loop loads and builds one subchart after the other and stops at the first that fails; every earlier one is left as it was built |
| ChartBuild.BuildChart | internal/engine/engine.go:21-83 | a chart comes out iff the spec is accepted and every values text on the way parses; then the umbrella bears its name and holds the values of the spec, its dependencies included, every subchart is the outcome prescribed for it, built with the definitions of the renamed umbrella, and what is saved of each chart parses to what renders |
| ChartBuild.AcceptedSpecsBuild | internal/engine/engine.go:21-83 | no accepted spec is lost otherwise: with a parser that takes every text a chart comes out iff the spec is accepted |
| ChartBuild.SubchartsFollowTheSpec | internal/engine/engine.go:21-83 | every subchart of such a chart bears its name from the spec, holds exactly the manifests called for by the traits its own entry resolves to, and, on the template's values file, opens exactly the keys called for, none twice |
| ChartBuild.EntryMakesTheSubchart | internal/engine/engine.go:55-72 | two accepted specs with the same umbrella name and rules make the same subchart of the same entry, wherever it stands and whatever stands beside it |
| ChartBuild.SubchartsStandAlone | internal/engine/engine.go:41-50 | with linked_templates off every subchart of such a chart resolves all its references without the umbrella |
| ValuesText.AppendedKeys | internal/engine/values.go:57-62 | the top-level keys after appending are those of the text followed by those of the block |
| ValuesText.FinishedKeys | internal/engine/values.go:64-101 | the finished umbrella values open exactly global, the subcharts and the dependencies, in that order, iff all of them are plain YAML scalars of at most 1024 characters; the engine accepts others too |
| ValuesText.NameIsPlainIff | internal/engine/types.go:70-70 | a chart name is a plain key iff it has at most 1024 characters |
| ValuesText.ListItemIsAccepted | internal/engine/types.go:102-104 | counterexample: the dependency "- x" is accepted, left alone by Normalize, and no plain key |
| YamlKeys.OpensKey | internal/engine/values.go:64-101 | a plain key with a colon behind it, and then nothing or a blank, opens exactly that key at the margin |
| ValuesText.UmbrellaKeysAreDistinctIff | internal/engine/dependencies.go:70-109 | when the keys are plain, no key of the finished umbrella text is repeated iff the dependencies are distinct and clash with neither a subchart nor global |
| SubchartValues.TailoredKeys | internal/engine/traits.go:22-68 | for any sectioned text and edits: markers and blank runs open no key, so the keys of the tailored text are those outside the sections and, in each section, those of what its fate leaves there |
| SubchartValues.GeneratedTextKeys | internal/engine/values.go:103-141 | the block generated for a subchart opens envFrom, env and workloadKind exactly when the shared rules, the shared_env trait and the workload call for them |
| SubchartValues.ExtrasStandBehind | internal/engine/traits.go:222-246 | of all patterns only ML inference and the realtime gateway get extras, behind the text and one blank line |
| SubchartValues.SubchartKeysAreDistinct | internal/engine/traits.go:22-246 | the top-level keys of the finished subchart values, listed in order for all traits and rules, and none of them repeated: replacement blocks, pattern extras and generated block never repeat a key that is there |
| SubchartValues.FinishedKeysAreDistinctIff | internal/engine/values.go:57-62 | on any other text a key is repeated iff the tailored text already opens one of the keys of the appended blocks |
| Compose.KebabIsName | internal/compose/compose.go:277-288 | kebab yields nothing or a valid chart name without double hyphens |
| Compose.KebabKeepsNames | internal/compose/compose.go:280-288 | kebab reports a change iff the trimmed input is not already such a name |
| Compose.KebabJoinsWords | internal/compose/compose.go:280-288 | for any text: its runs of a-z0-9 after lower-casing, with single hyphens between |
| Compose.ImageBaseOfPrinted | internal/compose/compose.go:246-275 | of host:port/path/name:tag@digest exactly the lower-cased name is returned |
| Compose.InfraImages | internal/compose/compose.go:36-50 | the recognized images by what they become; each dependency key is itself one |
| Compose.PortNumberOfPrinted | internal/compose/compose.go:234-244 | a printed port comes back, with and without a protocol suffix |
| Compose.FirstPort | internal/compose/compose.go:213-232 | the first positive published or exposed container port, and whether there are more |
| Compose.PortIsFirst | internal/compose/compose.go:213-232 | the first positive published port counts, an exposed one only if none is published, and 0 only if there is neither |
| Compose.Dedupe | internal/compose/compose.go:136-143 | the suffix loop terminates and yields the first free numbered name |
| Compose.UniqueNameIsFree | internal/compose/compose.go:136-144 | the name is free and its number at most one above the count of names in use |
| Importer.SortedNames | internal/compose/compose.go:90-95 | however the service map is walked, the sorted names are the same |
| Text.LeIff | internal/compose/compose.go:90-95 | the order they are sorted in: a text stands before another iff it is a beginning of it or smaller where they first differ |
| Importer.ImportService | internal/compose/compose.go:101-175 | one round of the loop does what the specification does for that service's fate |
| Importer.ToSpec | internal/compose/compose.go:60-187 | spec, notes and errors are a function of the service map alone |
| Imports.NamesAreDistinct | internal/compose/compose.go:128-146 | drafted subchart names are valid and pairwise distinct |
| Imports.EveryAppIsASubchart | internal/compose/compose.go:113-174 | the services built from source or of an unrecognized image, with a name left after kebab, correspond one to one, in order, to the subcharts, each drafted from its own service |
| Imports.DependenciesAreTheInfraImages | internal/compose/compose.go:113-177 | a key is among the dependencies iff some service that is not built from source has an image recognized as it; the list is sorted and duplicate-free |
| Imports.EveryOtherServiceIsNoted | internal/compose/compose.go:128-132 | a service is noted as skipped iff no name is left of its key and it is built from source or its image is unrecognized |
| Imports.NotesTellWhatIsLost | internal/compose/compose.go:60-187 | every other note is there iff a service or the file gives cause for it: unrecognized image, changed name, more than one port, no application, things not imported, changed umbrella name |
| Imports.NumberedNamesAreNoted | internal/compose/compose.go:136-144 | a numbered name is noted iff a subchart bears it instead of the name of its service |
| Imports.DraftedTraits | internal/compose/compose.go:146-174 | what a drafted service resolves to: an HTTP API on its port or a worker without one, a daemonset iff global, pinned iff global or with replicas, autoscaled otherwise |
| Imports.DraftedIsNormal | internal/compose/compose.go:186-186 | the final Normalize finds nothing to do |
| Imports.ImportIsValidIff | internal/engine/types.go:121-154 | Validate accepts the import iff the file names the umbrella, some service becomes a subchart, and none that does reduces to the reserved name or has a first port above 65535 |
| FileTree.LeavesAreUncontinuedPaths | internal/server/files.go:154-174 | the tree's leaves are the given paths that no other path continues, each once |
| FileTree.LeavesAreTheInputsIff | internal/server/files.go:154-174 | the leaves are exactly the given paths iff none is a component-prefix of another |
| FileTree.ListingsAreShaped | internal/server/files.go:182-195 | sibling names differ, folders come first, each kind is in order, no folder is empty |
| FileTree.TreeIsTheOnlyListing | internal/server/files.go:156-195 | the tree is the only listing of that shape with those leaves |
| FileTree.TreeIgnoresOrder | internal/server/files.go:156-174 | the tree is the same for every order of the same paths |
| Explorer.ToNodes | internal/server/files.go:182-195 | collecting the children of the pointer trie in insertion order and sorting gives the listing of its path set |
| Explorer.AddPath | internal/server/files.go:158-172 | walking one path down adds that path and its prefixes to the trie and nothing else, on the heap |
| Explorer.BuildTree | internal/server/files.go:154-174 | the pointer trie built from a path list lists as the tree of those paths |
| Archive.AcceptedIff | internal/server/files.go:122-129 | an entry path is accepted iff it is "." or backslash-free with every component a plain name |
| Archive.ZipDir | internal/operator/render.go:45-81 | the archive holds each file once, whole, under its path |
| Archive.UnzipArchive | internal/server/files.go:96-144 | too large, unsafe, or the contents by path together with the tree of exactly those paths |
| Archive.ContentsComeBack | internal/server/files.go:130-141 | unzipping what was zipped keeps every path, and all contents iff each file is within the limit; a larger one is cut off silently |
| Archive.LeavesAreTheFiles | internal/server/files.go:139-143 | the tree's leaves, joined, are the archived files' paths |
| Ownership.StoredNamesAgreeIff | internal/server/owner.go:79-88 | two charts share a stored name iff their owners' hashes agree and their names clip to the same; with a hash that tells the two owners apart, iff they are one owner's and clip to the same |
| Ownership.ShortNamesNeverCollide | internal/server/owner.go:79-88 | up to 240 characters stored names of owners told apart are injective |
| Ownership.LongNamesCanCollide | internal/server/owner.go:79-88 | counterexample for any hash of that shape: two valid names of 241 characters with one stored name |
| Ownership.SomeHashTellsApart | internal/server/owner.go:74-77 | for any two owners there is a hash of that shape that tells them apart, so what is asked of the hash can be met |
| Ownership.StoredNameIs | internal/server/owner.go:82-88 | closed form of a stored name for any hash of that shape; it is never longer than 253 |
| Ownership.PrefixStripUndoesStoredName | internal/server/owner.go:120-134 | the last fallback of the display name undoes storedName, up to clipping |
| Ownership.DisplayedNames | internal/server/owner.go:120-134 | the annotation is shown if there is one, else the name in the spec, else the stored name without its owner |
| Ownership.Metadata.ApplyOwnership | internal/server/owner.go:90-113 | the name, the two labels and the display annotation are set; an anonymous owner's chart gets an expiry that the operator reads back as that instant, a signed-in owner's keeps whatever expiry annotation was there |
| Ownership.StoreRefinesLibrary | internal/server/generate.go:39-49 | over any sequence of generates by owners whose hashes differ the flat collection is a library per owner and chart name |
| Ownership.LibrariesStayApartIff | internal/server/generate.go:39-49 | and that iff their hashes differ: two owners of one hash overwrite each other's charts |
| Ownership.ListCharts | internal/server/charts.go:78-88 | the loop returns exactly the listed items the caller owns, in order |
| Ownership.ListIsTheOwnersLibrary | internal/server/charts.go:78-88 | the items an owner is listed are exactly the owner's library, for owners whose hashes differ |
| Ownership.LookupFindsTheOwnersChart | internal/server/charts.go:103-131 | asking for any name at all finds exactly what the asking owner keeps under it, for owners whose hashes differ |
| Ownership.UserChartsAreNeverReaped | internal/server/owner.go:109-111 | a signed-in user's chart is never reaped, in any run of generates, iff no anonymous owner among them has the user's hash |

## Left out

- Reconciler.Operator.Reconcile: a crash in the middle of a pass is an event of the transition system, not of this method.
- Schedules.EveryScheduleConverges: the worker's calls for the object itself succeed and the operator does not restart in between; other objects' calls may end in any way. A restart keeps the hypotheses (Schedules.RestartIsStill), so the theorem holds again after it; failing calls only requeue the key and are covered by the safety and wakeup theorems.
- Subcharts.ExactManifestSet: trait keys are enumerations here; their spelling is in Specs.
- Ownership.UserChartsAreNeverReaped: nobody but the backend applies objects, for owners out of a given set, and nobody edits an expiry onto the chart.
- Ownership.StoreRefinesLibrary: the owners are any set whose hashes differ; that SHA-256 cut to 48 bits tells given owners apart is not proved.
- Renaming.InliningClosesTheSubchart: of the names built at render time those that begin with the chart's own name are references; others (print of a template base path) are not.
- SubchartBuild.BuildSubchart: what the common-annotations and resource-naming rewrites make of the helpers file is a parameter, as is the text of the ingress manifest the engine emits; chart descriptions and versions are not modelled.
- ChartBuild.BuildChart: loading fails only when values.yaml does not parse; the umbrella's shared-secret and New Relic templates, its HANDOFF.md, its dropped files and its metadata's dependency list touch no values and come after the definitions are collected.
- ChartBuild.BuiltSubchartStandsAlone: that the later steps leave a development of the renamed templates is a hypothesis; Renaming.ManifestsDevelop shows it of dropping manifests and adding one.
- SubchartValues.SubchartKeysAreDistinct: the template's values file is modelled by its sections and keys; its comments and nested lines are parameters.
- ValuesText.FinishedKeys: the prose of comments and nested lines is a parameter, and none of it opens a key or a quoted or block scalar that reaches over lines. Keys are plain scalars as section 7.3.3 of the YAML standard (version 1.2) writes them, with NEL, LS and PS read as line breaks, and are compared as they are written: resolving them to types (true, 1.0, ~) or reading quoted keys is not part of the model.
- Compose.Kebab: lower-casing of letters outside ASCII is modelled only where it lands in ASCII.
- Manifest.WrapRoundTrip: field names are an enumeration; Go's case-insensitive matching of other spellings and nil versus empty lists are not modelled.
- Archive.ZipDir: the order in which the directory is walked is a parameter.
- Explorer.ToNodes: the library sort is an insertion sort here; sibling names differ, so any sort gives the same list.
- Status message and lastGenerated, the warnings behind them, and the list of spec-level warnings.
- The handling of the compose file's YAML, of YAML values and of Helm templates as languages.
- HTTP routing, sessions, CORS, the language-model client, presigning, metrics, deployment files.
- The request overlay of rule defaults (internal/server/spec.go) and the umbrella's file toggles: one branch per field.
- The web client's normalizeSpec, cleanSubchart and specWarnings, its rendering, timers and local storage.
- workqueue back-off, informer relists and leader election: the queue is a set of keys, the cache a position in the version history, resync an event.
