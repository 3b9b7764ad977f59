/**
  Refused specs: every pass over one reports the failure and writes at least one
  version, so its own writes queue it again. The failure is lost in one case
  only: its status write does not get through and the object already said
  Generating, so that the pass wrote nothing at all. Of an accepted spec a render
  or an upload that fails is reported and queued again.
*/
module Refusal {
  import opened Prelude
  import opened Cluster
  import opened Safety
  import opened Wakeups
  import opened Convergence
  import opened Schedules

  /** The worker is free to pass over the live version of a refused chart. */
  ghost predicate ReadyToRefuse(c: Compiler, s: State, n: string) {
    && Inv(c, s) && Ranks(s) && s.worker.Idle? && n in s.queue
    && Exists(s, n) && !Live(s, n).deleting && HasFinalizer(Live(s, n)) && !c.accept(Live(s, n).raw)
    && !Expired(Live(s, n).stamp, s.now) && Lag(s, n) == 0
  }

  lemma Taken(c: Compiler, s: State, n: string)
    requires ReadyToRefuse(c, s, n)
    ensures var s' := Step(c, s, Start(n));
            s' == s.(queue := s.queue - {n}, worker := MarkGenerating(n, Live(s, n))) && Inv(c, s')
  {
    assert NameOk(c, s, n);
    assert Cached(s, n) == Some(Live(s, n));
    StepKeeps(c, s, Start(n));
  }

  /** The Generating write makes a version unless the status said Generating already. */
  lemma MarkedGenerating(c: Compiler, s: State, n: string)
    requires Inv(c, s) && Exists(s, n) && !c.accept(Live(s, n).raw) && s.worker == MarkGenerating(n, Live(s, n))
    ensures var s' := Step(c, s, Work(Done, false));
            && Exists(s', n) && s'.worker == MarkFailed(n, Live(s', n), false)
            && SameVersion(Live(s', n), Live(s, n).(status := GENERATING))
            && |Log(s', n)| == |Log(s, n)| + (if Live(s, n).status == GENERATING then 0 else 1)
            && Seen(s', n) == Seen(s, n) && s'.queue == s.queue
  {
    assert NameOk(c, s, n);
    StatusWrite(s, n, GENERATING);
  }

  /** A pass over a refused spec up to its last call. */
  lemma Refusing(c: Compiler, s: State, n: string)
    requires ReadyToRefuse(c, s, n)
    ensures var s1 := Step(c, s, Start(n));
            var s2 := Step(c, s1, Work(Done, false));
            && Inv(c, s2) && Exists(s2, n) && s2.worker == MarkFailed(n, Live(s2, n), false)
            && SameVersion(Live(s2, n), Live(s, n).(status := GENERATING))
            && |Log(s2, n)| == |Log(s, n)| + (if Live(s, n).status == GENERATING then 0 else 1)
            && Seen(s2, n) == Seen(s, n) && s2.queue == s.queue - {n}
            && s1.worker.MarkGenerating?
  {
    var s1 := Step(c, s, Start(n));
    Taken(c, s, n);
    assert Log(s1, n) == Log(s, n) && Seen(s1, n) == Seen(s, n) && Live(s1, n) == Live(s, n);
    MarkedGenerating(c, s1, n);
    StepKeeps(c, s1, Work(Done, false));
  }

  /** Reporting: the Failed status is a version of its own. */
  lemma Reported(c: Compiler, s: State, n: string)
    requires Inv(c, s) && Exists(s, n) && s.worker == MarkFailed(n, Live(s, n), false)
    ensures var s' := Step(c, s, Work(Done, false));
            && s'.worker.Idle? && Exists(s', n) && Live(s', n).status == FAILED
            && |Log(s', n)| == |Log(s, n)| + 1 && Seen(s', n) == Seen(s, n)
  {
    assert NameOk(c, s, n);
    StatusWrite(s, n, FAILED);
  }

  /** A pass over a refused spec ends Failed, with versions on their way that will queue the chart again. */
  lemma RefusedPass(c: Compiler, s: State, n: string)
    requires ReadyToRefuse(c, s, n)
    ensures var s' := Pass(c, s, n);
            && s'.worker.Idle? && Exists(s', n) && Live(s', n).status == FAILED
            && Lag(s', n) == if Live(s, n).status == GENERATING then 1 else 2
  {
    var s1 := Step(c, s, Start(n));
    var s2 := Step(c, s1, Work(Done, false));
    var s3 := Step(c, s2, Work(Done, false));
    Refusing(c, s, n);
    Reported(c, s2, n);
    assert Drain(c, s1) == Drain(c, s2) == Drain(c, s3) == s3;
  }

  /**
    When the Failed write does not get through, the pass ends without an error and
    the chart stays at Generating, out of the queue. Something will still queue it
    again exactly if the pass found another status and so wrote Generating itself.
  */
  lemma LostFailure(c: Compiler, s: State, n: string)
    requires ReadyToRefuse(c, s, n)
    ensures var s' := Step(c, Step(c, Step(c, s, Start(n)), Work(Done, false)), Work(Refused, false));
            && s'.worker.Idle? && n !in s'.queue && Exists(s', n) && Live(s', n).status == GENERATING
            && (0 < Lag(s', n) <==> Live(s, n).status != GENERATING)
  {
    Refusing(c, s, n);
  }

  // ----- failing passes over accepted specs ----------------------------------------------

  /** The worker is free to pass over the live version of an unfinished chart whose spec is accepted. */
  ghost predicate ReadyToWork(c: Compiler, s: State, n: string) {
    && Inv(c, s) && Ranks(s) && s.worker.Idle? && n in s.queue
    && Exists(s, n) && !Live(s, n).deleting && HasFinalizer(Live(s, n)) && c.accept(Live(s, n).raw)
    && !Expired(Live(s, n).stamp, s.now) && !ReadyCurrent(Live(s, n)) && Lag(s, n) == 0
  }

  /** The state in which the worker renders. */
  ghost predicate AtRender(s: State, n: string) {
    Exists(s, n) && Seen(s, n) <= |Log(s, n)| && Live(s, n).status == GENERATING && s.worker == Render(n, Live(s, n))
  }

  lemma Rendering(c: Compiler, s: State, n: string)
    requires ReadyToWork(c, s, n)
    ensures var s' := Step(c, Step(c, s, Start(n)), Work(Done, false));
            AtRender(s', n) && Live(s', n).raw == Live(s, n).raw && s'.store == s.store
  {
    assert NameOk(c, s, n);
    assert Cached(s, n) == Some(Live(s, n));
    var s1 := Step(c, s, Start(n));
    assert s1 == s.(queue := s.queue - {n}, worker := MarkGenerating(n, Live(s, n)));
    StatusWrite(s1, n, GENERATING);
  }

  lemma FailureWritten(c: Compiler, s: State, n: string)
    requires Exists(s, n) && Seen(s, n) <= |Log(s, n)| && s.worker == MarkFailed(n, Live(s, n), true)
    ensures var s' := Step(c, s, Work(Done, false));
            s'.worker.Idle? && Exists(s', n) && Live(s', n).status == FAILED && n in s'.queue && s'.store == s.store
  {
    StatusWrite(s, n, FAILED);
  }

  lemma RenderStep(c: Compiler, s: State, n: string, o: Outcome)
    requires AtRender(s, n)
    ensures var zip := c.render(Live(s, n).raw);
            Step(c, s, Work(o, false)) == s.(worker :=
              if o == Done && zip.Some? then Upload(n, Live(s, n), zip.value) else MarkFailed(n, Live(s, n), true))
  {
  }

  lemma UploadStep(c: Compiler, s: State, n: string, zip: string, o: Outcome)
    requires Exists(s, n) && s.worker == Upload(n, Live(s, n), zip) && o != Done
    ensures var s' := Step(c, s, Work(o, false));
            s'.log == s.log && s'.seen == s.seen && s'.worker == MarkFailed(n, Live(s, n), true)
  {
  }

  /** A spec that does not render is reported Failed, queued again, and changes no archive. */
  lemma FailedRenderIsReported(c: Compiler, s: State, n: string, o: Outcome)
    requires ReadyToWork(c, s, n) && (c.render(Live(s, n).raw).None? || o != Done)
    ensures var s' := Step(c, Then3(c, s, Start(n), Work(Done, false), Work(o, false)), Work(Done, false));
            s'.worker.Idle? && Exists(s', n) && Live(s', n).status == FAILED && n in s'.queue && s'.store == s.store
  {
    Rendering(c, s, n);
    var s2 := Step(c, Step(c, s, Start(n)), Work(Done, false));
    RenderStep(c, s2, n, o);
    FailureWritten(c, Step(c, s2, Work(o, false)), n);
  }

  /** An upload that fails, or seems to, is reported Failed and queued again. */
  lemma FailedUploadIsReported(c: Compiler, s: State, n: string, o: Outcome)
    requires ReadyToWork(c, s, n) && c.render(Live(s, n).raw).Some? && o != Done
    ensures var s' := Step(c, Step(c, Then3(c, s, Start(n), Work(Done, false), Work(Done, false)), Work(o, false)),
                          Work(Done, false));
            s'.worker.Idle? && Exists(s', n) && Live(s', n).status == FAILED && n in s'.queue
  {
    Rendering(c, s, n);
    var s2 := Step(c, Step(c, s, Start(n)), Work(Done, false));
    var s3 := Step(c, s2, Work(Done, false));
    RenderStep(c, s2, n, Done);
    UploadStep(c, s3, n, c.render(Live(s, n).raw).value, o);
    FailureWritten(c, Step(c, s3, Work(o, false)), n);
  }

  function Then3(c: Compiler, s: State, e1: Event, e2: Event, e3: Event): State {
    Step(c, Step(c, Step(c, s, e1), e2), e3)
  }

  // ----- the lost failure happens ---------------------------------------------------------

  /** A refused chart nobody is going to look at: seen, idle, unqueued, and still Generating. */
  ghost predicate Forgotten(c: Compiler, s: State, n: string) {
    && Exists(s, n) && !Live(s, n).deleting && !c.accept(Live(s, n).raw)
    && Lag(s, n) == 0 && s.worker.Idle? && n !in s.queue && Live(s, n).status == GENERATING
  }

  function Then4(c: Compiler, s: State, e1: Event, e2: Event, e3: Event, e4: Event): State {
    Step(c, Step(c, Step(c, Step(c, s, e1), e2), e3), e4)
  }

  lemma RefusedWrite(c: Compiler, s: State)
    requires s.worker.MarkFailed? && !s.worker.requeue
    ensures Step(c, s, Work(Refused, false)) == s.(worker := Idle)
  {
  }

  /** What the first pass over a chart leaves when its last write is refused. */
  lemma FirstRefusal(c: Compiler, s: State, n: string)
    requires Still(c, s, n) && s.worker.Idle? && n in s.queue && Lag(s, n) == 0
    requires !HasFinalizer(Live(s, n)) && !c.accept(Live(s, n).raw) && Live(s, n).status == NO_STATUS
    ensures var s' := Then4(c, s, Start(n), Work(Done, false), Work(Done, false), Work(Refused, false));
            && s'.worker.Idle? && Exists(s', n) && !Live(s', n).deleting && HasFinalizer(Live(s', n))
            && Live(s', n).raw == Live(s, n).raw && Live(s', n).stamp == Live(s, n).stamp && s'.now == s.now
            && Live(s', n).status == GENERATING && Lag(s', n) == 2
  {
    var s1 := Step(c, s, Start(n));
    var s2 := Step(c, s1, Work(Done, false));
    var s3 := Step(c, s2, Work(Done, false));
    var s4 := Step(c, s3, Work(Refused, false));
    Began(c, s, n);
    StillKept(c, s, Start(n), n);
    HeldLive(c, s1, n);
    Finalized(c, s1, false, n);
    StillKept(c, s1, Work(Done, false), n);
    MarkedGenerating(c, s2, n);
    SameTime(c, s2);
    RefusedWrite(c, s3);
  }

  lemma SameTime(c: Compiler, s: State)
    ensures Step(c, s, Work(Done, false)).now == s.now
  {
    CallNow(c, s, false);
  }

  lemma RunOf2(c: Compiler, s: State, e1: Event, e2: Event)
    ensures Run(c, s, [e1, e2]) == Step(c, Step(c, s, e1), e2)
  {
    RunSnoc(c, s, [], e1);
    RunSnoc(c, s, [e1], e2);
    assert [] + [e1] == [e1] && [e1] + [e2] == [e1, e2];
  }

  lemma RunOf4(c: Compiler, s: State, e1: Event, e2: Event, e3: Event, e4: Event)
    ensures Run(c, s, [e1, e2, e3, e4]) == Then4(c, s, e1, e2, e3, e4)
  {
    RunSplit(c, s, [e1, e2], [e3, e4]);
    RunOf2(c, s, e1, e2);
    RunOf2(c, Run(c, s, [e1, e2]), e3, e4);
    assert [e1, e2] + [e3, e4] == [e1, e2, e3, e4];
  }

  lemma Created(c: Compiler, n: string, raw: Json)
    ensures var s := Run(c, Init(), [Apply(n, raw, NoStamp), Deliver(n, 1)]);
            && Still(c, s, n) && s.worker.Idle? && n in s.queue && Lag(s, n) == 0 && s.now == 0
            && SameVersion(Live(s, n), CR(1, 0, 1, raw, [], false, NoStamp, NO_STATUS, false))
  {
    var es := [Apply(n, raw, NoStamp), Deliver(n, 1)];
    RunOf2(c, Init(), es[0], es[1]);
    ReachableIsStill(c, es, n);
  }

  lemma Redelivered(c: Compiler, s: State, n: string)
    requires Inv(c, s) && Ranks(s) && s.worker.Idle? && Exists(s, n) && !Live(s, n).deleting && HasFinalizer(Live(s, n))
    requires !c.accept(Live(s, n).raw) && Live(s, n).stamp.NoStamp? && Lag(s, n) == 2
    ensures var s' := Step(c, s, Deliver(n, 2)); ReadyToRefuse(c, s', n) && Log(s', n) == Log(s, n)
  {
    StepKeeps(c, s, Deliver(n, 2));
    assert Log(Step(c, s, Deliver(n, 2)), n) == Log(s, n);
  }

  /** The same again, from Generating: now no version is on its way. */
  lemma SecondRefusal(c: Compiler, s: State, n: string)
    requires ReadyToRefuse(c, s, n) && Live(s, n).status == GENERATING
    ensures Forgotten(c, Step(c, Step(c, Step(c, s, Start(n)), Work(Done, false)), Work(Refused, false)), n)
  {
    Refusing(c, s, n);
    RefusedWrite(c, Step(c, Step(c, s, Start(n)), Work(Done, false)));
  }

  /** Two refused writes in a row are enough, for any chart and any refused spec. */
  lemma FailureCanBeLost(c: Compiler, n: string, raw: Json)
    requires !c.accept(raw)
    ensures Forgotten(c, Run(c, Init(), [Apply(n, raw, NoStamp), Deliver(n, 1)]
                                        + [Start(n), Work(Done, false), Work(Done, false), Work(Refused, false)]
                                        + [Deliver(n, 2), Start(n), Work(Done, false), Work(Refused, false)]), n)
  {
    var create := [Apply(n, raw, NoStamp), Deliver(n, 1)];
    var pass := [Start(n), Work(Done, false), Work(Done, false), Work(Refused, false)];
    var again := [Deliver(n, 2), Start(n), Work(Done, false), Work(Refused, false)];
    var s := Run(c, Init(), create);
    Created(c, n, raw);
    FirstRefusal(c, s, n);
    RunOf4(c, s, Start(n), Work(Done, false), Work(Done, false), Work(Refused, false));
    RunKeeps(c, s, pass);
    Redelivered(c, Run(c, s, pass), n);
    SecondRefusal(c, Step(c, Run(c, s, pass), Deliver(n, 2)), n);
    RunOf4(c, Run(c, s, pass), Deliver(n, 2), Start(n), Work(Done, false), Work(Refused, false));
    RunSplit(c, Init(), create, pass);
    RunSplit(c, Init(), create + pass, again);
  }
}
