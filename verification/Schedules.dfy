/**
  Convergence and quiescence, one step at a time: with n left to the operator
  and its calls for n answered, whatever happens in between - deliveries in the
  middle of a pass, resyncs, passes over other names, writes to other names -
  an acceptable chart is driven to Ready by a number of versions known in
  advance, and then nothing is written any more. A refused one never rests.
*/
module Schedules {
  import opened Prelude
  import opened Cluster
  import opened Safety
  import opened Wakeups
  import opened Convergence

  // ----- calm schedules --------------------------------------------------------------

  /**
    e leaves n to the operator: nobody else writes n, none of its stamps runs out,
    the operator does not restart, and its calls for n are answered. Everything
    that concerns other names is free, failing calls included.
  */
  ghost predicate Calm(s: State, e: Event, n: string) {
    match e
    case Apply(m, _, _) => m != n
    case Edit(m, _, _) => m != n
    case UserDelete(m, _) => m != n
    case Tick(dt) => Unexpired(s, n, s.now + dt)
    case Deliver(_, _) => true
    case Resync => true
    case Crash => false
    case Start(_) => true
    case Work(o, _) => OnName(s, n) ==> o == Done
  }

  ghost predicate CalmRun(c: Compiler, s: State, es: seq<Event>, n: string)
    decreases |es|
  {
    es == [] ||
    (CalmRun(c, s, es[..|es| - 1], n) && Calm(Run(c, s, es[..|es| - 1]), es[|es| - 1], n))
  }

  /** n exists, is not being deleted or about to be, and nothing of it is past its expiry. */
  ghost predicate Still(c: Compiler, s: State, n: string) {
    && Inv(c, s) && Ranks(s) && Wake(c, s)
    && Exists(s, n) && !Live(s, n).deleting && Unexpired(s, n, s.now)
    && !(s.worker.Reap? && s.worker.name == n)
  }

  /** The worker is on n and holds its live version, so its next write takes effect. */
  predicate OnLive(s: State, n: string) {
    OnName(s, n) && Writable(s, n, s.worker.obj)
  }

  /** Versions the operator has yet to write: the finalizer, Generating, Ready, and a failure it is about to report. */
  function Left(s: State, n: string): nat
    requires Exists(s, n)
  {
    (if HasFinalizer(Live(s, n)) then 0 else 1)
    + (if ReadyCurrent(Live(s, n)) then 0 else if Live(s, n).status == GENERATING then 1 else 2)
    + (if OnLive(s, n) && s.worker.MarkFailed? then 2 else 0)
  }

  function Stage(s: State, n: string): nat
    requires Exists(s, n)
  {
    if ReadyCurrent(Live(s, n)) then 0 else if OnLive(s, n) then Rank(s.worker) else 6
  }

  /** Versions to write, versions to deliver, calls to make. */
  function Measure(s: State, n: string): int
    requires Exists(s, n)
  {
    20 * Left(s, n) + 7 * Lag(s, n) + Stage(s, n)
  }

  /** e does something for n: it delivers, or starts a pass on the live version, or is a call of such a pass. */
  predicate Productive(s: State, e: Event, n: string)
    requires Exists(s, n)
  {
    match e
    case Deliver(m, count) => m == n && 0 < count && Seen(s, n) + count <= |Log(s, n)|
    case Start(m) => m == n && s.worker.Idle? && n in s.queue && Lag(s, n) == 0 && !ReadyCurrent(Live(s, n))
    case Work(_, _) => OnLive(s, n)
    case _ => false
  }

  // ----- what a step does to n -----------------------------------------------------------

  /** The same chart, with at most one more version. */
  ghost predicate SameChart(s: State, s': State, n: string) {
    && Log(s, n) <= Log(s', n) && |Log(s', n)| <= |Log(s, n)| + 1 && Seen(s, n) <= Seen(s', n)
    && Exists(s, n) && Exists(s', n) && !Live(s', n).deleting
    && Live(s', n).raw == Live(s, n).raw && Live(s', n).uid == Live(s, n).uid && Live(s', n).stamp == Live(s, n).stamp
  }

  /** Nothing happened to n that the measure could see. */
  ghost predicate Untouched(s: State, s': State, n: string) {
    && Log(s', n) == Log(s, n) && Seen(s', n) == Seen(s, n)
    && (OnLive(s, n) ==> s'.worker == s.worker) && (!OnLive(s, n) ==> !OnLive(s', n))
    && !(s'.worker.Reap? && s'.worker.name == n)
  }

  lemma StillAfter(c: Compiler, s: State, e: Event, n: string)
    requires Still(c, s, n) && SameChart(s, Step(c, s, e), n)
    requires Unexpired(s, n, Step(c, s, e).now)
    requires var w := Step(c, s, e).worker; !(w.Reap? && w.name == n)
    ensures Still(c, Step(c, s, e), n)
  {
    StepKeeps(c, s, e);
    StepWakes(c, s, e);
    assert NameOk(c, s, n);
    StaysUnexpired(s, Step(c, s, e), n);
  }

  lemma StaysUnexpired(s: State, s': State, n: string)
    requires SameChart(s, s', n) && Unexpired(s, n, s'.now) && Seen(s, n) <= |Log(s, n)|
    ensures Unexpired(s', n, s'.now)
  {
    assert !Expired(Log(s, n)[|Log(s, n)| - 1].stamp, s'.now);
    forall i | 0 <= i < |Log(s', n)| && Seen(s', n) <= i + 1 ensures !Expired(Log(s', n)[i].stamp, s'.now) {
      if i < |Log(s, n)| { assert Log(s', n)[i] == Log(s, n)[i]; }
    }
  }

  lemma UntouchedMeasure(s: State, s': State, n: string)
    requires Exists(s, n) && !Live(s, n).deleting && Untouched(s, s', n)
    ensures SameChart(s, s', n) && Measure(s', n) == Measure(s, n) && Left(s', n) == Left(s, n)
  {
    assert OnLive(s', n) == OnLive(s, n);
  }

  // ----- steps that leave n alone -----------------------------------------------------------

  lemma SeenIsInLog(c: Compiler, s: State)
    requires Inv(c, s)
    ensures SeenOk(s)
  {
    forall n ensures Seen(s, n) <= |Log(s, n)| { assert NameOk(c, s, n); }
  }

  lemma WriteElsewhere(c: Compiler, s: State, e: Event, n: string)
    requires Still(c, s, n) && (e.Apply? || e.Edit? || e.UserDelete?) && e.name != n
    ensures var s' := Step(c, s, e); Untouched(s, s', n) && s'.now == s.now
  {
    SeenIsInLog(c, s);
    match e
    case Apply(m, raw, stamp) => ApplyIsOneWrite(s, m, raw, stamp); assert Undisturbed(s, ApiApply(s, m, raw, stamp), n);
    case Edit(m, fs, stamp) => EditIsOneWrite(s, m, fs, stamp); assert Undisturbed(s, ApiEdit(s, m, fs, stamp), n);
    case UserDelete(m, bump) => DeleteIsOneWrite(s, m, bump); assert Undisturbed(s, ApiDelete(s, m, bump).s, n);
  }

  lemma Interlude(c: Compiler, s: State, e: Event, n: string)
    requires Still(c, s, n) && (e.Tick? || e.Resync? || (e.Deliver? && e.name != n))
    ensures var s' := Step(c, s, e); Untouched(s, s', n) && s'.now == if e.Tick? then s.now + e.dt else s.now
  {
  }

  lemma Delivery(c: Compiler, s: State, n: string, count: nat)
    requires Still(c, s, n)
    ensures var s' := Step(c, s, Deliver(n, count));
            && SameChart(s, s', n) && Log(s', n) == Log(s, n) && s'.worker == s.worker && s'.now == s.now
            && Seen(s', n) == Seen(s, n) + (if Productive(s, Deliver(n, count), n) then count else 0)
  {
  }

  lemma StartElsewhere(c: Compiler, s: State, m: string, n: string)
    requires Still(c, s, n) && !Productive(s, Start(m), n)
    ensures var s' := Step(c, s, Start(m)); Untouched(s, s', n) && s'.now == s.now
  {
    if Step(c, s, Start(m)) != s {
      assert NameOk(c, s, n);
      if m != n { BeginElsewhere(s.(queue := s.queue - {m}), m, n); } else { BeginStale(c, s, n); }
    }
  }

  lemma BeginElsewhere(s: State, m: string, n: string)
    requires s.worker.Idle? && m != n
    ensures var s' := Begin(s, m); Untouched(s, s', n) && s'.now == s.now
  {
  }

  /** A pass over a finished chart, or on a superseded version. */
  lemma BeginStale(c: Compiler, s: State, n: string)
    requires Still(c, s, n) && s.worker.Idle? && (0 < Lag(s, n) || ReadyCurrent(Live(s, n)))
    ensures var s' := Begin(s.(queue := s.queue - {n}), n); Untouched(s, s', n) && s'.now == s.now
  {
    assert NameOk(c, s, n);
    if Lag(s, n) == 0 {
      assert Cached(s, n) == Some(Live(s, n));
      assert !Expired(Log(s, n)[|Log(s, n)| - 1].stamp, s.now);
      FinishedIsFinalized(c, s, n);
    } else if Cached(s, n).Some? {
      var i := Seen(s, n) - 1;
      assert Later(Log(s, n)[i], Live(s, n)) && !Expired(Log(s, n)[i].stamp, s.now);
    }
  }

  lemma FinishedIsFinalized(c: Compiler, s: State, n: string)
    requires NameOk(c, s, n) && Exists(s, n) && !Live(s, n).deleting && ReadyCurrent(Live(s, n))
    ensures HasFinalizer(Live(s, n)) && Want(c, Live(s, n).raw).Some?
  {
  }

  lemma WorkerElsewhere(c: Compiler, s: State, o: Outcome, bump: bool, n: string)
    requires Still(c, s, n) && !OnName(s, n)
    ensures var s' := Step(c, s, Work(o, bump)); Untouched(s, s', n) && s'.now == s.now
  {
    if !s.worker.Idle? {
      SeenIsInLog(c, s);
      WorkElsewhere(c, s, o, bump, n);
      WorkStaysOnName(c, s, o, bump);
    } else {
      assert Step(c, s, Work(o, bump)) == s;
    }
  }

  lemma WorkStaysOnName(c: Compiler, s: State, o: Outcome, bump: bool)
    requires !s.worker.Idle?
    ensures var s' := Proceed(c, s, o, bump);
            (s'.worker.Idle? || s'.worker.name == s.worker.name) && s'.now == s.now
  {
    var r := Observe(s, Call(c, s, bump), o);
    ContinueStays(c, r.s, s.worker, r.obj);
    CallNow(c, s, bump);
  }

  lemma ContinueStays(c: Compiler, s: State, w: Worker, reply: Option<CR>)
    requires !w.Idle?
    ensures var s' := Continue(c, s, w, reply); s'.worker.Idle? || s'.worker.name == w.name
  {
  }

  lemma CallNow(c: Compiler, s: State, bump: bool)
    ensures Call(c, s, bump).s.now == s.now
  {
  }

  // ----- the worker on a superseded version ---------------------------------------------------

  lemma StaleCall(c: Compiler, s: State, bump: bool)
    requires !s.worker.Idle? && !s.worker.Reap? && !Writable(s, s.worker.name, s.worker.obj)
    ensures var r := Call(c, s, bump);
            && r.s.log == s.log && r.s.seen == s.seen && r.s.now == s.now
            && (s.worker.AddFinalizer? || s.worker.MarkGenerating? ==> r.obj.None?)
  {
  }

  lemma StaleContinues(c: Compiler, s: State, w: Worker, reply: Option<CR>)
    requires !w.Idle? && (w.AddFinalizer? || w.MarkGenerating? ==> reply.None?)
    ensures var s' := Continue(c, s, w, reply);
            s'.worker.Idle? || (s'.worker.name == w.name && s'.worker.obj == w.obj && !s'.worker.Reap?)
  {
  }

  lemma StaleWork(c: Compiler, s: State, bump: bool, n: string)
    requires Still(c, s, n) && OnName(s, n) && !OnLive(s, n)
    ensures var s' := Step(c, s, Work(Done, bump)); Untouched(s, s', n) && s'.now == s.now
  {
    var r := Call(c, s, bump);
    StaleCall(c, s, bump);
    StaleContinues(c, r.s, s.worker, r.obj);
    assert Log(r.s, n) == Log(s, n);
  }

  /** Every calm step that is not productive leaves n and its measure alone. */
  lemma IdleStep(c: Compiler, s: State, e: Event, n: string)
    requires Still(c, s, n) && Calm(s, e, n) && !Productive(s, e, n)
    ensures var s' := Step(c, s, e);
            Untouched(s, s', n) && Unexpired(s, n, s'.now)
  {
    match e
    case Apply(m, raw, stamp) => WriteElsewhere(c, s, e, n);
    case Edit(m, fs, stamp) => WriteElsewhere(c, s, e, n);
    case UserDelete(m, bump) => WriteElsewhere(c, s, e, n);
    case Deliver(m, count) => if m == n { Delivery(c, s, n, count); } else { Interlude(c, s, e, n); }
    case Start(m) => StartElsewhere(c, s, m, n);
    case Work(o, bump) => if OnName(s, n) { StaleWork(c, s, bump, n); } else { WorkerElsewhere(c, s, o, bump, n); }
    case _ => Interlude(c, s, e, n);
  }

  // ----- the worker on the live version ---------------------------------------------------------

  /** One version of n more, with the given status, as a status write leaves it. */
  ghost predicate Wrote(s: State, s': State, n: string, st: Status) {
    && Exists(s, n) && Exists(s', n) && Log(s, n) <= Log(s', n) && Seen(s', n) == Seen(s, n) && s'.now == s.now
    && SameVersion(Live(s', n), Live(s, n).(status := st))
    && |Log(s', n)| == |Log(s, n)| + (if Live(s, n).status == st then 0 else 1)
  }

  lemma HeldLive(c: Compiler, s: State, n: string)
    requires Still(c, s, n) && OnLive(s, n)
    ensures s.worker.obj == Live(s, n) && !ReadyCurrent(Live(s, n)) && !Expired(Live(s, n).stamp, s.now)
    ensures !s.worker.RemoveArtifact? && !s.worker.DropFinalizer? && !s.worker.Reap?
    ensures s.worker.AddFinalizer? <==> !HasFinalizer(Live(s, n))
    ensures s.worker.Render? || s.worker.Upload? || s.worker.MarkReady? || s.worker.MarkFailed? ==>
              Live(s, n).status == GENERATING
  {
    assert NameOk(c, s, n);
    HeldIsLive(c, s, n, s.worker.obj);
    assert !Expired(Log(s, n)[|Log(s, n)| - 1].stamp, s.now);
    if ReadyCurrent(Live(s, n)) { FinishedIsFinalized(c, s, n); }
  }

  lemma StatusWrites(s: State, n: string, st: Status)
    requires Exists(s, n)
    ensures var r := ApiUpdateStatus(s, n, Live(s, n).(status := st));
            r.obj == Some(Live(r.s, n)) && Wrote(s, r.s, n, st) && r.s.worker == s.worker
  {
  }

  lemma Finalized(c: Compiler, s: State, bump: bool, n: string)
    requires Still(c, s, n) && OnLive(s, n) && s.worker.AddFinalizer?
    ensures var s' := Proceed(c, s, Done, bump);
            && SameChart(s, s', n) && s'.worker == MarkGenerating(n, Live(s', n)) && OnLive(s', n) && s'.now == s.now
            && |Log(s', n)| == |Log(s, n)| + 1 && Seen(s', n) == Seen(s, n)
            && HasFinalizer(Live(s', n)) && Live(s', n).status == Live(s, n).status && !ReadyCurrent(Live(s', n))
  {
    HeldLive(c, s, n);
    assert NameOk(c, s, n);
    var r := ApiUpdate(s, n, WithFinalizer(Live(s, n)));
    assert r.obj == Some(Live(r.s, n)) && SameVersion(Live(r.s, n), WithFinalizer(Live(s, n)));
  }

  lemma Generated(c: Compiler, s: State, bump: bool, n: string)
    requires Still(c, s, n) && OnLive(s, n) && s.worker.MarkGenerating?
    ensures var s' := Proceed(c, s, Done, bump);
            && SameChart(s, s', n) && Wrote(s, s', n, GENERATING) && OnLive(s', n)
            && s'.worker == if c.accept(Live(s, n).raw) then Render(n, Live(s', n)) else MarkFailed(n, Live(s', n), false)
  {
    HeldLive(c, s, n);
    assert NameOk(c, s, n);
    StatusWrites(s, n, GENERATING);
  }

  /** Rendering and uploading write no version. */
  lemma Rendered(c: Compiler, s: State, bump: bool, n: string)
    requires Still(c, s, n) && OnLive(s, n) && (s.worker.Render? || s.worker.Upload?)
    ensures var s' := Proceed(c, s, Done, bump);
            && Log(s', n) == Log(s, n) && Seen(s', n) == Seen(s, n) && s'.now == s.now && OnLive(s', n)
            && s'.worker.obj == Live(s, n)
            && (if s.worker.Upload? then s'.worker.MarkReady?
                else if Want(c, Live(s, n).raw).Some? then s'.worker.Upload? else s'.worker.MarkFailed?)
  {
    HeldLive(c, s, n);
    assert Log(Call(c, s, bump).s, n) == Log(s, n);
  }

  lemma Concluded(c: Compiler, s: State, bump: bool, n: string)
    requires Still(c, s, n) && OnLive(s, n) && (s.worker.MarkReady? || s.worker.MarkFailed?)
    ensures var s' := Proceed(c, s, Done, bump);
            && SameChart(s, s', n) && s'.worker.Idle? && |Log(s', n)| == |Log(s, n)| + 1
            && Wrote(s, s', n, if s.worker.MarkReady? then ReadyStatus(n, Live(s, n).generation) else FAILED)
  {
    HeldLive(c, s, n);
    assert NameOk(c, s, n);
    StatusWrites(s, n, if s.worker.MarkReady? then ReadyStatus(n, Live(s, n).generation) else FAILED);
  }

  lemma Began(c: Compiler, s: State, n: string)
    requires Still(c, s, n) && Productive(s, Start(n), n)
    ensures var s' := Step(c, s, Start(n));
            && Log(s', n) == Log(s, n) && Seen(s', n) == Seen(s, n) && s'.now == s.now && SameChart(s, s', n)
            && OnLive(s', n) && (s'.worker.AddFinalizer? || s'.worker.MarkGenerating?)
  {
    assert NameOk(c, s, n);
    assert Cached(s, n) == Some(Live(s, n));
    assert !Expired(Log(s, n)[|Log(s, n)| - 1].stamp, s.now);
  }

  // ----- n stays still, and productive steps are paid for -----------------------------------------

  lemma LiveWork(c: Compiler, s: State, bump: bool, n: string)
    requires Still(c, s, n) && OnLive(s, n)
    ensures var s' := Proceed(c, s, Done, bump);
            && SameChart(s, s', n) && Seen(s', n) == Seen(s, n) && s'.now == s.now && !s'.worker.Reap?
            && (|Log(s', n)| == |Log(s, n)| ==> OnLive(s', n) && Rank(s'.worker) < Rank(s.worker))
  {
    HeldLive(c, s, n);
    match s.worker
    case AddFinalizer(_, _) => Finalized(c, s, bump, n);
    case MarkGenerating(_, _) => Generated(c, s, bump, n);
    case Render(_, _) => Rendered(c, s, bump, n);
    case Upload(_, _, _) => Rendered(c, s, bump, n);
    case MarkReady(_, _, _) => Concluded(c, s, bump, n);
    case MarkFailed(_, _, _) => Concluded(c, s, bump, n);
    case _ =>
  }

  lemma ProductiveStep(c: Compiler, s: State, e: Event, n: string)
    requires Still(c, s, n) && Calm(s, e, n) && Productive(s, e, n)
    ensures var s' := Step(c, s, e);
            SameChart(s, s', n) && Unexpired(s, n, s'.now) && !(s'.worker.Reap? && s'.worker.name == n)
  {
    match e
    case Deliver(m, count) => Delivery(c, s, n, count);
    case Start(m) => Began(c, s, n);
    case Work(o, bump) => LiveWork(c, s, bump, n);
    case _ =>
  }

  /** Nothing calm stops n from being still, whatever its spec. */
  lemma StillKept(c: Compiler, s: State, e: Event, n: string)
    requires Still(c, s, n) && Calm(s, e, n)
    ensures Still(c, Step(c, s, e), n) && SameChart(s, Step(c, s, e), n)
  {
    if Productive(s, e, n) {
      ProductiveStep(c, s, e, n);
    } else {
      IdleStep(c, s, e, n);
      UntouchedMeasure(s, Step(c, s, e), n);
    }
    StillAfter(c, s, e, n);
  }

  /** With an acceptable spec a call on the live version brings the chart nearer to Ready. */
  lemma LiveWorkPays(c: Compiler, s: State, bump: bool, n: string)
    requires Still(c, s, n) && OnLive(s, n) && Want(c, Live(s, n).raw).Some?
    ensures var s' := Proceed(c, s, Done, bump);
            && SameChart(s, s', n) && |Log(s', n)| + Left(s', n) == |Log(s, n)| + Left(s, n)
            && Measure(s', n) < Measure(s, n)
  {
    HeldLive(c, s, n);
    match s.worker
    case AddFinalizer(_, _) => Finalized(c, s, bump, n);
    case MarkGenerating(_, _) => Generated(c, s, bump, n);
    case Render(_, _) => Rendered(c, s, bump, n);
    case Upload(_, _, _) => Rendered(c, s, bump, n);
    case MarkReady(_, _, _) => Concluded(c, s, bump, n);
    case MarkFailed(_, _, _) => Concluded(c, s, bump, n);
    case _ =>
  }

  lemma StepPays(c: Compiler, s: State, e: Event, n: string)
    requires Still(c, s, n) && Calm(s, e, n) && Want(c, Live(s, n).raw).Some?
    ensures var s' := Step(c, s, e);
            && SameChart(s, s', n) && |Log(s', n)| + Left(s', n) == |Log(s, n)| + Left(s, n)
            && (if Productive(s, e, n) then Measure(s', n) < Measure(s, n)
                else Measure(s', n) == Measure(s, n) && Log(s', n) == Log(s, n) && Seen(s', n) == Seen(s, n))
  {
    if !Productive(s, e, n) {
      IdleStep(c, s, e, n);
      UntouchedMeasure(s, Step(c, s, e), n);
    } else {
      match e
      case Deliver(m, count) => Delivery(c, s, n, count);
      case Start(m) => Began(c, s, n);
      case Work(o, bump) => LiveWorkPays(c, s, bump, n);
      case _ =>
    }
  }

  // ----- every schedule converges -------------------------------------------------------------------

  function ProductiveCount(c: Compiler, s: State, es: seq<Event>, n: string): nat
    decreases |es|
  {
    if es == [] then 0
    else
      var before, last := Run(c, s, es[..|es| - 1]), es[|es| - 1];
      ProductiveCount(c, s, es[..|es| - 1], n) + if Exists(before, n) && Productive(before, last, n) then 1 else 0
  }

  /** The same chart, some versions later. */
  ghost predicate SameChartLater(s: State, s': State, n: string) {
    && Log(s, n) <= Log(s', n) && Exists(s, n) && Exists(s', n) && !Live(s', n).deleting
    && Live(s', n).raw == Live(s, n).raw && Live(s', n).uid == Live(s, n).uid
  }

  lemma {:induction false} StillThroughout(c: Compiler, s: State, es: seq<Event>, n: string)
    requires Still(c, s, n) && CalmRun(c, s, es, n)
    ensures Still(c, Run(c, s, es), n) && SameChartLater(s, Run(c, s, es), n)
    decreases |es|
  {
    if es != [] {
      StillThroughout(c, s, es[..|es| - 1], n);
      StillKept(c, Run(c, s, es[..|es| - 1]), es[|es| - 1], n);
    }
  }

  /**
    Whatever the schedule, an acceptable chart still needs exactly as many versions
    as it needed at the start less those written since, every productive step is
    paid for by the measure, and a schedule without one changes nothing.
  */
  lemma {:induction false} EveryScheduleConverges(c: Compiler, s: State, es: seq<Event>, n: string)
    requires Still(c, s, n) && CalmRun(c, s, es, n) && Want(c, Live(s, n).raw).Some?
    ensures var s' := Run(c, s, es);
            && Still(c, s', n) && SameChartLater(s, s', n)
            && |Log(s', n)| + Left(s', n) == |Log(s, n)| + Left(s, n)
            && Measure(s', n) + ProductiveCount(c, s, es, n) <= Measure(s, n) && 0 <= Measure(s', n)
            && (ProductiveCount(c, s, es, n) == 0 ==> Log(s', n) == Log(s, n) && Seen(s', n) == Seen(s, n))
    decreases |es|
  {
    if es != [] {
      var init, last := es[..|es| - 1], es[|es| - 1];
      EveryScheduleConverges(c, s, init, n);
      StepPays(c, Run(c, s, init), last, n);
      StillKept(c, Run(c, s, init), last, n);
    }
    NoNegativeMeasure(c, Run(c, s, es), n);
  }

  lemma NoNegativeMeasure(c: Compiler, s: State, n: string)
    requires Still(c, s, n)
    ensures 0 <= Lag(s, n) && 0 <= Measure(s, n)
  {
    assert NameOk(c, s, n);
  }

  /** The measure is used up exactly when the chart is Ready and delivered, and then its artifact is the right one. */
  lemma SettledIff(c: Compiler, s: State, n: string)
    requires Still(c, s, n)
    ensures Measure(s, n) == 0 <==> ReadyCurrent(Live(s, n)) && Lag(s, n) == 0
    ensures ReadyCurrent(Live(s, n)) ==> Settled(c, s, n) && Left(s, n) == 0 && Want(c, Live(s, n).raw).Some?
  {
    NoNegativeMeasure(c, s, n);
    assert NameOk(c, s, n);
    if ReadyCurrent(Live(s, n)) {
      FinishedIsFinalized(c, s, n);
      if OnLive(s, n) { HeldLive(c, s, n); }
    } else if OnLive(s, n) {
      HeldLive(c, s, n);
    }
  }

  /** Once the chart is Ready nothing is written any more, whatever is delivered, resynced or reconciled. */
  lemma SettledStaysQuiet(c: Compiler, s: State, es: seq<Event>, n: string)
    requires Still(c, s, n) && CalmRun(c, s, es, n) && ReadyCurrent(Live(s, n))
    ensures Log(Run(c, s, es), n) == Log(s, n) && Settled(c, Run(c, s, es), n)
  {
    SettledIff(c, s, n);
    EveryScheduleConverges(c, s, es, n);
    SettledIff(c, Run(c, s, es), n);
  }

  // ----- some schedule gets there -----------------------------------------------------------------

  /** What a scheduler that favours n would do next. */
  function Next(s: State, n: string): Event {
    if !s.worker.Idle? then Work(Done, false)
    else if 0 < Lag(s, n) then Deliver(n, 1)
    else if n !in s.queue then Resync
    else Start(n)
  }

  /** Steps of that scheduler before something is written to n. */
  function Distance(s: State, n: string): int {
    if OnLive(s, n) then Rank(s.worker)
    else 6 + 2 * Lag(s, n) + (if !s.worker.Idle? then 1 + Rank(s.worker) else if n in s.queue then 0 else 1)
  }

  lemma NextWhenIdle(c: Compiler, s: State, n: string)
    requires Still(c, s, n) && !ReadyCurrent(Live(s, n)) && s.worker.Idle?
    ensures var s' := Step(c, s, Next(s, n));
            Calm(s, Next(s, n), n) && Log(s', n) == Log(s, n) && Distance(s', n) < Distance(s, n)
  {
    NoNegativeMeasure(c, s, n);
    if 0 < Lag(s, n) {
      Delivery(c, s, n, 1);
    } else if n !in s.queue {
      assert n in s.seen;
    } else {
      Began(c, s, n);
    }
  }

  lemma NextWhenBusy(c: Compiler, s: State, n: string)
    requires Still(c, s, n) && !s.worker.Idle?
    ensures var s' := Step(c, s, Next(s, n));
            && Calm(s, Next(s, n), n)
            && (|Log(s', n)| > |Log(s, n)| || (Log(s', n) == Log(s, n) && Distance(s', n) < Distance(s, n)))
  {
    var s' := Step(c, s, Work(Done, false));
    if OnLive(s, n) {
      LiveWork(c, s, false, n);
    } else {
      IdleStep(c, s, Work(Done, false), n);
      PassMakesProgress(c, s);
    }
  }

  lemma {:induction false} CalmSplit(c: Compiler, s: State, a: seq<Event>, b: seq<Event>, n: string)
    requires CalmRun(c, s, a, n) && CalmRun(c, Run(c, s, a), b, n)
    ensures CalmRun(c, s, a + b, n) && Run(c, s, a + b) == Run(c, Run(c, s, a), b)
    decreases |b|
  {
    RunSplit(c, s, a, b);
    if b == [] {
      assert a + b == a;
    } else {
      var init := b[..|b| - 1];
      CalmSplit(c, s, a, init, n);
      assert (a + b)[..|a + b| - 1] == a + init;
    }
  }

  lemma OneEvent(c: Compiler, s: State, e: Event, n: string)
    requires Calm(s, e, n)
    ensures CalmRun(c, s, [e], n) && Run(c, s, [e]) == Step(c, s, e)
  {
    assert [e][..0] == [];
    assert Run(c, s, []) == s;
  }

  lemma NextHelps(c: Compiler, s: State, n: string)
    requires Still(c, s, n) && !ReadyCurrent(Live(s, n))
    ensures var s' := Step(c, s, Next(s, n));
            && CalmRun(c, s, [Next(s, n)], n) && Run(c, s, [Next(s, n)]) == s' && Still(c, s', n)
            && (|Log(s', n)| > |Log(s, n)|
                || (Log(s', n) == Log(s, n) && 0 <= Distance(s', n) < Distance(s, n)))
  {
    if s.worker.Idle? { NextWhenIdle(c, s, n); } else { NextWhenBusy(c, s, n); }
    OneEvent(c, s, Next(s, n), n);
    StillKept(c, s, Next(s, n), n);
    NoNegativeMeasure(c, Step(c, s, Next(s, n)), n);
  }

  /** As long as the chart is not Ready, some calm schedule writes to it, whatever its spec. */
  lemma {:induction false} Writes(c: Compiler, s: State, n: string) returns (es: seq<Event>)
    requires Still(c, s, n) && !ReadyCurrent(Live(s, n))
    ensures CalmRun(c, s, es, n) && |Log(Run(c, s, es), n)| > |Log(s, n)|
    decreases Distance(s, n)
  {
    var e := Next(s, n);
    var s' := Step(c, s, e);
    NextHelps(c, s, n);
    es := [e];
    if |Log(s', n)| <= |Log(s, n)| {
      var rest := Writes(c, s', n);
      CalmSplit(c, s, [e], rest, n);
      es := [e] + rest;
    }
  }

  lemma {:induction false} Settles(c: Compiler, s: State, n: string) returns (es: seq<Event>)
    requires Still(c, s, n) && Want(c, Live(s, n).raw).Some?
    ensures CalmRun(c, s, es, n) && Exists(Run(c, s, es), n) && ReadyCurrent(Live(Run(c, s, es), n))
    decreases Left(s, n)
  {
    if ReadyCurrent(Live(s, n)) {
      es := [];
    } else {
      var first := Writes(c, s, n);
      EveryScheduleConverges(c, s, first, n);
      var rest := Settles(c, Run(c, s, first), n);
      CalmSplit(c, s, first, rest, n);
      es := first + rest;
    }
  }

  /** Schedules one after the other, each with a productive step unless the chart is settled by then. */
  ghost predicate Rounds(c: Compiler, s: State, rounds: seq<seq<Event>>, n: string)
    decreases |rounds|
  {
    rounds == [] ||
    (&& CalmRun(c, s, rounds[0], n)
     && (ProductiveCount(c, s, rounds[0], n) > 0 || (Exists(s, n) && Measure(s, n) == 0))
     && Rounds(c, Run(c, s, rounds[0]), rounds[1..], n))
  }

  function RunAll(c: Compiler, s: State, rounds: seq<seq<Event>>): State
    decreases |rounds|
  {
    if rounds == [] then s else RunAll(c, Run(c, s, rounds[0]), rounds[1..])
  }

  /** As many productive rounds as the measure says settle the chart, whatever else happens in them. */
  lemma {:induction false} RoundsSettle(c: Compiler, s: State, rounds: seq<seq<Event>>, n: string)
    requires Still(c, s, n) && Want(c, Live(s, n).raw).Some? && Rounds(c, s, rounds, n) && Measure(s, n) <= |rounds|
    ensures var s' := RunAll(c, s, rounds); Still(c, s', n) && Measure(s', n) == 0 && Settled(c, s', n)
    decreases |rounds|
  {
    if rounds == [] {
      NoNegativeMeasure(c, s, n);
      SettledIff(c, s, n);
    } else {
      EveryScheduleConverges(c, s, rounds[0], n);
      RoundsSettle(c, Run(c, s, rounds[0]), rounds[1..], n);
    }
  }

  /** The last events of a Ready chart. */
  lemma LastDelivery(c: Compiler, s: State, n: string)
    requires Still(c, s, n) && 0 < Lag(s, n)
    ensures CalmRun(c, s, [Deliver(n, 1)], n) && ProductiveCount(c, s, [Deliver(n, 1)], n) == 1
  {
    OneEvent(c, s, Deliver(n, 1), n);
    assert [Deliver(n, 1)][..0] == [];
    assert Run(c, s, []) == s && ProductiveCount(c, s, [], n) == 0;
  }

  /** Such rounds are there to be had exactly until the chart is settled: nothing productive is left iff it is. */
  lemma NothingProductiveIff(c: Compiler, s: State, n: string)
    requires Still(c, s, n) && Want(c, Live(s, n).raw).Some?
    ensures Measure(s, n) == 0 <==> forall es :: CalmRun(c, s, es, n) ==> ProductiveCount(c, s, es, n) == 0
  {
    NoNegativeMeasure(c, s, n);
    if Measure(s, n) == 0 {
      forall es | CalmRun(c, s, es, n) ensures ProductiveCount(c, s, es, n) == 0 {
        EveryScheduleConverges(c, s, es, n);
      }
    } else if ReadyCurrent(Live(s, n)) {
      SettledIff(c, s, n);
      LastDelivery(c, s, n);
    } else {
      var es := Writes(c, s, n);
      EveryScheduleConverges(c, s, es, n);
      assert CalmRun(c, s, es, n) && ProductiveCount(c, s, es, n) != 0;
    }
  }

  // ----- rest --------------------------------------------------------------------------------------

  /** Left to the operator, n is never written again. */
  ghost predicate Rests(c: Compiler, s: State, n: string) {
    forall es :: CalmRun(c, s, es, n) ==> Log(Run(c, s, es), n) == Log(s, n)
  }

  /** A chart that is left alone is at rest exactly when it is Ready for its generation. */
  lemma RestsIff(c: Compiler, s: State, n: string)
    requires Still(c, s, n)
    ensures Rests(c, s, n) <==> ReadyCurrent(Live(s, n))
  {
    if ReadyCurrent(Live(s, n)) {
      forall es | CalmRun(c, s, es, n) ensures Log(Run(c, s, es), n) == Log(s, n) {
        SettledStaysQuiet(c, s, es, n);
      }
    } else {
      var es := Writes(c, s, n);
      assert CalmRun(c, s, es, n) && Log(Run(c, s, es), n) != Log(s, n);
    }
  }

  ghost predicate BringsToRest(c: Compiler, s: State, es: seq<Event>, n: string) {
    CalmRun(c, s, es, n) && Rests(c, Run(c, s, es), n)
  }

  lemma NeverRests(c: Compiler, s: State, es: seq<Event>, n: string)
    requires Still(c, s, n) && CalmRun(c, s, es, n) && Want(c, Live(s, n).raw).None?
    ensures !Rests(c, Run(c, s, es), n)
  {
    var s' := Run(c, s, es);
    StillThroughout(c, s, es, n);
    RestsIff(c, s', n);
    SettledIff(c, s', n);
  }

  /**
    From any state in which n is left to the operator, some schedule brings it to
    rest exactly when its spec is accepted and renders. A refused or failing spec
    is reported and regenerated for ever.
  */
  lemma ComesToRestIff(c: Compiler, s: State, n: string)
    requires Still(c, s, n)
    ensures (exists es :: BringsToRest(c, s, es, n)) <==> Want(c, Live(s, n).raw).Some?
  {
    if Want(c, Live(s, n).raw).Some? {
      var es := Settles(c, s, n);
      StillThroughout(c, s, es, n);
      RestsIff(c, Run(c, s, es), n);
      assert BringsToRest(c, s, es, n);
    } else {
      forall es ensures !BringsToRest(c, s, es, n) {
        if CalmRun(c, s, es, n) { NeverRests(c, s, es, n); }
      }
    }
  }

  /** A restart keeps n still, so all of this holds again after one. */
  lemma RestartIsStill(c: Compiler, s: State, n: string)
    requires Still(c, s, n)
    ensures Still(c, Step(c, s, Crash), n) && Live(Step(c, s, Crash), n) == Live(s, n)
  {
    StepKeeps(c, s, Crash);
    StepWakes(c, s, Crash);
  }

  /**
    Every reachable state in which n exists, is not being deleted and shows no
    expired version is still, whatever the worker is doing, unless it is about to
    reap n itself.
  */
  lemma ReachableIsStill(c: Compiler, es: seq<Event>, n: string)
    requires var s := Run(c, Init(), es);
             && Exists(s, n) && !Live(s, n).deleting && Unexpired(s, n, s.now)
             && !(s.worker.Reap? && s.worker.name == n)
    ensures Still(c, Run(c, Init(), es), n)
  {
    ReachableInv(c, es);
    RunWakes(c, es);
  }
}
