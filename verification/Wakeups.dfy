/**
  Wakeups: in every run, once the cache is current for a chart, either its key is
  queued, or the worker is on it, or it is at rest. For a chart being deleted
  that means its finalizer is gone, for an acceptable spec Ready, so no wakeup is
  lost; for a refused one it means Generating, the one way to lose a failure.
*/
module Wakeups {
  import opened Prelude
  import opened Cluster
  import opened Safety

  predicate OnName(s: State, n: string) {
    !s.worker.Idle? && s.worker.name == n
  }

  /** The cache is current for n. */
  predicate Current(s: State, n: string) {
    Exists(s, n) && Seen(s, n) == |Log(s, n)|
  }

  /** What an object may look like when nobody is going to reconcile it. */
  predicate AtRest(c: Compiler, v: CR) {
    if v.deleting then !HasFinalizer(v) else if c.accept(v.raw) then ReadyCurrent(v) else v.status == GENERATING
  }

  ghost predicate Awake(c: Compiler, s: State, n: string) {
    Current(s, n) && n !in s.queue && !OnName(s, n) ==> AtRest(c, Live(s, n))
  }

  /** Unless its key was queued again, the worker is at least as current as the cache. */
  predicate Ahead(s: State) {
    !s.worker.Idle? ==>
      var n := s.worker.name;
      n !in s.queue && 0 < Seen(s, n) <= |Log(s, n)| ==> Log(s, n)[Seen(s, n) - 1].rv <= s.worker.obj.rv
  }

  /** A failure that will not be retried is that of a refused spec, not of a deletion. */
  predicate Rejecting(c: Compiler, w: Worker) {
    w.MarkFailed? && !w.requeue ==> !c.accept(w.obj.raw) && !w.obj.deleting
  }

  ghost predicate BusyOk(c: Compiler, s: State) {
    Ahead(s) && Rejecting(c, s.worker)
  }

  ghost predicate Wake(c: Compiler, s: State) {
    (forall n :: Awake(c, s, n)) && BusyOk(c, s)
  }

  /** n is as before, up to new log entries and queued keys. */
  ghost predicate Undisturbed(s: State, s': State, n: string) {
    && Log(s, n) <= Log(s', n) && Seen(s', n) == Seen(s, n) <= |Log(s, n)|
    && (n in s.queue ==> n in s'.queue) && (OnName(s, n) ==> OnName(s', n))
  }

  lemma UndisturbedAwake(c: Compiler, s: State, s': State, n: string)
    requires Awake(c, s, n) && Undisturbed(s, s', n)
    ensures Awake(c, s', n)
  {
    assert |Log(s', n)| == |Log(s, n)| ==> Log(s', n) == Log(s, n);
  }

  // ----- steps from outside ------------------------------------------------------

  ghost predicate SeenOk(s: State) {
    forall n :: Seen(s, n) <= |Log(s, n)|
  }

  /** The effect of one API write on m, as far as the other names and the worker can tell. */
  ghost predicate OneWrite(s: State, s': State, m: string) {
    && (forall n :: Undisturbed(s, s', n)) && s'.queue == s.queue && s'.worker == s.worker
    && (forall n :: n != m ==> Log(s', n) == Log(s, n))
  }

  lemma CommitIsOneWrite(s: State, m: string, v: CR)
    requires SeenOk(s)
    ensures OneWrite(s, Commit(s, m, v), m)
  {
    forall n ensures Undisturbed(s, Commit(s, m, v), n) { }
  }

  lemma UpdateIsOneWrite(s: State, m: string, obj: CR)
    requires SeenOk(s)
    ensures OneWrite(s, ApiUpdate(s, m, obj).s, m)
  {
    if Writable(s, m, obj) {
      var cur := Live(s, m);
      CommitIsOneWrite(s, m, obj.(uid := cur.uid, status := cur.status, deleting := cur.deleting,
        generation := if obj.raw == cur.raw then cur.generation else cur.generation + 1,
        gone := cur.deleting && obj.finalizers == []));
    }
  }

  lemma StatusIsOneWrite(s: State, m: string, obj: CR)
    requires SeenOk(s)
    ensures OneWrite(s, ApiUpdateStatus(s, m, obj).s, m)
  {
    if Writable(s, m, obj) { CommitIsOneWrite(s, m, Live(s, m).(status := obj.status)); }
  }

  lemma DeleteIsOneWrite(s: State, m: string, bump: bool)
    requires SeenOk(s)
    ensures OneWrite(s, ApiDelete(s, m, bump).s, m)
  {
    if Exists(s, m) {
      var cur := Live(s, m);
      CommitIsOneWrite(s, m, if cur.finalizers == [] then cur.(gone := true) else if cur.deleting then cur
        else cur.(deleting := true, generation := if bump then cur.generation + 1 else cur.generation));
    }
  }

  lemma CreateIsOneWrite(s: State, m: string, raw: Json, stamp: Stamp)
    requires SeenOk(s) && !Exists(s, m)
    ensures OneWrite(s, ApiApply(s, m, raw, stamp), m)
  {
    var s1, s' := s.(nextUid := s.nextUid + 1), ApiApply(s, m, raw, stamp);
    forall n ensures Seen(s1, n) <= |Log(s1, n)| { assert Seen(s, n) <= |Log(s, n)|; }
    CommitIsOneWrite(s1, m, CR(s.nextUid, 0, 1, raw, [], false, stamp, NO_STATUS, false));
    forall n ensures Undisturbed(s, s', n) { assert Undisturbed(s1, s', n); }
    forall n | n != m ensures Log(s', n) == Log(s, n) { assert Log(s1, n) == Log(s, n); }
  }

  lemma ApplyIsOneWrite(s: State, m: string, raw: Json, stamp: Stamp)
    requires SeenOk(s)
    ensures OneWrite(s, ApiApply(s, m, raw, stamp), m)
  {
    if Exists(s, m) {
      var cur := Live(s, m);
      CommitIsOneWrite(s, m, cur.(raw := raw, stamp := stamp,
        generation := if raw == cur.raw then cur.generation else cur.generation + 1));
    } else {
      CreateIsOneWrite(s, m, raw, stamp);
    }
  }

  lemma EditIsOneWrite(s: State, m: string, fs: seq<string>, stamp: Stamp)
    requires SeenOk(s)
    ensures OneWrite(s, ApiEdit(s, m, fs, stamp), m)
  {
    if ApiEdit(s, m, fs, stamp) != s {
      CommitIsOneWrite(s, m, Live(s, m).(finalizers := fs, stamp := stamp, gone := Live(s, m).deleting && fs == []));
    }
  }

  lemma WriteWakes(c: Compiler, s: State, s': State, m: string)
    requires SeenOk(s) && Wake(c, s) && OneWrite(s, s', m)
    ensures Wake(c, s')
  {
    forall n ensures Awake(c, s', n) {
      assert Awake(c, s, n) && Undisturbed(s, s', n);
      UndisturbedAwake(c, s, s', n);
    }
    if !s.worker.Idle? { assert Undisturbed(s, s', s.worker.name); }
  }

  lemma DeliveryWakes(c: Compiler, s: State, e: Event)
    requires Wake(c, s) && (e.Tick? || e.Deliver? || e.Resync? || e.Crash?)
    ensures Wake(c, Step(c, s, e))
  {
    var s' := Step(c, s, e);
    forall n ensures Awake(c, s', n) { assert Awake(c, s, n); }
  }

  // ----- the worker ----------------------------------------------------------------

  lemma StartOwnName(c: Compiler, s: State, n: string)
    requires NameOk(c, s, n) && s.worker.Idle? && Current(s, n)
    ensures var s' := Begin(s, n); OnName(s', n) || AtRest(c, Live(s', n))
    ensures Begin(s, n).log == s.log
  {
    assert Cached(s, n) == Some(Live(s, n));
  }

  lemma StartWakes(c: Compiler, s: State, n: string)
    requires Inv(c, s) && Wake(c, s)
    ensures Wake(c, Step(c, s, Start(n)))
  {
    var s' := Step(c, s, Start(n));
    assert NameOk(c, s, n);
    assert s'.log == s.log && s'.seen == s.seen;
    if s' != s {
      if Current(s, n) { StartOwnName(c, s.(queue := s.queue - {n}), n); }
      forall m ensures Awake(c, s', m) {
        assert Awake(c, s, m);
        assert Log(s', m) == Log(s, m) && Seen(s', m) == Seen(s, m);
        assert m != n ==> (m in s.queue <==> m in s'.queue);
      }
    }
  }

  /** A call of the worker touches no log but that of its own name. */
  lemma CallIsOneWrite(c: Compiler, s: State, bump: bool)
    requires SeenOk(s) && !s.worker.Idle?
    ensures OneWrite(s, Call(c, s, bump).s, s.worker.name)
  {
    match s.worker
    case DropFinalizer(m, obj) => UpdateIsOneWrite(s, m, obj.(finalizers := Without(obj.finalizers, FINALIZER)));
    case AddFinalizer(m, obj) => UpdateIsOneWrite(s, m, WithFinalizer(obj));
    case Reap(m, _) => DeleteIsOneWrite(s, m, bump);
    case MarkGenerating(m, obj) => StatusIsOneWrite(s, m, obj.(status := GENERATING));
    case MarkReady(m, obj, _) => StatusIsOneWrite(s, m, obj.(status := ReadyStatus(m, obj.generation)));
    case MarkFailed(m, obj, _) => StatusIsOneWrite(s, m, obj.(status := FAILED));
    case RemoveArtifact(_, _) => LocalIsOneWrite(c, s, bump);
    case Render(_, _) => LocalIsOneWrite(c, s, bump);
    case Upload(_, _, _) => LocalIsOneWrite(c, s, bump);
  }

  lemma LocalIsOneWrite(c: Compiler, s: State, bump: bool)
    requires SeenOk(s) && (s.worker.RemoveArtifact? || s.worker.Render? || s.worker.Upload?)
    ensures OneWrite(s, Call(c, s, bump).s, s.worker.name)
  {
    forall n ensures Undisturbed(s, Call(c, s, bump).s, n) { assert Seen(s, n) <= |Log(s, n)|; }
  }

  /** When a pass over n ends without an error, n is settled or more events are on their way. */
  lemma PassLeavesNothing(c: Compiler, s: State, bump: bool)
    requires Inv(c, s) && Ranks(s) && BusyOk(c, s)
    requires (s.worker.DropFinalizer? || s.worker.Reap? || s.worker.MarkReady?) && s.worker.name !in s.queue
    ensures var r := Call(c, s, bump);
            r.obj.Some? ==> !Current(r.s, s.worker.name)
  {
    var n, obj := s.worker.name, s.worker.obj;
    var r := Call(c, s, bump);
    assert NameOk(c, s, n);
    if r.obj.Some? && !s.worker.Reap? { HeldIsLive(c, s, n, obj); }
    if s.worker.Reap? && Current(s, n) { SupersededIsNewer(c, s, n, obj); }
  }

  /** A refused spec whose failure was not written: the worker held the live version, still Generating. */
  lemma RejectedLeavesGenerating(c: Compiler, s: State, o: Outcome, bump: bool)
    requires Inv(c, s) && Ranks(s) && SeenOk(s) && BusyOk(c, s) && s.worker.MarkFailed? && !s.worker.requeue
    requires s.worker.name !in s.queue
    ensures var r, n := Observe(s, Call(c, s, bump), o), s.worker.name;
            Current(r.s, n) ==>
              !Live(r.s, n).deleting && !c.accept(Live(r.s, n).raw) && Live(r.s, n).status == GENERATING
  {
    var n, obj := s.worker.name, s.worker.obj;
    assert NameOk(c, s, n);
    var r := Call(c, s, bump);
    if Writable(s, n, obj) {
      HeldIsLive(c, s, n, obj);
      assert !Current(r.s, n) by { assert |Log(r.s, n)| == |Log(s, n)| + 1; }
    } else {
      assert r.s == s;
    }
    if Current(s, n) { SupersededIsNewer(c, s, n, obj); }
  }

  /** The live version is the held one, or came after it. */
  lemma SupersededIsNewer(c: Compiler, s: State, n: string, obj: CR)
    requires LogOk(s, n) && obj in Log(s, n)
    ensures Live(s, n) == obj || obj.rv < Live(s, n).rv
  {
    var i :| 0 <= i < |Log(s, n)| && Log(s, n)[i] == obj;
    assert i < |Log(s, n)| - 1 ==> Later(Log(s, n)[i], Live(s, n));
  }

  /** After its call, the worker stays on n, or queues n again, or leaves it settled. */
  lemma HowPassesEnd(c: Compiler, s: State, w: Worker, reply: Option<CR>)
    requires !w.Idle? && !OnName(Continue(c, s, w, reply), w.name) && w.name !in Continue(c, s, w, reply).queue
    ensures || ((w.DropFinalizer? || w.Reap? || w.MarkReady?) && reply.Some?)
            || (w.MarkFailed? && !w.requeue)
            || (w.AddFinalizer? && reply.Some? && ReadyCurrent(reply.value))
  {
  }

  lemma FinalizedIsAtRest(c: Compiler, s: State, bump: bool)
    requires Inv(c, s) && Ranks(s) && s.worker.AddFinalizer?
    ensures var r := Call(c, s, bump);
            r.obj.Some? ==>
              && r.obj == Some(Live(r.s, s.worker.name)) && !Live(r.s, s.worker.name).deleting
              && (Current(r.s, s.worker.name) && ReadyCurrent(r.obj.value) ==> AtRest(c, r.obj.value))
  {
    assert NameOk(c, s, s.worker.name);
    if Writable(s, s.worker.name, s.worker.obj) { HeldIsLive(c, s, s.worker.name, s.worker.obj); }
    CallKeeps(c, s, bump);
    assert NameOk(c, Call(c, s, bump).s, s.worker.name);
  }

  /** If the call ends the pass without queueing its name, nothing is left to do for it. */
  lemma NothingLeft(c: Compiler, s: State, o: Outcome, bump: bool)
    requires Inv(c, s) && Ranks(s) && SeenOk(s) && BusyOk(c, s) && !s.worker.Idle?
    requires var s', n := Proceed(c, s, o, bump), s.worker.name; !OnName(s', n) && n !in s'.queue
    ensures var r, n := Observe(s, Call(c, s, bump), o), s.worker.name;
            Current(r.s, n) ==> AtRest(c, Live(r.s, n))
  {
    var r, w := Observe(s, Call(c, s, bump), o), s.worker;
    HowPassesEnd(c, r.s, w, r.obj);
    if w.MarkFailed? {
      CallIsOneWrite(c, s, bump);
      assert r.s.queue <= Proceed(c, s, o, bump).queue;
      RejectedLeavesGenerating(c, s, o, bump);
    } else if w.AddFinalizer? {
      FinalizedIsAtRest(c, s, bump);
    } else {
      PassLeavesNothing(c, s, bump);
    }
  }

  lemma SameLogAwake(c: Compiler, s: State, s': State, n: string)
    requires s'.log == s.log && s'.seen == s.seen
    requires Current(s, n) ==> AtRest(c, Live(s, n))
    ensures Awake(c, s', n)
  {
    assert Log(s', n) == Log(s, n) && Seen(s', n) == Seen(s, n);
  }

  /** The worker's own name after its call returned. */
  lemma OwnNameWakes(c: Compiler, s: State, o: Outcome, bump: bool)
    requires Inv(c, s) && Ranks(s) && SeenOk(s) && BusyOk(c, s) && !s.worker.Idle?
    ensures Awake(c, Proceed(c, s, o, bump), s.worker.name)
  {
    var s', n := Proceed(c, s, o, bump), s.worker.name;
    if !OnName(s', n) && n !in s'.queue {
      NothingLeft(c, s, o, bump);
      SameLogAwake(c, Observe(s, Call(c, s, bump), o).s, s', n);
    }
  }

  lemma ContinueKeepsName(c: Compiler, s: State, w: Worker, reply: Option<CR>, n: string)
    ensures var s' := Continue(c, s, w, reply);
            Log(s', n) == Log(s, n) && Seen(s', n) == Seen(s, n) && s.queue <= s'.queue
  {
  }

  /** The worker's call leaves every other name as it was. */
  lemma WorkElsewhere(c: Compiler, s: State, o: Outcome, bump: bool, n: string)
    requires SeenOk(s) && !s.worker.Idle? && n != s.worker.name
    ensures var s' := Proceed(c, s, o, bump);
            Log(s', n) == Log(s, n) && Seen(s', n) == Seen(s, n) && (n in s.queue ==> n in s'.queue)
  {
    var r := Observe(s, Call(c, s, bump), o);
    CallIsOneWrite(c, s, bump);
    assert Undisturbed(s, Call(c, s, bump).s, n);
    ContinueKeepsName(c, r.s, s.worker, r.obj, n);
  }

  lemma WorkWakes(c: Compiler, s: State, o: Outcome, bump: bool)
    requires Inv(c, s) && Ranks(s) && Wake(c, s) && !s.worker.Idle?
    ensures Wake(c, Proceed(c, s, o, bump))
  {
    forall n ensures Seen(s, n) <= |Log(s, n)| { assert NameOk(c, s, n); }
    var s', w := Proceed(c, s, o, bump), s.worker.name;
    forall n ensures Awake(c, s', n) {
      if n == w {
        OwnNameWakes(c, s, o, bump);
      } else {
        WorkElsewhere(c, s, o, bump, n);
        assert Awake(c, s, n);
      }
    }
    BusyGoesOn(c, s, o, bump);
  }

  lemma WorkerGoesOn(c: Compiler, s: State, w: Worker, reply: Option<CR>)
    requires !w.Idle? && !Continue(c, s, w, reply).worker.Idle?
    ensures var w' := Continue(c, s, w, reply).worker;
            && w'.name == w.name
            && (w'.obj == w.obj || ((w.AddFinalizer? || w.MarkGenerating?) && reply == Some(w'.obj)))
            && (w'.MarkFailed? && !w'.requeue ==> !c.accept(w'.obj.raw) && w.MarkGenerating? && reply == Some(w'.obj))
  {
  }

  lemma RejectingGoesOn(c: Compiler, s: State, o: Outcome, bump: bool)
    requires Inv(c, s) && !s.worker.Idle?
    ensures Rejecting(c, Proceed(c, s, o, bump).worker)
  {
    var r := Observe(s, Call(c, s, bump), o);
    if !Continue(c, r.s, s.worker, r.obj).worker.Idle? {
      WorkerGoesOn(c, r.s, s.worker, r.obj);
      assert NameOk(c, s, s.worker.name);
      if s.worker.MarkGenerating? && r.obj.Some? { HeldIsLive(c, s, s.worker.name, s.worker.obj); }
    }
  }

  lemma BusyGoesOn(c: Compiler, s: State, o: Outcome, bump: bool)
    requires Inv(c, s) && Ranks(s) && SeenOk(s) && BusyOk(c, s) && !s.worker.Idle?
    ensures BusyOk(c, Proceed(c, s, o, bump))
  {
    RejectingGoesOn(c, s, o, bump);
    var r := Observe(s, Call(c, s, bump), o);
    var s', n := Proceed(c, s, o, bump), s.worker.name;
    if !s'.worker.Idle? {
      WorkerGoesOn(c, r.s, s.worker, r.obj);
      assert Log(s', n) == Log(r.s, n) && Seen(s', n) == Seen(r.s, n);
      if s'.worker.obj == s.worker.obj {
        WorkKeepsSeen(c, s, o, bump);
      } else {
        assert s'.worker.obj == Live(r.s, n);
        ObservedKeeps(c, s, o, bump);
        if 0 < Seen(r.s, n) <= |Log(r.s, n)| { SeenIsNotLater(c, r.s, n); }
      }
      assert Ahead(s');
    }
  }

  /** What the cache shows of the worker's name does not change while it works. */
  lemma WorkKeepsSeen(c: Compiler, s: State, o: Outcome, bump: bool)
    requires SeenOk(s) && !s.worker.Idle?
    ensures var s', n := Proceed(c, s, o, bump), s.worker.name;
            && Seen(s', n) == Seen(s, n) <= |Log(s, n)| && Log(s, n) <= Log(s', n)
            && (n in s.queue ==> n in s'.queue)
  {
    var n, r := s.worker.name, Observe(s, Call(c, s, bump), o);
    CallIsOneWrite(c, s, bump);
    assert Undisturbed(s, Call(c, s, bump).s, n);
    assert s.queue <= r.s.queue && Log(s, n) <= Log(r.s, n);
    ContinueKeepsName(c, r.s, s.worker, r.obj, n);
  }

  lemma ObservedKeeps(c: Compiler, s: State, o: Outcome, bump: bool)
    requires Inv(c, s) && Ranks(s) && !s.worker.Idle?
    ensures NamesOk(c, Observe(s, Call(c, s, bump), o).s)
  {
    CallKeeps(c, s, bump);
  }

  lemma SeenIsNotLater(c: Compiler, s: State, n: string)
    requires NamesOk(c, s) && 0 < Seen(s, n) <= |Log(s, n)|
    ensures Log(s, n)[Seen(s, n) - 1].rv <= Live(s, n).rv
  {
    assert NameOk(c, s, n);
    assert Seen(s, n) < |Log(s, n)| ==> Later(Log(s, n)[Seen(s, n) - 1], Live(s, n));
  }

  // ----- whole runs ----------------------------------------------------------------

  lemma StepWakes(c: Compiler, s: State, e: Event)
    requires Inv(c, s) && Ranks(s) && Wake(c, s)
    ensures Wake(c, Step(c, s, e))
  {
    forall n ensures Seen(s, n) <= |Log(s, n)| { assert NameOk(c, s, n); }
    match e
    case Apply(n, raw, stamp) =>
      ApplyIsOneWrite(s, n, raw, stamp);
      WriteWakes(c, s, ApiApply(s, n, raw, stamp), n);
    case Edit(n, fs, stamp) =>
      EditIsOneWrite(s, n, fs, stamp);
      WriteWakes(c, s, ApiEdit(s, n, fs, stamp), n);
    case UserDelete(n, bump) =>
      DeleteIsOneWrite(s, n, bump);
      WriteWakes(c, s, ApiDelete(s, n, bump).s, n);
    case Start(n) => StartWakes(c, s, n);
    case Work(o, bump) => if !s.worker.Idle? { WorkWakes(c, s, o, bump); }
    case _ => DeliveryWakes(c, s, e);
  }

  lemma {:induction false} RunWakes(c: Compiler, es: seq<Event>)
    ensures Wake(c, Run(c, Init(), es))
    decreases |es|
  {
    if es == [] {
      assert forall n :: Awake(c, Init(), n);
    } else {
      RunWakes(c, es[..|es| - 1]);
      ReachableInv(c, es[..|es| - 1]);
      StepWakes(c, Run(c, Init(), es[..|es| - 1]), es[|es| - 1]);
    }
  }

  /**
    In every run, crashes and lost replies included: if the cache has delivered
    every version of a chart, then its key is queued, or the worker is busy with
    it, or it is at rest: without the cleanup finalizer when it is being deleted,
    else Ready for its generation when its spec is acceptable, left at Generating
    when it is refused.
  */
  lemma NoLostWakeup(c: Compiler, es: seq<Event>, n: string)
    ensures var s := Run(c, Init(), es);
            Exists(s, n) && Seen(s, n) == |Log(s, n)| && n !in s.queue && !OnName(s, n) ==>
              if Live(s, n).deleting then FINALIZER !in Live(s, n).finalizers
              else if c.accept(Live(s, n).raw) then ReadyCurrent(Live(s, n))
              else Live(s, n).status == GENERATING
  {
    RunWakes(c, es);
    assert Awake(c, Run(c, Init(), es), n);
  }
}
