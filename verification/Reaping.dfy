/**
  Whole-run consequences of the protocol that look at more than one moment:
  which charts the operator may reap, and what a download that follows the
  freshness gate can return.
*/
module Reaping {
  import opened Prelude
  import opened Cluster
  import opened Safety

  /** e puts a parsable expires-at on n. */
  predicate Stamps(e: Event, n: string) {
    (e.Apply? || e.Edit?) && e.name == n && e.stamp.At?
  }

  predicate Unstamped(s: State, n: string) {
    forall v :: v in Log(s, n) ==> !v.stamp.At?
  }

  lemma UpdateUnstamped(s: State, m: string, obj: CR, n: string)
    requires Unstamped(s, n) && (m == n ==> !obj.stamp.At?)
    ensures Unstamped(ApiUpdate(s, m, obj).s, n)
  {
  }

  lemma StatusUnstamped(s: State, m: string, obj: CR, n: string)
    requires Unstamped(s, n)
    ensures Unstamped(ApiUpdateStatus(s, m, obj).s, n)
  {
  }

  lemma DeleteUnstamped(s: State, m: string, bump: bool, n: string)
    requires Unstamped(s, n)
    ensures Unstamped(ApiDelete(s, m, bump).s, n)
  {
  }

  lemma WorkUnstamped(c: Compiler, s: State, o: Outcome, bump: bool, n: string)
    requires Inv(c, s) && Unstamped(s, n)
    ensures Unstamped(Proceed(c, s, o, bump), n)
  {
    match s.worker {
      case DropFinalizer(m, obj) => UpdateUnstamped(s, m, obj.(finalizers := Without(obj.finalizers, FINALIZER)), n);
      case AddFinalizer(m, obj) => UpdateUnstamped(s, m, WithFinalizer(obj), n);
      case Reap(m, obj) => DeleteUnstamped(s, m, bump, n);
      case MarkGenerating(m, obj) => StatusUnstamped(s, m, obj.(status := GENERATING), n);
      case MarkReady(m, obj, _) => StatusUnstamped(s, m, obj.(status := ReadyStatus(m, obj.generation)), n);
      case MarkFailed(m, obj, _) => StatusUnstamped(s, m, obj.(status := FAILED), n);
      case _ =>
    }
    assert Log(Proceed(c, s, o, bump), n) in {Log(s, n), Log(Call(c, s, bump).s, n)};
  }

  lemma ApplyUnstamped(s: State, m: string, raw: Json, stamp: Stamp, n: string)
    requires Unstamped(s, n) && (m == n ==> !stamp.At?)
    ensures Unstamped(ApiApply(s, m, raw, stamp), n)
  {
  }

  lemma EditUnstamped(s: State, m: string, fs: seq<string>, stamp: Stamp, n: string)
    requires Unstamped(s, n) && (m == n ==> !stamp.At?)
    ensures Unstamped(ApiEdit(s, m, fs, stamp), n)
  {
  }

  lemma StepUnstamped(c: Compiler, s: State, e: Event, n: string)
    requires Inv(c, s) && Unstamped(s, n) && !Stamps(e, n)
    ensures Unstamped(Step(c, s, e), n)
  {
    match e
    case Apply(m, raw, stamp) => ApplyUnstamped(s, m, raw, stamp, n);
    case Edit(m, fs, stamp) => EditUnstamped(s, m, fs, stamp, n);
    case UserDelete(m, bump) => DeleteUnstamped(s, m, bump, n);
    case Work(o, bump) => WorkUnstamped(c, s, o, bump, n);
    case _ => assert Log(Step(c, s, e), n) == Log(s, n);
  }

  lemma {:induction false} RunUnstamped(c: Compiler, es: seq<Event>, n: string)
    requires forall e :: e in es ==> !Stamps(e, n)
    ensures Unstamped(Run(c, Init(), es), n)
    decreases |es|
  {
    if es != [] {
      var s, e := Run(c, Init(), es[..|es| - 1]), es[|es| - 1];
      assert e in es;
      RunUnstamped(c, es[..|es| - 1], n);
      ReachableInv(c, es[..|es| - 1]);
      StepUnstamped(c, s, e, n);
    }
  }

  /** The operator's next call is a Delete of n. */
  predicate AboutToReap(s: State, n: string) {
    s.worker.Reap? && s.worker.name == n
  }

  /** The operator reaps only on a cached version that carried a stamp already in the past. */
  lemma ReapsOnlyExpiredSnapshots(c: Compiler, es: seq<Event>, n: string)
    ensures var s := Run(c, Init(), es);
            AboutToReap(s, n) ==> s.worker.obj in Log(s, n) && s.worker.obj.stamp.At? && s.now > s.worker.obj.stamp.t
  {
    ReachableInv(c, es);
  }

  /** A chart nobody ever stamps, or stamps only with unparsable text, is never reaped. */
  lemma NeverStampedNeverReaped(c: Compiler, es: seq<Event>, n: string)
    requires forall e :: e in es ==> !Stamps(e, n)
    ensures !AboutToReap(Run(c, Init(), es), n)
  {
    RunUnstamped(c, es, n);
    ReapsOnlyExpiredSnapshots(c, es, n);
  }

  /** Create n already stamped, let the cache see it, let time pass, start a pass. */
  lemma RaceSetup(c: Compiler, n: string) returns (es: seq<Event>)
    ensures es == [Apply(n, JNull, At(0)), Tick(1), Deliver(n, 1), Start(n), Work(Done, false)]
    ensures var s := Run(c, Init(), es);
            AboutToReap(s, n) && Exists(s, n) && s.now == 1 && HasFinalizer(Live(s, n)) && !Live(s, n).deleting
  {
    var e0, e1, e2, e3, e4 := Apply(n, JNull, At(0)), Tick(1), Deliver(n, 1), Start(n), Work(Done, false);
    var s1 := Step(c, Init(), e0);
    RunSnoc(c, Init(), [], e0);
    RunSnoc(c, Init(), [] + [e0], e1);
    RunSnoc(c, Init(), [] + [e0] + [e1], e2);
    RunSnoc(c, Init(), [] + [e0] + [e1] + [e2], e3);
    RunSnoc(c, Init(), [] + [e0] + [e1] + [e2] + [e3], e4);
    es := [] + [e0] + [e1] + [e2] + [e3] + [e4];
    FirstPass(c, n, s1);
  }

  lemma FirstPass(c: Compiler, n: string, s1: State)
    requires s1 == ApiApply(Init(), n, JNull, At(0))
    ensures var s := Proceed(c, Step(c, Step(c, Step(c, s1, Tick(1)), Deliver(n, 1)), Start(n)), Done, false);
            AboutToReap(s, n) && Exists(s, n) && s.now == 1 && HasFinalizer(Live(s, n)) && !Live(s, n).deleting
  {
    assert Log(s1, n) == [CR(1, 1, 1, JNull, [], false, At(0), NO_STATUS, false)];
    var s3 := Step(c, Step(c, s1, Tick(1)), Deliver(n, 1));
    assert Cached(s3, n) == Some(Log(s1, n)[0]);
    var s4 := Step(c, s3, Start(n));
    assert s4.worker == AddFinalizer(n, Log(s1, n)[0]);
    assert |Log(Proceed(c, s4, Done, false), n)| == 2;
  }

  /** Delete carries no precondition: a chart renewed in between is deleted unexpired. */
  lemma RenewedChartCanBeReaped(c: Compiler, n: string)
    ensures exists es, o, bump ::
              var s := Run(c, Init(), es);
              && AboutToReap(s, n) && Exists(s, n) && !Expired(Live(s, n).stamp, s.now)
              && Live(Step(c, s, Work(o, bump)), n).deleting
  {
    var es := RaceSetup(c, n);
    var s, renew := Run(c, Init(), es), Apply(n, JNull, At(9));
    RunSnoc(c, Init(), es, renew);
    RenewedThenDeleted(c, s, n);
    assert Run(c, Init(), es + [renew]) == Step(c, s, renew);
  }

  lemma RenewedThenDeleted(c: Compiler, s: State, n: string)
    requires AboutToReap(s, n) && Exists(s, n) && s.now == 1 && HasFinalizer(Live(s, n)) && !Live(s, n).deleting
    ensures var s' := Step(c, s, Apply(n, JNull, At(9)));
            && AboutToReap(s', n) && Exists(s', n) && !Expired(Live(s', n).stamp, s'.now)
            && Live(Step(c, s', Work(Done, false)), n).deleting
  {
    var s' := Step(c, s, Apply(n, JNull, At(9)));
    assert Live(s', n).stamp == At(9) && HasFinalizer(Live(s', n));
  }

  // ----- a download some time after the gate ------------------------------------

  /** Everything that is or may soon be stored under n was rendered from version g or a later one. */
  ghost predicate NotOlder(c: Compiler, s: State, n: string, g: CR) {
    && g in Log(s, n)
    && (Stored(s, n) ==>
          exists v :: v in Log(s, n) && g.rv <= v.rv && Want(c, v.raw) == Some(s.store[ArtifactKey(n)]))
    && (Rendering(s, n) ==> g.rv <= s.worker.obj.rv)
  }

  lemma UpdateGrows(s: State, m: string, obj: CR, n: string)
    ensures Log(s, n) <= Log(ApiUpdate(s, m, obj).s, n) && |Log(ApiUpdate(s, m, obj).s, n)| <= |Log(s, n)| + 1
  {
  }

  lemma StatusGrows(s: State, m: string, obj: CR, n: string)
    ensures Log(s, n) <= Log(ApiUpdateStatus(s, m, obj).s, n) && |Log(ApiUpdateStatus(s, m, obj).s, n)| <= |Log(s, n)| + 1
  {
  }

  lemma CallGrows(c: Compiler, s: State, bump: bool, n: string)
    ensures Log(s, n) <= Log(Call(c, s, bump).s, n) && |Log(Call(c, s, bump).s, n)| <= |Log(s, n)| + 1
  {
    match s.worker
    case DropFinalizer(m, obj) => UpdateGrows(s, m, obj.(finalizers := Without(obj.finalizers, FINALIZER)), n);
    case AddFinalizer(m, obj) => UpdateGrows(s, m, WithFinalizer(obj), n);
    case MarkGenerating(m, obj) => StatusGrows(s, m, obj.(status := GENERATING), n);
    case MarkReady(m, obj, _) => StatusGrows(s, m, obj.(status := ReadyStatus(m, obj.generation)), n);
    case MarkFailed(m, obj, _) => StatusGrows(s, m, obj.(status := FAILED), n);
    case Reap(m, _) =>
      var s' := ApiDelete(s, m, bump).s;
      assert Log(s, n) <= Log(s', n) && |Log(s', n)| <= |Log(s, n)| + 1;
    case _ =>
  }

  lemma OutsideGrows(c: Compiler, s: State, e: Event, n: string)
    requires !e.Work?
    ensures Log(s, n) <= Log(Step(c, s, e), n) && |Log(Step(c, s, e), n)| <= |Log(s, n)| + 1
  {
  }

  lemma LogGrows(c: Compiler, s: State, e: Event, n: string)
    ensures Log(s, n) <= Log(Step(c, s, e), n) && |Log(Step(c, s, e), n)| <= |Log(s, n)| + 1
  {
    if e.Work? {
      CallGrows(c, s, e.bump, n);
      assert Log(Step(c, s, e), n) in {Log(s, n), Log(Call(c, s, e.bump).s, n)};
    } else {
      OutsideGrows(c, s, e, n);
    }
  }

  lemma LiveIsLatest(c: Compiler, s: State, n: string, g: CR)
    requires Inv(c, s) && g in Log(s, n)
    ensures g.rv <= Live(s, n).rv
  {
    assert NameOk(c, s, n);
    var i :| 0 <= i < |Log(s, n)| && Log(s, n)[i] == g;
    assert i < |Log(s, n)| - 1 ==> Later(Log(s, n)[i], Live(s, n));
  }

  predicate Rendering(s: State, n: string) {
    (s.worker.Render? || s.worker.Upload? || s.worker.MarkReady?) && s.worker.name == n
  }

  /** Only an upload of n changes what is stored under n, apart from removing it. */
  lemma StoreMoves(c: Compiler, s: State, e: Event, n: string)
    ensures var s' := Step(c, s, e);
            Stored(s', n) ==>
              || (Stored(s, n) && s'.store[ArtifactKey(n)] == s.store[ArtifactKey(n)])
              || (s.worker.Upload? && s.worker.name == n && s'.store[ArtifactKey(n)] == s.worker.zip)
  {
    if e.Work? {
      CallStore(c, s, e.bump);
      assert Step(c, s, e).store in {s.store, Call(c, s, e.bump).s.store};
      if s.worker.Upload? { KeysDiffer(s.worker.name, n); }
    } else {
      OnlyWorkerStores(c, s, e);
    }
  }

  lemma ContinueRenders(c: Compiler, s: State, w: Worker, reply: Option<CR>, n: string)
    ensures var s' := Continue(c, s, w, reply);
            Rendering(s', n) ==>
              || ((w.Render? || w.Upload?) && w.name == n && s'.worker.obj == w.obj)
              || (w.MarkGenerating? && w.name == n && reply == Some(s'.worker.obj))
              || (w.Idle? && s' == s)
  {
  }

  /** A worker rendering n holds the version it held before, or the live one. */
  lemma RenderingMoves(c: Compiler, s: State, e: Event, n: string)
    ensures var s' := Step(c, s, e);
            Rendering(s', n) ==>
              || (Rendering(s, n) && s'.worker.obj == s.worker.obj)
              || (Log(s', n) != [] && s'.worker.obj == Live(s', n))
  {
    if e.Work? {
      var r := Observe(s, Call(c, s, e.bump), e.outcome);
      ContinueRenders(c, r.s, s.worker, r.obj, n);
    }
  }

  lemma StepNotOlder(c: Compiler, s: State, e: Event, n: string, g: CR)
    requires Inv(c, s) && Ranks(s) && NotOlder(c, s, n, g)
    ensures NotOlder(c, Step(c, s, e), n, g)
  {
    var s' := Step(c, s, e);
    StepKeeps(c, s, e);
    LogGrows(c, s, e, n);
    StoreMoves(c, s, e, n);
    RenderingMoves(c, s, e, n);
    assert g in Log(s', n);
    LiveIsLatest(c, s', n, g);
    if Stored(s', n) {
      if Stored(s, n) && s'.store[ArtifactKey(n)] == s.store[ArtifactKey(n)] {
        var v :| v in Log(s, n) && g.rv <= v.rv && Want(c, v.raw) == Some(s.store[ArtifactKey(n)]);
        assert v in Log(s', n);
      } else {
        assert s.worker.obj in Log(s', n);
      }
    }
  }

  lemma {:induction false} RunNotOlder(c: Compiler, s: State, es: seq<Event>, n: string, g: CR)
    requires Inv(c, s) && Ranks(s) && NotOlder(c, s, n, g)
    ensures NotOlder(c, Run(c, s, es), n, g)
    decreases |es|
  {
    if es != [] {
      RunNotOlder(c, s, es[..|es| - 1], n, g);
      RunKeeps(c, s, es[..|es| - 1]);
      StepNotOlder(c, Run(c, s, es[..|es| - 1]), es[|es| - 1], n, g);
    }
  }

  /**
    The handler reads the object first and the archive later. Whatever happened
    in between, the archive it then finds was rendered from the version that
    passed the gate or from a later version of that name, never from an older one.
  */
  lemma DownloadNeverOlderThanGate(c: Compiler, es: seq<Event>, between: seq<Event>, n: string)
    ensures var s := Run(c, Init(), es);
            var s' := Run(c, s, between);
            Exists(s, n) && !Live(s, n).deleting && DownloadKey(Live(s, n)).Some? && Stored(s', n) ==>
              exists v :: v in Log(s', n) && Live(s, n).rv <= v.rv && Want(c, v.raw) == Some(s'.store[ArtifactKey(n)])
  {
    ReachableInv(c, es);
    var s := Run(c, Init(), es);
    if Exists(s, n) && !Live(s, n).deleting && DownloadKey(Live(s, n)).Some? {
      NothingStaleIsServed(c, es, n);
      assert NotOlder(c, s, n, Live(s, n));
      RunNotOlder(c, s, between, n, Live(s, n));
    }
  }
}
