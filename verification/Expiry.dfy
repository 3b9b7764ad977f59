/**
  When the unconditional Delete of an expired chart hits one that is not: over
  all runs, exactly when the last expiry written since the snapshot is not past.
*/
module Expiry {
  import opened Prelude
  import opened Cluster
  import opened Safety
  import opened Reaping

  /** e takes effect on n and writes its expiry: an apply, or a metadata edit the API server lets through. */
  predicate Restamps(s: State, e: Event, n: string) {
    || (e.Apply? && e.name == n)
    || (e.Edit? && e.name == n && Exists(s, n) && (HasFinalizer(Live(s, n)) ==> FINALIZER in e.finalizers))
  }

  /** The expiry last written to n in a run from s. */
  function LastStamp(c: Compiler, s: State, es: seq<Event>, n: string): Option<Stamp>
    decreases |es|
  {
    if es == [] then None
    else
      var init, last := es[..|es| - 1], es[|es| - 1];
      if Restamps(Run(c, s, init), last, n) then Some(last.stamp) else LastStamp(c, s, init, n)
  }

  // ----- only restamping changes the expiry -----------------------------------------

  lemma UpdateKeepsStamp(c: Compiler, s: State, m: string, obj: CR, held: CR, n: string)
    requires LogOk(s, m) && held in Log(s, m) && obj.rv == held.rv && obj.stamp == held.stamp && Log(s, n) != []
    ensures var s' := ApiUpdate(s, m, obj).s; Log(s', n) != [] && Live(s', n).stamp == Live(s, n).stamp
  {
    if Writable(s, m, obj) { HeldIsLive(c, s, m, held); }
  }

  lemma StatusKeepsStamp(s: State, m: string, obj: CR, n: string)
    requires Log(s, n) != []
    ensures var s' := ApiUpdateStatus(s, m, obj).s; Log(s', n) != [] && Live(s', n).stamp == Live(s, n).stamp
  {
  }

  lemma DeleteKeepsStamp(s: State, m: string, bump: bool, n: string)
    requires Log(s, n) != []
    ensures var s' := ApiDelete(s, m, bump).s; Log(s', n) != [] && Live(s', n).stamp == Live(s, n).stamp
  {
  }

  lemma HeldByWorker(c: Compiler, s: State)
    requires Inv(c, s) && (s.worker.DropFinalizer? || s.worker.AddFinalizer?)
    ensures LogOk(s, s.worker.name) && s.worker.obj in Log(s, s.worker.name)
  {
    assert NameOk(c, s, s.worker.name);
  }

  lemma CallKeepsStamp(c: Compiler, s: State, bump: bool, n: string)
    requires Inv(c, s) && Log(s, n) != []
    ensures var s' := Call(c, s, bump).s; Log(s', n) != [] && Live(s', n).stamp == Live(s, n).stamp
  {
    if s.worker.DropFinalizer? || s.worker.AddFinalizer? { HeldByWorker(c, s); }
    match s.worker
    case DropFinalizer(m, obj) => UpdateKeepsStamp(c, s, m, obj.(finalizers := Without(obj.finalizers, FINALIZER)), obj, n);
    case AddFinalizer(m, obj) => UpdateKeepsStamp(c, s, m, WithFinalizer(obj), obj, n);
    case Reap(m, _) => DeleteKeepsStamp(s, m, bump, n);
    case MarkGenerating(m, obj) => StatusKeepsStamp(s, m, obj.(status := GENERATING), n);
    case MarkReady(m, obj, _) => StatusKeepsStamp(s, m, obj.(status := ReadyStatus(m, obj.generation)), n);
    case MarkFailed(m, obj, _) => StatusKeepsStamp(s, m, obj.(status := FAILED), n);
    case _ =>
  }

  lemma ApplyStamps(s: State, m: string, raw: Json, stamp: Stamp, n: string)
    requires Log(s, n) != []
    ensures var s' := ApiApply(s, m, raw, stamp);
            Log(s', n) != [] && Live(s', n).stamp == if m == n then stamp else Live(s, n).stamp
  {
  }

  lemma EditStamps(s: State, m: string, fs: seq<string>, stamp: Stamp, n: string)
    requires Log(s, n) != []
    ensures var s' := ApiEdit(s, m, fs, stamp);
            Log(s', n) != [] && Live(s', n).stamp == if Restamps(s, Edit(m, fs, stamp), n) then stamp else Live(s, n).stamp
  {
  }

  /** One event changes the expiry exactly by restamping. */
  lemma StepStamp(c: Compiler, s: State, e: Event, n: string)
    requires Inv(c, s) && Log(s, n) != []
    ensures var s' := Step(c, s, e);
            Log(s', n) != [] && Live(s', n).stamp == if Restamps(s, e, n) then e.stamp else Live(s, n).stamp
  {
    match e
    case Apply(m, raw, stamp) => ApplyStamps(s, m, raw, stamp, n);
    case Edit(m, fs, stamp) => EditStamps(s, m, fs, stamp, n);
    case UserDelete(m, bump) => DeleteKeepsStamp(s, m, bump, n);
    case Work(o, bump) => WorkKeepsStamp(c, s, o, bump, n);
    case _ => assert Log(Step(c, s, e), n) == Log(s, n);
  }

  lemma WorkKeepsStamp(c: Compiler, s: State, o: Outcome, bump: bool, n: string)
    requires Inv(c, s) && Log(s, n) != []
    ensures var s' := Proceed(c, s, o, bump); Log(s', n) != [] && Live(s', n).stamp == Live(s, n).stamp
  {
    CallKeepsStamp(c, s, bump, n);
    OneOfTwoLogs(s, Call(c, s, bump).s, Proceed(c, s, o, bump), n);
  }

  lemma OneOfTwoLogs(s: State, mid: State, s': State, n: string)
    requires s'.log == s.log || s'.log == mid.log
    ensures Log(s', n) == Log(s, n) || Log(s', n) == Log(mid, n)
  {
  }

  /** The live expiry is the one last written. */
  lemma {:induction false} StampIsTheLastWritten(c: Compiler, s: State, es: seq<Event>, n: string)
    requires Inv(c, s) && Ranks(s) && Log(s, n) != []
    ensures var s' := Run(c, s, es);
            && Log(s', n) != []
            && Live(s', n).stamp == match LastStamp(c, s, es, n) case Some(t) => t case None => Live(s, n).stamp
    decreases |es|
  {
    if es != [] {
      var init, last := es[..|es| - 1], es[|es| - 1];
      StampIsTheLastWritten(c, s, init, n);
      RunKeeps(c, s, init);
      StepStamp(c, Run(c, s, init), last, n);
    }
  }

  // ----- every snapshot was live once --------------------------------------------------

  /** v is n's live version after es. */
  predicate LiveAfter(c: Compiler, es: seq<Event>, n: string, v: CR) {
    var s := Run(c, Init(), es);
    Log(s, n) != [] && Live(s, n) == v
  }

  lemma NewestIsLast(a: seq<CR>, b: seq<CR>, v: CR)
    requires a <= b && |b| <= |a| + 1 && v in b && v !in a
    ensures b != [] && b[|b| - 1] == v
  {
    var i :| 0 <= i < |b| && b[i] == v;
    assert forall j :: 0 <= j < |a| ==> a[j] == b[j];
  }

  lemma {:induction false} SnapshotWasLive(c: Compiler, es: seq<Event>, n: string, v: CR) returns (k: nat)
    requires v in Log(Run(c, Init(), es), n)
    ensures k <= |es| && LiveAfter(c, es[..k], n, v)
    decreases |es|
  {
    assert es != [] by { assert Log(Init(), n) == []; }
    var init, last := es[..|es| - 1], es[|es| - 1];
    assert es == init + [last];
    if v in Log(Run(c, Init(), init), n) {
      k := SnapshotWasLive(c, init, n, v);
      assert es[..k] == init[..k];
    } else {
      k := |es|;
      NewVersionIsLive(c, init, last, n, v);
      assert es[..k] == es;
    }
  }

  lemma NewVersionIsLive(c: Compiler, es: seq<Event>, e: Event, n: string, v: CR)
    requires v in Log(Run(c, Init(), es + [e]), n) && v !in Log(Run(c, Init(), es), n)
    ensures LiveAfter(c, es + [e], n, v)
  {
    Grown(c, es, e, n);
    NewestIsLast(Log(Run(c, Init(), es), n), Log(Run(c, Init(), es + [e]), n), v);
  }

  lemma Grown(c: Compiler, es: seq<Event>, e: Event, n: string)
    ensures var a, b := Log(Run(c, Init(), es), n), Log(Run(c, Init(), es + [e]), n); a <= b && |b| <= |a| + 1
  {
    RunSnoc(c, Init(), es, e);
    LogGrows(c, Run(c, Init(), es), e, n);
  }

  // ----- the theorem ---------------------------------------------------------------------

  /**
    The worker is about to delete n on a snapshot that was live after es. What it
    hits is not expired exactly if an expiry was written since, and the last one
    is not past. A re-apply with an old expiry, a status write, a user's delete
    or an edit that was turned away leave it expired.
  */
  lemma ReapHitsUnexpiredIff(c: Compiler, es: seq<Event>, since: seq<Event>, n: string)
    requires var s, s' := Run(c, Init(), es), Run(c, Run(c, Init(), es), since);
             AboutToReap(s', n) && LiveAfter(c, es, n, s'.worker.obj)
    ensures var s, s' := Run(c, Init(), es), Run(c, Run(c, Init(), es), since);
            && Log(s', n) != []
            && (!Expired(Live(s', n).stamp, s'.now) <==>
                  var last := LastStamp(c, s, since, n); last.Some? && !Expired(last.value, s'.now))
  {
    ReachableInv(c, es);
    RunSplit(c, Init(), es, since);
    ReachableInv(c, es + since);
    StampIsTheLastWritten(c, Run(c, Init(), es), since, n);
  }

  /** Whenever the worker is about to delete, there is such a moment. */
  lemma EveryReapHasItsSnapshot(c: Compiler, es: seq<Event>, n: string) returns (k: nat)
    requires AboutToReap(Run(c, Init(), es), n)
    ensures k <= |es| && LiveAfter(c, es[..k], n, Run(c, Init(), es).worker.obj)
    ensures Run(c, Run(c, Init(), es[..k]), es[k..]) == Run(c, Init(), es)
  {
    var obj := ReapedSnapshot(c, es, n);
    k := SnapshotWasLive(c, es, n, obj);
    RunFrom(c, es, k);
  }

  lemma ReapedSnapshot(c: Compiler, es: seq<Event>, n: string) returns (obj: CR)
    requires AboutToReap(Run(c, Init(), es), n)
    ensures obj == Run(c, Init(), es).worker.obj && obj in Log(Run(c, Init(), es), n)
  {
    ReapsOnlyExpiredSnapshots(c, es, n);
    obj := Run(c, Init(), es).worker.obj;
  }

  lemma RunFrom(c: Compiler, es: seq<Event>, k: nat)
    requires k <= |es|
    ensures Run(c, Run(c, Init(), es[..k]), es[k..]) == Run(c, Init(), es)
  {
    assert es[..k] + es[k..] == es;
    RunSplit(c, Init(), es[..k], es[k..]);
  }
}
