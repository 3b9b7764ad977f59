/**
  Whole reconcile passes with working I/O: a pass on the live version of an
  acceptable chart reaches Ready, one on a finished chart writes nothing, and
  one on a superseded version writes nothing either.
*/
module Convergence {
  import opened Prelude
  import opened Cluster
  import opened Safety
  import opened Wakeups

  /** Calls left in the pass if every one of them succeeds. */
  function Rank(w: Worker): nat {
    match w
    case Idle => 0
    case RemoveArtifact(_, _) => 2
    case DropFinalizer(_, _) => 1
    case AddFinalizer(_, _) => 5
    case Reap(_, _) => 1
    case MarkGenerating(_, _) => 4
    case Render(_, _) => 3
    case Upload(_, _, _) => 2
    case MarkReady(_, _, _) => 1
    case MarkFailed(_, _, _) => 1
  }

  lemma PassMakesProgress(c: Compiler, s: State)
    requires !s.worker.Idle?
    ensures Rank(Proceed(c, s, Done, false).worker) < Rank(s.worker)
  {
    var r := Call(c, s, false);
    if s.worker.AddFinalizer? && r.obj.Some? {
      assert Rank(Decide(r.s, s.worker.name, r.obj.value).worker) <= 4;
    }
  }

  /** Run the worker to the end of its pass, every call succeeding at the other side. */
  function Drain(c: Compiler, s: State): State
    decreases Rank(s.worker)
  {
    if s.worker.Idle? then s
    else
      PassMakesProgress(c, s);
      Drain(c, Proceed(c, s, Done, false))
  }

  /** One processNext for n. */
  function Pass(c: Compiler, s: State, n: string): State {
    Drain(c, Step(c, s, Start(n)))
  }

  /** No version of n that the cache shows or will show is past its expiry at t. */
  ghost predicate Unexpired(s: State, n: string, t: int) {
    forall i :: 0 <= i < |Log(s, n)| && Seen(s, n) <= i + 1 ==> !Expired(Log(s, n)[i].stamp, t)
  }

  /** Nothing but the operator will touch n: it exists, compiles, and no version still to be seen expires. */
  ghost predicate Quiet(c: Compiler, s: State, n: string) {
    && Inv(c, s) && Ranks(s) && s.worker.Idle? && Awake(c, s, n)
    && Exists(s, n) && !Live(s, n).deleting
    && Want(c, Live(s, n).raw).Some?
    && Unexpired(s, n, s.now)
  }

  function Lag(s: State, n: string): int {
    |Log(s, n)| - Seen(s, n)
  }

  // ----- a pass on a current snapshot ------------------------------------------------

  /** The chart is done: Ready for its generation with the right artifact. */
  ghost predicate Settled(c: Compiler, s: State, n: string) {
    && Exists(s, n) && ReadyCurrent(Live(s, n))
    && Stored(s, n) && Some(s.store[ArtifactKey(n)]) == Want(c, Live(s, n).raw)
  }

  /** What one pass may leave: the same spec and generation, at most k more versions, none of them expiring. */
  ghost predicate Advanced(s: State, s': State, n: string, k: nat) {
    && Log(s, n) <= Log(s', n) && |Log(s', n)| <= |Log(s, n)| + k && Seen(s', n) == Seen(s, n)
    && Exists(s, n) && Exists(s', n) && Live(s', n).raw == Live(s, n).raw && Live(s', n).uid == Live(s, n).uid
    && !Live(s', n).deleting && s'.now == s.now
    && (forall i :: |Log(s, n)| <= i < |Log(s', n)| ==> Log(s', n)[i].stamp == Live(s, n).stamp)
  }

  /** The worker holds the live version and is about to mark it Generating. */
  ghost predicate Entering(c: Compiler, s: State, n: string) {
    && Inv(c, s) && Ranks(s) && Exists(s, n) && !Live(s, n).deleting
    && Want(c, Live(s, n).raw).Some? && !Expired(Live(s, n).stamp, s.now)
    && s.worker == MarkGenerating(n, Live(s, n))
  }

  lemma StatusWrite(s: State, n: string, st: Status)
    requires Exists(s, n) && Seen(s, n) <= |Log(s, n)|
    ensures var r := ApiUpdateStatus(s, n, Live(s, n).(status := st));
            && r.obj == Some(Live(r.s, n)) && SameVersion(Live(r.s, n), Live(s, n).(status := st))
            && (!Live(s, n).deleting ==> Advanced(s, r.s, n, 1)) && r.s.store == s.store && r.s.queue == s.queue
  {
  }

  lemma GeneratingToReady(c: Compiler, s: State, n: string)
    requires Entering(c, s, n)
    ensures var s' := Drain(c, s);
            && Inv(c, s') && Ranks(s') && s'.worker.Idle? && Settled(c, s', n)
            && Advanced(s, s', n, 2) && s'.queue == s.queue
  {
    var zip := Want(c, Live(s, n).raw).value;
    assert NameOk(c, s, n);
    StatusWrite(s, n, GENERATING);
    ProceedKeeps(c, s, Done, false);
    var s1 := Proceed(c, s, Done, false);
    assert s1.worker == Render(n, Live(s1, n));
    ProceedKeeps(c, s1, Done, false);
    var s2 := Proceed(c, s1, Done, false);
    assert s2 == s1.(worker := Upload(n, Live(s1, n), zip));
    ProceedKeeps(c, s2, Done, false);
    var s3 := Proceed(c, s2, Done, false);
    assert s3 == s2.(worker := MarkReady(n, Live(s1, n), zip), store := s2.store[ArtifactKey(n) := zip]);
    assert Live(s3, n) == Live(s1, n);
    assert Seen(s3, n) <= |Log(s3, n)|;
    StatusWrite(s3, n, ReadyStatus(n, Live(s3, n).generation));
    ProceedKeeps(c, s3, Done, false);
    var s4 := Proceed(c, s3, Done, false);
    assert s4.worker.Idle? && Settled(c, s4, n);
    assert Drain(c, s) == s4 by {
      assert Drain(c, s4) == s4;
      assert Drain(c, s3) == s4;
      assert Drain(c, s2) == s4;
      assert Drain(c, s1) == s4;
    }
  }

  lemma AddFinalizerFirst(c: Compiler, s: State, n: string)
    requires Inv(c, s) && Ranks(s) && Exists(s, n) && !Live(s, n).deleting
    requires Want(c, Live(s, n).raw).Some? && !Expired(Live(s, n).stamp, s.now)
    requires s.worker == AddFinalizer(n, Live(s, n)) && !ReadyCurrent(Live(s, n))
    ensures var s1 := Proceed(c, s, Done, false);
            Entering(c, s1, n) && Advanced(s, s1, n, 1) && s1.queue == s.queue
  {
    assert NameOk(c, s, n);
    ProceedKeeps(c, s, Done, false);
    var r := ApiUpdate(s, n, WithFinalizer(Live(s, n)));
    assert r.obj == Some(Live(r.s, n)) && SameVersion(Live(r.s, n), WithFinalizer(Live(s, n)));
  }

  lemma AdvancedTwice(a: State, b: State, d: State, n: string, j: nat, k: nat)
    requires Advanced(a, b, n, j) && Advanced(b, d, n, k) && Live(b, n).stamp == Live(a, n).stamp
    ensures Advanced(a, d, n, j + k)
  {
    forall i | |Log(a, n)| <= i < |Log(d, n)| ensures Log(d, n)[i].stamp == Live(a, n).stamp {
      if i < |Log(b, n)| { assert Log(d, n)[i] == Log(b, n)[i]; }
    }
  }

  /** One pass that starts from the live version of an unfinished chart reaches Ready. */
  lemma CurrentPass(c: Compiler, s: State, n: string)
    requires Quiet(c, s, n) && n in s.queue && Lag(s, n) == 0 && !ReadyCurrent(Live(s, n))
    ensures var s' := Pass(c, s, n);
            && Inv(c, s') && Ranks(s') && s'.worker.Idle? && Settled(c, s', n)
            && Advanced(s, s', n, 3) && s'.queue == s.queue - {n}
  {
    assert NameOk(c, s, n);
    assert !Expired(Log(s, n)[|Log(s, n)| - 1].stamp, s.now);
    assert Cached(s, n) == Some(Live(s, n));
    StepKeeps(c, s, Start(n));
    var s0 := Step(c, s, Start(n));
    if HasFinalizer(Live(s, n)) {
      GeneratingToReady(c, s0, n);
      assert Advanced(s, Pass(c, s, n), n, 2);
    } else {
      AddFinalizerFirst(c, s0, n);
      var s1 := Proceed(c, s0, Done, false);
      GeneratingToReady(c, s1, n);
      assert Drain(c, s0) == Drain(c, s1);
      assert Live(s1, n).stamp == Live(s0, n).stamp by {
        assert |Log(s1, n)| > |Log(s0, n)| || Log(s1, n) == Log(s0, n);
      }
      AdvancedTwice(s0, s1, Drain(c, s1), n, 1, 2);
    }
  }

  /** A pass over a finished chart writes nothing. */
  lemma SettledPass(c: Compiler, s: State, n: string)
    requires Quiet(c, s, n) && Lag(s, n) == 0 && ReadyCurrent(Live(s, n))
    ensures Pass(c, s, n) == s.(queue := s.queue - {n}) && Settled(c, s, n)
  {
    assert NameOk(c, s, n);
    assert !Expired(Log(s, n)[|Log(s, n)| - 1].stamp, s.now);
    assert VersionOk(s.nextRv, s.nextUid, n, Live(s, n));
    assert Cached(s, n) == Some(Live(s, n));
    assert Touched(s, n) && HasFinalizer(Live(s, n));
    assert s.(queue := s.queue - {n}) == if n in s.queue then s.(queue := s.queue - {n}) else s;
  }

  /** The snapshot of a stale pass: superseded, unexpired, and no longer writable. */
  lemma StaleSnapshot(c: Compiler, s: State, n: string)
    requires Quiet(c, s, n) && 0 < Lag(s, n) && Cached(s, n).Some?
    ensures var obj := Cached(s, n).value;
            !Writable(s, n, obj) && !Expired(obj.stamp, s.now) && (obj.deleting ==> !Touched(s, n))
  {
    assert NameOk(c, s, n);
    var i := Seen(s, n) - 1;
    assert Later(Log(s, n)[i], Live(s, n)) && !Expired(Log(s, n)[i].stamp, s.now);
  }

  lemma StaleDeletion(c: Compiler, s: State, n: string)
    requires Quiet(c, s, n) && 0 < Lag(s, n) && n in s.queue && Cached(s, n).Some?
    requires Cached(s, n).value.deleting && HasFinalizer(Cached(s, n).value)
    ensures Pass(c, s, n).(queue := {}) == s.(queue := {})
    ensures s.queue - {n} <= Pass(c, s, n).queue <= s.queue
  {
    StaleSnapshot(c, s, n);
    var obj, s0 := Cached(s, n).value, Step(c, s, Start(n));
    assert s0 == s.(queue := s.queue - {n}, worker := RemoveArtifact(n, obj));
    var s1 := Proceed(c, s0, Done, false);
    assert s1 == s0.(worker := DropFinalizer(n, obj)) by { assert s1.store == s.store; }
    var s2 := Proceed(c, s1, Done, false);
    assert s2 == Finish(s1, n, true) by { assert Call(c, s1, false) == Reply(s1, None); }
    assert Drain(c, s0) == Drain(c, s1) == Drain(c, s2) == s2;
  }

  /** The first write of a stale pass is refused, and that ends it. */
  lemma StaleWrite(c: Compiler, s: State, n: string, obj: CR)
    requires !Writable(s, n, obj) && (s.worker == AddFinalizer(n, obj) || s.worker == MarkGenerating(n, obj))
    ensures Drain(c, s) == Finish(s, n, true)
  {
    assert Call(c, s, false) == Reply(s, None);
    assert Proceed(c, s, Done, false) == Finish(s, n, true);
    assert Drain(c, Finish(s, n, true)) == Finish(s, n, true);
  }

  lemma StaleUpdate(c: Compiler, s: State, n: string)
    requires Quiet(c, s, n) && 0 < Lag(s, n) && n in s.queue && Cached(s, n).Some?
    requires !Cached(s, n).value.deleting
    ensures Pass(c, s, n).(queue := {}) == s.(queue := {})
    ensures s.queue - {n} <= Pass(c, s, n).queue <= s.queue
  {
    StaleSnapshot(c, s, n);
    var obj, s0 := Cached(s, n).value, Step(c, s, Start(n));
    if s0.worker.Idle? {
      assert s0 == s.(queue := s.queue - {n});
    } else {
      StaleWrite(c, s0, n, obj);
    }
  }

  /** A pass on a version the API server has moved past writes nothing: no status, no finalizer, no artifact. */
  lemma StalePass(c: Compiler, s: State, n: string)
    requires Quiet(c, s, n) && 0 < Lag(s, n)
    ensures Pass(c, s, n).(queue := {}) == s.(queue := {})
    ensures s.queue - {n} <= Pass(c, s, n).queue <= s.queue
  {
    if n in s.queue && Cached(s, n).Some? {
      var obj := Cached(s, n).value;
      if obj.deleting && HasFinalizer(obj) {
        StaleDeletion(c, s, n);
      } else if !obj.deleting {
        StaleUpdate(c, s, n);
      }
    }
  }
}
