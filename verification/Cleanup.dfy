/**
  How a chart ends: an expired one is deleted whatever its status, and a deleted
  one loses its archive and then its finalizer, pass by pass until that is done.
*/
module Cleanup {
  import opened Prelude
  import opened Cluster
  import opened Safety
  import opened Reaping
  import opened Convergence

  /** The cache is current for n, its key is queued, and the worker is free. */
  ghost predicate Due(c: Compiler, s: State, n: string) {
    Inv(c, s) && s.worker.Idle? && n in s.queue && Exists(s, n) && Lag(s, n) == 0
  }

  /** Nothing of n is left for the operator to clean up. */
  predicate Released(s: State, n: string) {
    !Stored(s, n) && (Exists(s, n) ==> FINALIZER !in Live(s, n).finalizers)
  }

  lemma RunTwo(c: Compiler, s: State, a: Event, b: Event)
    ensures Run(c, s, [a, b]) == Step(c, Step(c, s, a), b)
  {
    RunSnoc(c, s, [], a);
    RunSnoc(c, s, [a], b);
    assert [] + [a] == [a] && [a] + [b] == [a, b];
  }

  lemma RunThree(c: Compiler, s: State, a: Event, b: Event, e: Event)
    ensures Run(c, s, [a, b, e]) == Step(c, Step(c, Step(c, s, a), b), e)
  {
    RunTwo(c, s, a, b);
    RunSnoc(c, s, [a, b], e);
    assert [a, b] + [e] == [a, b, e];
  }

  // ----- deletion -----------------------------------------------------------------------

  /**
    A pass over a deleted chart that still carries the finalizer: the archive goes
    first, unless that call is refused; the finalizer goes exactly if the archive
    was reported gone and the update is not refused. If either call fails, or seems
    to, the key is queued again.
  */
  lemma DeletedIsCleanedUp(c: Compiler, s: State, n: string, o1: Outcome, b1: bool, o2: Outcome, b2: bool)
    requires Due(c, s, n) && Live(s, n).deleting && FINALIZER in Live(s, n).finalizers
    ensures var s' := Run(c, s, [Start(n), Work(o1, b1), Work(o2, b2)]);
            && s'.worker.Idle?
            && (o1 != Refused ==> !Stored(s', n))
            && (Released(s', n) <==> o1 == Done && o2 != Refused)
            && (o1 != Done || o2 != Done ==> n in s'.queue)
            && (Released(s', n) && Live(s, n).finalizers == [FINALIZER] ==> !Exists(s', n))
  {
    RunThree(c, s, Start(n), Work(o1, b1), Work(o2, b2));
    assert NameOk(c, s, n);
    var obj := Live(s, n);
    assert Cached(s, n) == Some(obj);
    var s1 := Step(c, s, Start(n));
    assert s1 == s.(queue := s.queue - {n}, worker := RemoveArtifact(n, obj));
    var s2 := Step(c, s1, Work(o1, b1));
    if o1 == Done {
      assert s2 == s1.(store := s.store - {ArtifactKey(n)}, worker := DropFinalizer(n, obj));
      FinalizerGoes(c, s2, n, o2, b2);
    } else {
      assert s2.worker.Idle? && s2.log == s.log;
      assert Step(c, s2, Work(o2, b2)) == s2;
    }
  }

  lemma FinalizerGoes(c: Compiler, s: State, n: string, o: Outcome, bump: bool)
    requires Exists(s, n) && HasFinalizer(Live(s, n)) && Live(s, n).deleting && !Stored(s, n)
    requires s.worker == DropFinalizer(n, Live(s, n))
    ensures var s' := Step(c, s, Work(o, bump));
            && s'.worker.Idle? && !Stored(s', n)
            && (Released(s', n) <==> o != Refused) && (o != Done ==> n in s'.queue)
            && (o != Refused && Live(s, n).finalizers == [FINALIZER] ==> !Exists(s', n))
  {
    var kept := Without(Live(s, n).finalizers, FINALIZER);
    if kept != [] { assert kept[0] in kept; }
    var r := ApiUpdate(s, n, Live(s, n).(finalizers := kept));
    assert |Log(r.s, n)| == |Log(s, n)| + 1 && Live(r.s, n).finalizers == kept;
  }

  // ----- expiry ---------------------------------------------------------------------------

  lemma ReapDeletes(c: Compiler, s: State, n: string, o: Outcome, bump: bool)
    requires AboutToReap(s, n) && Exists(s, n) && !Live(s, n).deleting && HasFinalizer(Live(s, n))
    ensures var s' := Step(c, s, Work(o, bump));
            && s'.worker.Idle? && Exists(s', n) && Live(s', n).finalizers == Live(s, n).finalizers
            && (Live(s', n).deleting <==> o != Refused) && (o != Done ==> n in s'.queue)
            && |Log(s', n)| == |Log(s, n)| + (if o == Refused then 0 else 1) && s'.seen == s.seen
  {
    assert ApiDelete(s, n, bump).obj.Some?;
  }

  /**
    The operator sets out to delete a chart exactly if its stamp is past, whatever
    its status; the chart is then being deleted unless the call is refused, and the
    key is queued again if the call fails or seems to.
  */
  lemma ExpiredIsReaped(c: Compiler, s: State, n: string, o: Outcome, bump: bool)
    requires Due(c, s, n) && !Live(s, n).deleting && FINALIZER in Live(s, n).finalizers
    ensures var s1, past := Step(c, s, Start(n)), Live(s, n).stamp.At? && s.now > Live(s, n).stamp.t;
            var s2 := Step(c, s1, Work(o, bump));
            && (AboutToReap(s1, n) <==> past)
            && (past ==> s2.worker.Idle? && Exists(s2, n) && (Live(s2, n).deleting <==> o != Refused))
            && (past && o != Done ==> n in s2.queue)
            && (o == Done ==> Exists(s2, n) && (Live(s2, n).deleting <==> past))
  {
    assert NameOk(c, s, n);
    assert Cached(s, n) == Some(Live(s, n));
    var s1 := Step(c, s, Start(n));
    assert Log(s1, n) == Log(s, n);
    if AboutToReap(s1, n) { ReapDeletes(c, s1, n, o, bump); }
  }

  /** The same of a chart the operator has not worked on: it gets the finalizer first. */
  lemma ExpiredUntouchedIsReaped(c: Compiler, s: State, n: string, b1: bool, b2: bool)
    requires Due(c, s, n) && !Live(s, n).deleting && FINALIZER !in Live(s, n).finalizers
    ensures var s2 := Run(c, s, [Start(n), Work(Done, b1)]);
            var s3 := Step(c, s2, Work(Done, b2));
            && (AboutToReap(s2, n) <==> Live(s, n).stamp.At? && s.now > Live(s, n).stamp.t)
            && (AboutToReap(s2, n) ==> Exists(s3, n) && Live(s3, n).deleting && FINALIZER in Live(s3, n).finalizers)
  {
    RunTwo(c, s, Start(n), Work(Done, b1));
    FinalizerFirst(c, s, n);
    var s1 := Step(c, s, Start(n));
    FinalizerComes(c, s1, n, b1);
    var s2 := Step(c, s1, Work(Done, b1));
    if AboutToReap(s2, n) { ReapDeletes(c, s2, n, Done, b2); }
  }

  lemma FinalizerFirst(c: Compiler, s: State, n: string)
    requires Due(c, s, n) && !Live(s, n).deleting && FINALIZER !in Live(s, n).finalizers
    ensures Step(c, s, Start(n)) == s.(queue := s.queue - {n}, worker := AddFinalizer(n, Live(s, n)))
  {
    assert NameOk(c, s, n);
    assert Cached(s, n) == Some(Live(s, n));
  }

  lemma FinalizerComes(c: Compiler, s: State, n: string, bump: bool)
    requires Exists(s, n) && !HasFinalizer(Live(s, n)) && !Live(s, n).deleting
    requires s.worker == AddFinalizer(n, Live(s, n))
    ensures var s' := Step(c, s, Work(Done, bump));
            && Exists(s', n) && HasFinalizer(Live(s', n)) && !Live(s', n).deleting
            && (AboutToReap(s', n) <==> Expired(Live(s, n).stamp, s.now))
  {
    var r := ApiUpdate(s, n, WithFinalizer(Live(s, n)));
    assert r.obj == Some(Live(r.s, n)) && Live(r.s, n).stamp == Live(s, n).stamp && HasFinalizer(Live(r.s, n));
  }

  /**
    So an expired chart goes away: the next resync, a pass, the delivery of its
    deletion and one more pass, all calls succeeding, leave neither object nor archive.
  */
  lemma ExpiredGoesAway(c: Compiler, s: State, n: string)
    requires Inv(c, s) && Ranks(s) && s.worker.Idle? && Exists(s, n) && Lag(s, n) == 0
    requires !Live(s, n).deleting && Live(s, n).finalizers == [FINALIZER]
    requires Live(s, n).stamp.At? && s.now > Live(s, n).stamp.t
    ensures var s' := Run(c, s, [Resync, Start(n), Work(Done, false)] + [Deliver(n, 1)] +
                                [Start(n), Work(Done, false), Work(Done, false)]);
            !Exists(s', n) && !Stored(s', n)
  {
    var reap, clean := [Resync, Start(n), Work(Done, false)], [Start(n), Work(Done, false), Work(Done, false)];
    RunSplit(c, s, reap + [Deliver(n, 1)], clean);
    RunSnoc(c, s, reap, Deliver(n, 1));
    RunThree(c, s, Resync, Start(n), Work(Done, false));
    RunKeeps(c, s, reap + [Deliver(n, 1)]);
    Reaped(c, s, n);
    DeletedIsCleanedUp(c, Run(c, s, reap + [Deliver(n, 1)]), n, Done, false, Done, false);
  }

  lemma Reaped(c: Compiler, s: State, n: string)
    requires Inv(c, s) && Ranks(s) && s.worker.Idle? && Exists(s, n) && Lag(s, n) == 0
    requires !Live(s, n).deleting && Live(s, n).finalizers == [FINALIZER]
    requires Live(s, n).stamp.At? && s.now > Live(s, n).stamp.t
    ensures var s0 := Step(c, s, Resync);
            var s' := Step(c, Step(c, Step(c, s0, Start(n)), Work(Done, false)), Deliver(n, 1));
            && s'.worker.Idle? && n in s'.queue && Exists(s', n) && Lag(s', n) == 0
            && Live(s', n).deleting && Live(s', n).finalizers == [FINALIZER]
  {
    var s0 := Step(c, s, Resync);
    assert 0 < Seen(s, n) && n in s.seen;
    StepKeeps(c, s, Resync);
    assert Log(s0, n) == Log(s, n) && Seen(s0, n) == Seen(s, n);
    ExpiredIsReaped(c, s0, n, Done, false);
    var s1 := Step(c, s0, Start(n));
    assert Log(s1, n) == Log(s, n) && s1.seen == s.seen;
    ReapDeletes(c, s1, n, Done, false);
  }
}
