/**
  Safety of the generation protocol over every run: what the freshness gate
  lets through is what the current spec renders to, and no artifact outlives
  the object whose finalizer guards it.
*/
module Safety {
  import opened Prelude
  import opened Cluster

  // ----- the inductive invariant ---------------------------------------------

  /** Two versions of one name, in log order. */
  ghost predicate Later(a: CR, b: CR) {
    a.rv < b.rv && a.uid <= b.uid && (a.uid == b.uid ==> !a.gone && (a.deleting ==> b.deleting))
  }

  ghost predicate VersionOk(rv: nat, uid: nat, n: string, v: CR) {
    && v.rv < rv && v.uid < uid && 1 <= v.generation
    && (v.gone ==> v.finalizers == [])
    && (v.status.observed.Some? <==> v.status.phase == Ready)
    && (v.status.phase == Ready ==>
          1 <= v.status.observed.value <= v.generation && v.status.artifact == Some(ArtifactKey(n)))
    && (v.status.phase != Ready ==> v.status.artifact == None)
  }

  ghost predicate LogOk(s: State, n: string) {
    && (forall i :: 0 <= i < |Log(s, n)| ==> VersionOk(s.nextRv, s.nextUid, n, Log(s, n)[i]))
    && (forall i, j :: 0 <= i < j < |Log(s, n)| ==> Later(Log(s, n)[i], Log(s, n)[j]))
    && Seen(s, n) <= |Log(s, n)|
  }

  predicate Stored(s: State, n: string) {
    ArtifactKey(n) in s.store
  }

  /** An artifact exists only under a live object that carries the cleanup finalizer. */
  ghost predicate Guarded(s: State, n: string) {
    Stored(s, n) ==> Exists(s, n) && HasFinalizer(Live(s, n))
  }

  /** Whatever passes the gate is backed by exactly what the current spec renders to. */
  ghost predicate Fresh(c: Compiler, s: State, n: string) {
    Exists(s, n) && !Live(s, n).deleting && ReadyCurrent(Live(s, n)) ==>
      Stored(s, n) && Some(s.store[ArtifactKey(n)]) == Want(c, Live(s, n).raw)
  }

  /** The current incarnation has been worked on. */
  predicate Touched(s: State, n: string) {
    Exists(s, n) && (Live(s, n).status != NO_STATUS || Stored(s, n))
  }

  /** The worker only ever acts on what the cache has shown it. */
  ghost predicate CaughtUp(s: State, n: string)
    requires Seen(s, n) <= |Log(s, n)|
  {
    Touched(s, n) ==> 0 < Seen(s, n) && Log(s, n)[Seen(s, n) - 1].uid == Live(s, n).uid
  }

  ghost predicate NameOk(c: Compiler, s: State, n: string) {
    LogOk(s, n) && Guarded(s, n) && Fresh(c, s, n) && CaughtUp(s, n)
  }

  /** The object the worker holds is a version the cache has reached. */
  ghost predicate Held(s: State, n: string, obj: CR) {
    && obj in Log(s, n) && !obj.gone
    && 0 < Seen(s, n) <= |Log(s, n)| && obj.uid <= Log(s, n)[Seen(s, n) - 1].uid
    && (Touched(s, n) ==> Live(s, n).uid == obj.uid)
  }

  /** Between the Generating and the final status write. */
  ghost predicate Working(s: State, n: string, obj: CR) {
    && Exists(s, n) && Live(s, n).uid == obj.uid
    && HasFinalizer(Live(s, n)) && Live(s, n).status == GENERATING
  }

  ghost predicate WorkerOk(c: Compiler, s: State) {
    match s.worker
    case Idle => true
    case RemoveArtifact(n, obj) => Held(s, n, obj) && obj.deleting && HasFinalizer(obj)
    case DropFinalizer(n, obj) => Held(s, n, obj) && obj.deleting && HasFinalizer(obj) && !Stored(s, n)
    case AddFinalizer(n, obj) => Held(s, n, obj) && !obj.deleting && !HasFinalizer(obj)
    case Reap(n, obj) => Held(s, n, obj) && !obj.deleting && Expired(obj.stamp, s.now)
    case MarkGenerating(n, obj) => Held(s, n, obj) && !obj.deleting && HasFinalizer(obj) && !ReadyCurrent(obj)
    case Render(n, obj) => Held(s, n, obj) && Working(s, n, obj) && c.accept(obj.raw)
    case Upload(n, obj, zip) => Held(s, n, obj) && Working(s, n, obj) && Want(c, obj.raw) == Some(zip)
    case MarkReady(n, obj, zip) =>
      && Held(s, n, obj) && Working(s, n, obj) && Want(c, obj.raw) == Some(zip)
      && Stored(s, n) && s.store[ArtifactKey(n)] == zip
    case MarkFailed(n, obj, _) => Held(s, n, obj) && Working(s, n, obj)
  }

  ghost predicate Inv(c: Compiler, s: State) {
    (forall n :: NameOk(c, s, n)) && WorkerOk(c, s)
  }

  // ----- auxiliary facts -----------------------------------------------------

  lemma KeysDiffer(a: string, b: string)
    ensures ArtifactKey(a) == ArtifactKey(b) ==> a == b
  {
    var p, z := "charts/", ".zip";
    assert ArtifactKey(a)[|p|..|p| + |a|] == a;
    assert ArtifactKey(b)[|p|..|p| + |b|] == b;
    assert |ArtifactKey(a)| == |p| + |a| + |z| && |ArtifactKey(b)| == |p| + |b| + |z|;
  }

  /** A version the worker holds and the API server still has at that rv is the live one. */
  lemma HeldIsLive(c: Compiler, s: State, n: string, obj: CR)
    requires LogOk(s, n) && obj in Log(s, n) && Writable(s, n, obj)
    ensures obj == Live(s, n)
  {
    var i :| 0 <= i < |Log(s, n)| && Log(s, n)[i] == obj;
    assert i < |Log(s, n)| - 1 ==> Later(Log(s, n)[i], Live(s, n));
  }

  /** v may follow the live version of n, or start a new incarnation of it. */
  ghost predicate Follows(s: State, n: string, v: CR) {
    && VersionOk(s.nextRv, s.nextUid, n, v.(rv := 0))
    && (if Exists(s, n) then v.uid == Live(s, n).uid && (Live(s, n).deleting ==> v.deleting)
        else forall i :: 0 <= i < |Log(s, n)| ==> Log(s, n)[i].uid < v.uid)
  }

  ghost predicate SameVersion(a: CR, b: CR) {
    a.(rv := 0) == b.(rv := 0)
  }

  lemma CommitExtends(s: State, n: string, v: CR)
    requires forall m :: LogOk(s, m)
    requires 1 <= s.nextRv
    requires Follows(s, n, v)
    ensures var s' := Commit(s, n, v);
            && (forall m :: LogOk(s', m))
            && SameVersion(Live(s', n), v) && Exists(s', n) == !v.gone
            && Log(s, n) <= Log(s', n) && s.nextRv <= s'.nextRv
            && (forall m :: m != n ==> Log(s', m) == Log(s, m))
  {
    var s' := Commit(s, n, v);
    assert LogOk(s, n);
    if s' != s {
      var k := |Log(s, n)|;
      forall i, j | 0 <= i < j < |Log(s', n)| ensures Later(Log(s', n)[i], Log(s', n)[j]) {
        if j == k {
          assert VersionOk(s.nextRv, s.nextUid, n, Log(s, n)[i]);
          assert i < k - 1 ==> Later(Log(s, n)[i], Live(s, n));
        } else {
          assert Later(Log(s, n)[i], Log(s, n)[j]);
        }
      }
      forall m ensures LogOk(s', m) {
        assert LogOk(s, m);
        if m != n {
          assert Log(s', m) == Log(s, m);
          forall i | 0 <= i < |Log(s', m)| ensures VersionOk(s'.nextRv, s'.nextUid, m, Log(s', m)[i]) {
            assert VersionOk(s.nextRv, s.nextUid, m, Log(s, m)[i]);
          }
        } else {
          forall i | 0 <= i < |Log(s', m)| ensures VersionOk(s'.nextRv, s'.nextUid, m, Log(s', m)[i]) {
            if i < k { assert VersionOk(s.nextRv, s.nextUid, m, Log(s, m)[i]); }
          }
        }
      }
    }
  }

  // ----- every event keeps the invariant ---------------------------------------

  ghost predicate Ranks(s: State) {
    1 <= s.nextRv && 1 <= s.nextUid
  }

  /** Facts about the names a commit on n does not concern. */
  lemma OthersKept(c: Compiler, s: State, s': State, n: string)
    requires forall m :: NameOk(c, s, m)
    requires forall m :: LogOk(s', m)
    requires forall m :: m != n ==> Log(s', m) == Log(s, m) && Seen(s', m) == Seen(s, m)
    requires forall m :: m != n ==> (Stored(s', m) <==> Stored(s, m))
    requires forall m :: m != n && Stored(s, m) && Stored(s', m) ==> s'.store[ArtifactKey(m)] == s.store[ArtifactKey(m)]
    ensures forall m :: m != n ==> NameOk(c, s', m)
  {
    forall m | m != n ensures NameOk(c, s', m) {
      assert NameOk(c, s, m);
    }
  }

  /** What anyone but the status writer may do to a live object. */
  ghost predicate OutsideMove(s: State, n: string, v: CR) {
    && Exists(s, n) && Follows(s, n, v) && v.status == Live(s, n).status
    && (HasFinalizer(Live(s, n)) ==> HasFinalizer(v))
    && Live(s, n).generation <= v.generation
    && (v.raw != Live(s, n).raw ==> Live(s, n).generation < v.generation)
  }

  lemma OutsideKeeps(c: Compiler, s: State, n: string, v: CR)
    requires Inv(c, s) && Ranks(s) && OutsideMove(s, n, v)
    ensures Inv(c, Commit(s, n, v)) && Ranks(Commit(s, n, v))
  {
    forall m ensures LogOk(s, m) { assert NameOk(c, s, m); }
    var s' := Commit(s, n, v);
    CommitExtends(s, n, v);
    OthersKept(c, s, s', n);
    assert NameOk(c, s, n);
    assert VersionOk(s.nextRv, s.nextUid, n, Live(s, n));
    assert NameOk(c, s', n);
    WorkerSurvives(c, s, s', n);
  }

  /** A commit on n that keeps uid, status and finalizer leaves the worker's facts alone. */
  lemma WorkerSurvives(c: Compiler, s: State, s': State, n: string)
    requires WorkerOk(c, s) && s'.worker == s.worker && s'.now >= s.now
    requires s'.store == s.store && s'.seen == s.seen
    requires forall m :: m != n ==> Log(s', m) == Log(s, m)
    requires Log(s, n) <= Log(s', n)
    requires Exists(s', n) && Exists(s, n) ==>
               && Live(s', n).uid == Live(s, n).uid && Live(s', n).status == Live(s, n).status
               && (HasFinalizer(Live(s, n)) ==> HasFinalizer(Live(s', n)))
    requires Exists(s, n) && HasFinalizer(Live(s, n)) ==> Exists(s', n)
    requires !Exists(s, n) && Exists(s', n) ==> !Touched(s', n)
    ensures WorkerOk(c, s')
  {
  }

  lemma ApplyKeeps(c: Compiler, s: State, n: string, raw: Json, stamp: Stamp)
    requires Inv(c, s) && Ranks(s)
    ensures Inv(c, ApiApply(s, n, raw, stamp)) && Ranks(ApiApply(s, n, raw, stamp))
  {
    assert NameOk(c, s, n);
    if Exists(s, n) {
      assert VersionOk(s.nextRv, s.nextUid, n, Live(s, n));
      var cur := Live(s, n);
      OutsideKeeps(c, s, n, cur.(raw := raw, stamp := stamp,
                                 generation := if raw == cur.raw then cur.generation else cur.generation + 1));
    } else {
      CreateKeeps(c, s, n, raw, stamp);
    }
  }

  lemma NewUidKeeps(c: Compiler, s: State)
    requires Inv(c, s)
    ensures Inv(c, s.(nextUid := s.nextUid + 1))
  {
    var s1 := s.(nextUid := s.nextUid + 1);
    forall m ensures NameOk(c, s1, m) {
      assert NameOk(c, s, m);
      forall k | 0 <= k < |Log(s1, m)| ensures VersionOk(s1.nextRv, s1.nextUid, m, Log(s1, m)[k]) {
        assert VersionOk(s.nextRv, s.nextUid, m, Log(s, m)[k]);
      }
    }
  }

  lemma CreateKeeps(c: Compiler, s: State, n: string, raw: Json, stamp: Stamp)
    requires Inv(c, s) && Ranks(s) && !Exists(s, n)
    ensures Inv(c, ApiApply(s, n, raw, stamp)) && Ranks(ApiApply(s, n, raw, stamp))
  {
    NewUidKeeps(c, s);
    var s1, s' := s.(nextUid := s.nextUid + 1), ApiApply(s, n, raw, stamp);
    var v := CR(s.nextUid, 0, 1, raw, [], false, stamp, NO_STATUS, false);
    forall m ensures LogOk(s1, m) { assert NameOk(c, s1, m); }
    assert NameOk(c, s, n);
    OldUids(s, n);
    CommitExtends(s1, n, v);
    OthersKept(c, s1, s', n);
    CreateName(c, s1, s', n, v);
    WorkerSurvives(c, s1, s', n);
  }

  lemma OldUids(s: State, n: string)
    requires LogOk(s, n)
    ensures forall i :: 0 <= i < |Log(s, n)| ==> Log(s, n)[i].uid < s.nextUid
  {
    forall i | 0 <= i < |Log(s, n)| ensures Log(s, n)[i].uid < s.nextUid {
      assert VersionOk(s.nextRv, s.nextUid, n, Log(s, n)[i]);
    }
  }

  lemma CreateName(c: Compiler, s: State, s': State, n: string, v: CR)
    requires NameOk(c, s, n) && !Exists(s, n) && LogOk(s', n) && s'.store == s.store
    requires Exists(s', n) && SameVersion(Live(s', n), v) && v.status == NO_STATUS
    ensures NameOk(c, s', n) && !Touched(s', n)
  {
  }

  lemma EditKeeps(c: Compiler, s: State, n: string, fs: seq<string>, stamp: Stamp)
    requires Inv(c, s) && Ranks(s)
    ensures Inv(c, ApiEdit(s, n, fs, stamp)) && Ranks(ApiEdit(s, n, fs, stamp))
  {
    if ApiEdit(s, n, fs, stamp) != s {
      assert NameOk(c, s, n);
      assert VersionOk(s.nextRv, s.nextUid, n, Live(s, n));
      var cur := Live(s, n);
      OutsideKeeps(c, s, n, cur.(finalizers := fs, stamp := stamp, gone := cur.deleting && fs == []));
    }
  }

  lemma DeleteKeeps(c: Compiler, s: State, n: string, bump: bool)
    requires Inv(c, s) && Ranks(s)
    ensures Inv(c, ApiDelete(s, n, bump).s) && Ranks(ApiDelete(s, n, bump).s)
  {
    if Exists(s, n) {
      assert NameOk(c, s, n);
      assert VersionOk(s.nextRv, s.nextUid, n, Live(s, n));
      var cur := Live(s, n);
      OutsideKeeps(c, s, n,
        if cur.finalizers == [] then cur.(gone := true)
        else if cur.deleting then cur
        else cur.(deleting := true, generation := if bump then cur.generation + 1 else cur.generation));
    }
  }

  lemma DeliverName(c: Compiler, s: State, n: string, count: nat)
    requires NameOk(c, s, n) && 0 < count && Seen(s, n) + count <= |Log(s, n)|
    ensures NameOk(c, DeliverTo(s, n, count), n)
  {
    var s' := DeliverTo(s, n, count);
    var i, j, l := Seen(s, n) - 1, Seen(s', n) - 1, Log(s, n);
    assert Log(s', n) == l;
    assert 0 <= i ==> Later(l[i], l[j]);
    assert j < |l| - 1 ==> Later(l[j], Live(s, n));
  }

  lemma DeliverKeeps(c: Compiler, s: State, n: string, count: nat)
    requires Inv(c, s)
    ensures Inv(c, DeliverTo(s, n, count))
  {
    var s' := DeliverTo(s, n, count);
    if s' != s {
      assert NameOk(c, s, n);
      DeliverName(c, s, n, count);
      forall m ensures LogOk(s', m) { assert NameOk(c, s, m); }
      OthersKept(c, s, s', n);
      DeliverWorker(c, s, n, count);
    }
  }

  lemma DeliverWorker(c: Compiler, s: State, n: string, count: nat)
    requires LogOk(s, n) && WorkerOk(c, s) && 0 < count && Seen(s, n) + count <= |Log(s, n)|
    ensures WorkerOk(c, DeliverTo(s, n, count))
  {
    var i, j := Seen(s, n) - 1, Seen(s, n) + count - 1;
    assert 0 <= i ==> Later(Log(s, n)[i], Log(s, n)[j]);
  }

  // ----- the worker ------------------------------------------------------------

  ghost predicate NamesOk(c: Compiler, s: State) {
    (forall n :: NameOk(c, s, n)) && Ranks(s)
  }

  /** Queue and worker play no part in what holds of the names. */
  lemma NamesOnly(c: Compiler, s: State, s': State)
    requires NamesOk(c, s) && s' == s.(queue := s'.queue, worker := s'.worker, now := s'.now)
    ensures NamesOk(c, s')
  {
    forall n ensures NameOk(c, s', n) {
      assert NameOk(c, s, n);
    }
  }

  lemma DecideKeeps(c: Compiler, s: State, n: string, obj: CR)
    requires NamesOk(c, s) && Held(s, n, obj) && !obj.deleting && HasFinalizer(obj)
    ensures Inv(c, Decide(s, n, obj)) && Ranks(Decide(s, n, obj))
  {
    NamesOnly(c, s, Decide(s, n, obj));
  }

  lemma BeginKeeps(c: Compiler, s: State, n: string)
    requires NamesOk(c, s) && s.worker.Idle?
    ensures Inv(c, Begin(s, n)) && Ranks(Begin(s, n))
  {
    assert NameOk(c, s, n);
    match Cached(s, n)
    case None =>
    case Some(obj) =>
      assert Held(s, n, obj);
      if !obj.deleting && HasFinalizer(obj) {
        DecideKeeps(c, s, n, obj);
      } else {
        NamesOnly(c, s, Begin(s, n));
      }
  }

  /** Writing a status on the version the worker holds. */
  lemma StatusKeeps(c: Compiler, s: State, n: string, obj: CR, st: Status)
    requires NamesOk(c, s) && Held(s, n, obj) && Writable(s, n, obj)
    requires st in {GENERATING, FAILED, ReadyStatus(n, obj.generation)}
    requires st.phase == Ready ==> Stored(s, n) && Some(s.store[ArtifactKey(n)]) == Want(c, obj.raw)
    ensures var s' := ApiUpdateStatus(s, n, obj.(status := st)).s;
            && NamesOk(c, s') && obj == Live(s, n) && Exists(s', n)
            && SameVersion(Live(s', n), obj.(status := st)) && Held(s', n, Live(s', n))
            && (forall m :: m != n ==> Log(s', m) == Log(s, m)) && s'.store == s.store && s'.seen == s.seen
  {
    assert NameOk(c, s, n);
    HeldIsLive(c, s, n, obj);
    assert VersionOk(s.nextRv, s.nextUid, n, Live(s, n));
    forall m ensures LogOk(s, m) { assert NameOk(c, s, m); }
    var s' := ApiUpdateStatus(s, n, obj.(status := st)).s;
    CommitExtends(s, n, obj.(status := st));
    OthersKept(c, s, s', n);
    assert Seen(s, n) < |Log(s, n)| ==> Later(Log(s, n)[Seen(s, n) - 1], Live(s, n));
    assert NameOk(c, s', n);
  }

  /** Dropping the finalizer once the artifact is gone. */
  lemma DropKeeps(c: Compiler, s: State, n: string, obj: CR)
    requires NamesOk(c, s) && Held(s, n, obj) && obj.deleting && HasFinalizer(obj) && !Stored(s, n)
    ensures var s' := ApiUpdate(s, n, obj.(finalizers := Without(obj.finalizers, FINALIZER))).s;
            NamesOk(c, s')
  {
    if Writable(s, n, obj) {
      assert NameOk(c, s, n);
      HeldIsLive(c, s, n, obj);
      assert VersionOk(s.nextRv, s.nextUid, n, Live(s, n));
      forall m ensures LogOk(s, m) { assert NameOk(c, s, m); }
      var fs := Without(obj.finalizers, FINALIZER);
      var v := obj.(finalizers := fs, gone := obj.deleting && fs == []);
      var s' := ApiUpdate(s, n, obj.(finalizers := fs)).s;
      assert s' == Commit(s, n, v);
      CommitExtends(s, n, v);
      OthersKept(c, s, s', n);
      assert NameOk(c, s', n);
    }
  }

  lemma AddKeeps(c: Compiler, s: State, n: string, obj: CR)
    requires NamesOk(c, s) && Held(s, n, obj) && !obj.deleting && !HasFinalizer(obj)
    ensures var r := ApiUpdate(s, n, WithFinalizer(obj));
            && NamesOk(c, r.s)
            && (r.obj.Some? ==> Held(r.s, n, r.obj.value) && !r.obj.value.deleting && HasFinalizer(r.obj.value))
  {
    if Writable(s, n, obj) {
      assert NameOk(c, s, n);
      HeldIsLive(c, s, n, obj);
      assert VersionOk(s.nextRv, s.nextUid, n, Live(s, n));
      forall m ensures LogOk(s, m) { assert NameOk(c, s, m); }
      var v := WithFinalizer(obj);
      var s' := ApiUpdate(s, n, v).s;
      assert s' == Commit(s, n, v);
      CommitExtends(s, n, v);
      OthersKept(c, s, s', n);
      assert NameOk(c, s', n);
    }
  }

  lemma RemoveKeeps(c: Compiler, s: State, n: string, obj: CR)
    requires NamesOk(c, s) && Held(s, n, obj) && obj.deleting && HasFinalizer(obj)
    ensures var s' := s.(store := s.store - {ArtifactKey(n)}); NamesOk(c, s') && Held(s', n, obj)
  {
    var s' := s.(store := s.store - {ArtifactKey(n)});
    assert NameOk(c, s, n);
    var i :| 0 <= i < |Log(s, n)| && Log(s, n)[i] == obj;
    assert i < |Log(s, n)| - 1 ==> Later(Log(s, n)[i], Live(s, n));
    forall m ensures NameOk(c, s', m) {
      assert NameOk(c, s, m);
      KeysDiffer(n, m);
    }
  }

  lemma UploadKeeps(c: Compiler, s: State, n: string, obj: CR, zip: string)
    requires NamesOk(c, s) && Held(s, n, obj) && Working(s, n, obj)
    ensures var s' := s.(store := s.store[ArtifactKey(n) := zip]); NamesOk(c, s') && Held(s', n, obj)
  {
    var s' := s.(store := s.store[ArtifactKey(n) := zip]);
    assert NameOk(c, s, n);
    forall m ensures NameOk(c, s', m) {
      assert NameOk(c, s, m);
      KeysDiffer(n, m);
    }
  }

  /** The worker's next call, whatever becomes of it, keeps what holds of the names ... */
  lemma CallKeeps(c: Compiler, s: State, bump: bool)
    requires Inv(c, s) && Ranks(s)
    ensures NamesOk(c, Call(c, s, bump).s)
  {
    var idle := s.(worker := Idle);
    NamesOnly(c, s, idle);
    match s.worker
    case Idle =>
    case RemoveArtifact(n, obj) => RemoveKeeps(c, s, n, obj);
    case DropFinalizer(n, obj) => DropKeeps(c, s, n, obj);
    case AddFinalizer(n, obj) => AddKeeps(c, s, n, obj);
    case Reap(n, _) => DeleteKeeps(c, s, n, bump);
    case MarkGenerating(n, obj) => if Writable(s, n, obj) { StatusKeeps(c, s, n, obj, GENERATING); }
    case Render(_, _) =>
    case Upload(n, obj, zip) => UploadKeeps(c, s, n, obj, zip);
    case MarkReady(n, obj, _) => if Writable(s, n, obj) { StatusKeeps(c, s, n, obj, ReadyStatus(n, obj.generation)); }
    case MarkFailed(n, obj, _) => if Writable(s, n, obj) { StatusKeeps(c, s, n, obj, FAILED); }
  }

  lemma AddContinues(c: Compiler, s: State, n: string, obj: CR)
    requires NamesOk(c, s) && Held(s, n, obj) && !obj.deleting && !HasFinalizer(obj)
    ensures var r := ApiUpdate(s, n, WithFinalizer(obj));
            r.obj.Some? ==> WorkerOk(c, Decide(r.s, n, r.obj.value))
  {
    AddKeeps(c, s, n, obj);
    var r := ApiUpdate(s, n, WithFinalizer(obj));
    if r.obj.Some? { DecideKeeps(c, r.s, n, r.obj.value); }
  }

  lemma GeneratingContinues(c: Compiler, s: State, n: string, obj: CR)
    requires NamesOk(c, s) && Held(s, n, obj) && !obj.deleting && HasFinalizer(obj) && Writable(s, n, obj)
    ensures var r := ApiUpdateStatus(s, n, obj.(status := GENERATING));
            Held(r.s, n, r.obj.value) && Working(r.s, n, r.obj.value)
  {
    StatusKeeps(c, s, n, obj, GENERATING);
  }

  lemma LocalContinues(c: Compiler, s: State, bump: bool)
    requires Inv(c, s) && Ranks(s)
    requires s.worker.RemoveArtifact? || s.worker.Render? || s.worker.Upload?
    ensures var r := Call(c, s, bump);
            r.obj.Some? ==> WorkerOk(c, Continue(c, r.s, s.worker, r.obj))
  {
    match s.worker
    case RemoveArtifact(n, obj) => RemoveKeeps(c, s, n, obj);
    case Upload(n, obj, zip) => UploadKeeps(c, s, n, obj, zip);
    case _ =>
  }

  lemma PassEnds(c: Compiler, s: State, w: Worker, reply: Option<CR>)
    requires w.DropFinalizer? || w.Reap? || w.MarkReady? || w.MarkFailed?
    ensures Continue(c, s, w, reply).worker.Idle?
  {
  }

  /** ... and when it succeeds, the next step of Reconcile starts from the facts it relies on. */
  lemma ContinueKeeps(c: Compiler, s: State, bump: bool)
    requires Inv(c, s) && Ranks(s)
    ensures var r := Call(c, s, bump);
            r.obj.Some? ==> WorkerOk(c, Continue(c, r.s, s.worker, r.obj))
  {
    var r := Call(c, s, bump);
    if r.obj.Some? {
      var w := s.worker;
      if w.RemoveArtifact? || w.Render? || w.Upload? { LocalContinues(c, s, bump); }
      else if w.AddFinalizer? { AddContinues(c, s, w.name, w.obj); }
      else if w.MarkGenerating? { GeneratingContinues(c, s, w.name, w.obj); }
      else if !w.Idle? { PassEnds(c, r.s, w, r.obj); }
    }
  }

  lemma ErrorEnds(c: Compiler, s: State, w: Worker)
    requires !w.Idle? && !w.Render? && !w.Upload?
    ensures Continue(c, s, w, None).worker.Idle?
  {
  }

  /** After an error Reconcile returns, or goes on to report the failure. */
  lemma FailureKeeps(c: Compiler, s: State, o: Outcome, bump: bool)
    requires Inv(c, s) && Ranks(s)
    ensures var r := Observe(s, Call(c, s, bump), o);
            r.obj.None? ==> WorkerOk(c, Continue(c, r.s, s.worker, None))
  {
    var w := s.worker;
    if w.Upload? {
      UploadKeeps(c, s, w.name, w.obj, w.zip);
    } else if !w.Idle? && !w.Render? {
      ErrorEnds(c, Observe(s, Call(c, s, bump), o).s, w);
    }
  }

  lemma ProceedKeeps(c: Compiler, s: State, o: Outcome, bump: bool)
    requires Inv(c, s) && Ranks(s)
    ensures Inv(c, Proceed(c, s, o, bump)) && Ranks(Proceed(c, s, o, bump))
  {
    var r := Observe(s, Call(c, s, bump), o);
    CallKeeps(c, s, bump);
    NamesOnly(c, r.s, Proceed(c, s, o, bump));
    if r.obj.Some? {
      ContinueKeeps(c, s, bump);
    } else {
      FailureKeeps(c, s, o, bump);
    }
  }

  lemma StepKeeps(c: Compiler, s: State, e: Event)
    requires Inv(c, s) && Ranks(s)
    ensures Inv(c, Step(c, s, e)) && Ranks(Step(c, s, e))
  {
    match e
    case Apply(n, raw, stamp) => ApplyKeeps(c, s, n, raw, stamp);
    case Edit(n, fs, stamp) => EditKeeps(c, s, n, fs, stamp);
    case UserDelete(n, bump) => DeleteKeeps(c, s, n, bump);
    case Tick(dt) => NamesOnly(c, s, Step(c, s, e));
    case Deliver(n, count) => DeliverKeeps(c, s, n, count);
    case Resync => NamesOnly(c, s, Step(c, s, e));
    case Crash => NamesOnly(c, s, Step(c, s, e));
    case Start(n) =>
      if Step(c, s, e) != s {
        NamesOnly(c, s, s.(queue := s.queue - {n}));
        BeginKeeps(c, s.(queue := s.queue - {n}), n);
      }
    case Work(o, bump) => ProceedKeeps(c, s, o, bump);
  }

  lemma {:induction false} RunKeeps(c: Compiler, s: State, es: seq<Event>)
    requires Inv(c, s) && Ranks(s)
    ensures Inv(c, Run(c, s, es)) && Ranks(Run(c, s, es))
    decreases |es|
  {
    if es != [] {
      RunKeeps(c, s, es[..|es| - 1]);
      StepKeeps(c, Run(c, s, es[..|es| - 1]), es[|es| - 1]);
    }
  }

  lemma ReachableInv(c: Compiler, es: seq<Event>)
    ensures Inv(c, Run(c, Init(), es)) && Ranks(Run(c, Init(), es))
  {
    assert forall n :: NameOk(c, Init(), n);
    RunKeeps(c, Init(), es);
  }

  // ----- what the backend serves ------------------------------------------------

  /** summarize: the key a download URL is minted for, if any. */
  function DownloadKey(cr: CR): Option<string> {
    if ReadyCurrent(cr) && cr.status.artifact.Some? && cr.status.artifact.value != ""
    then cr.status.artifact else None
  }

  /** handleChartFiles: 404, 409, a download error, or the archive. */
  datatype Files = NotFound | Conflict | BadGateway | Archive(bytes: string)

  function ServeFiles(s: State, n: string): Files {
    if !Exists(s, n) then NotFound
    else match DownloadKey(Live(s, n))
      case None => Conflict
      case Some(key) => if key in s.store then Archive(s.store[key]) else BadGateway
  }

  // ----- the theorems -------------------------------------------------------------

  /**
    After any interleaving of applies, edits, deletes, ticks, deliveries,
    crashes and failed, refused or half-done calls: a non-deleting object whose
    gate is open is served exactly the render of the spec the API server holds,
    for the URL and for the file tree alike.
  */
  lemma NothingStaleIsServed(c: Compiler, es: seq<Event>, n: string)
    ensures var s := Run(c, Init(), es);
            Exists(s, n) && !Live(s, n).deleting ==>
              && (DownloadKey(Live(s, n)).Some? ==>
                    && Live(s, n).status.artifact == Some(ArtifactKey(n)) && Stored(s, n)
                    && Want(c, Live(s, n).raw) == Some(s.store[DownloadKey(Live(s, n)).value]))
              && (ServeFiles(s, n) == Conflict <==> !ReadyCurrent(Live(s, n)))
              && ServeFiles(s, n) != BadGateway
              && (ServeFiles(s, n).Archive? ==> Want(c, Live(s, n).raw) == Some(ServeFiles(s, n).bytes))
  {
    ReachableInv(c, es);
    var s := Run(c, Init(), es);
    assert NameOk(c, s, n);
    if Exists(s, n) { assert VersionOk(s.nextRv, s.nextUid, n, Live(s, n)); }
  }

  /** observedGeneration is present iff Ready and never ahead of the generation. */
  lemma ObservedIffReady(c: Compiler, es: seq<Event>, n: string)
    ensures var s := Run(c, Init(), es);
            forall v :: v in Log(s, n) ==>
              && (v.status.observed.Some? <==> v.status.phase == Ready)
              && (v.status.phase == Ready ==> v.status.observed.value <= v.generation)
  {
    ReachableInv(c, es);
    assert NameOk(c, Run(c, Init(), es), n);
  }

  /** n became Ready, or Ready with another observed generation. */
  predicate TurnsReady(s: State, s': State, n: string) {
    && Exists(s', n) && Live(s', n).status.phase == Ready
    && !(Exists(s, n) && Live(s, n).status == Live(s', n).status)
  }

  /** Apart from the worker's own calls, nothing writes a status. */
  lemma OnlyWorkerWritesStatus(c: Compiler, s: State, e: Event, n: string)
    requires !e.Work?
    ensures !TurnsReady(s, Step(c, s, e), n)
  {
  }

  lemma UpdateTurnsNothing(s: State, m: string, obj: CR, n: string)
    ensures !TurnsReady(s, ApiUpdate(s, m, obj).s, n)
  {
  }

  lemma StatusTurnsNothing(s: State, m: string, obj: CR, n: string)
    requires obj.status.phase != Ready
    ensures !TurnsReady(s, ApiUpdateStatus(s, m, obj).s, n)
  {
  }

  lemma DeleteTurnsNothing(s: State, m: string, bump: bool, n: string)
    ensures !TurnsReady(s, ApiDelete(s, m, bump).s, n)
  {
  }

  lemma CallTurnsNothing(c: Compiler, s: State, bump: bool, n: string)
    requires !s.worker.MarkReady?
    ensures !TurnsReady(s, Call(c, s, bump).s, n)
  {
    match s.worker
    case DropFinalizer(m, obj) => UpdateTurnsNothing(s, m, obj.(finalizers := Without(obj.finalizers, FINALIZER)), n);
    case AddFinalizer(m, obj) => UpdateTurnsNothing(s, m, WithFinalizer(obj), n);
    case Reap(m, obj) => DeleteTurnsNothing(s, m, bump, n);
    case MarkGenerating(m, obj) => StatusTurnsNothing(s, m, obj.(status := GENERATING), n);
    case MarkFailed(m, obj, _) => StatusTurnsNothing(s, m, obj.(status := FAILED), n);
    case _ =>
  }

  lemma SameLogTurnsNothing(s: State, mid: State, s': State, n: string)
    requires !TurnsReady(s, mid, n) && (s'.log == s.log || s'.log == mid.log)
    ensures !TurnsReady(s, s', n)
  {
    assert Log(s', n) == Log(s, n) || Log(s', n) == Log(mid, n);
  }

  lemma WorkerTurnsReady(c: Compiler, s: State, o: Outcome, bump: bool, n: string)
    requires !s.worker.MarkReady?
    ensures !TurnsReady(s, Proceed(c, s, o, bump), n)
  {
    CallTurnsNothing(c, s, bump, n);
    SameLogTurnsNothing(s, Call(c, s, bump).s, Proceed(c, s, o, bump), n);
  }

  lemma ReadyWrite(c: Compiler, s: State, m: string, obj: CR, n: string)
    requires NamesOk(c, s) && Held(s, m, obj) && Working(s, m, obj)
    ensures var s' := ApiUpdateStatus(s, m, obj.(status := ReadyStatus(m, obj.generation))).s;
            TurnsReady(s, s', n) ==>
              && m == n && Exists(s, n) && Live(s, n).status == GENERATING && Live(s, n).uid == Live(s', n).uid
              && Live(s', n).status.observed == Some(Live(s, n).generation)
  {
    assert NameOk(c, s, m);
    if Writable(s, m, obj) { HeldIsLive(c, s, m, obj); }
  }

  lemma StepTurnsReady(c: Compiler, s: State, e: Event, n: string)
    requires Inv(c, s) && Ranks(s) && TurnsReady(s, Step(c, s, e), n)
    ensures && e.Work? && s.worker.MarkReady? && s.worker.name == n
            && Exists(s, n) && Live(s, n).status == GENERATING && Live(s, n).uid == Live(Step(c, s, e), n).uid
            && Live(Step(c, s, e), n).status.observed == Some(Live(s, n).generation)
  {
    if !e.Work? {
      OnlyWorkerWritesStatus(c, s, e, n);
    } else if !s.worker.MarkReady? {
      WorkerTurnsReady(c, s, e.outcome, e.bump, n);
    } else {
      ReadyWrite(c, s, s.worker.name, s.worker.obj, n);
      assert Log(Step(c, s, e), n) in {Log(s, n), Log(Call(c, s, e.bump).s, n)};
    }
  }

  /** A status turns Ready only in the worker's own write over its Generating status. */
  lemma ReadyOnlyFromGenerating(c: Compiler, es: seq<Event>, e: Event, n: string)
    ensures var s := Run(c, Init(), es);
            var s' := Step(c, s, e);
            TurnsReady(s, s', n) ==>
              && e.Work? && s.worker.MarkReady? && s.worker.name == n
              && Exists(s, n) && Live(s, n).status == GENERATING && Live(s, n).uid == Live(s', n).uid
              && Live(s', n).status.observed == Some(Live(s, n).generation)
  {
    ReachableInv(c, es);
    if TurnsReady(Run(c, Init(), es), Step(c, Run(c, Init(), es), e), n) {
      StepTurnsReady(c, Run(c, Init(), es), e, n);
    }
  }

  lemma CallStore(c: Compiler, s: State, bump: bool)
    ensures Call(c, s, bump).s.store ==
              if s.worker.RemoveArtifact? then s.store - {ArtifactKey(s.worker.name)}
              else if s.worker.Upload? then s.store[ArtifactKey(s.worker.name) := s.worker.zip]
              else s.store
  {
  }

  lemma OnlyWorkerStores(c: Compiler, s: State, e: Event)
    requires !e.Work?
    ensures Step(c, s, e).store == s.store
  {
  }

  /** Keys enter the store only by the worker's upload. */
  lemma NewKey(c: Compiler, s: State, e: Event, key: string)
    ensures key in Step(c, s, e).store ==>
              key in s.store || (s.worker.Upload? && key == ArtifactKey(s.worker.name))
  {
    if e.Work? {
      CallStore(c, s, e.bump);
      assert Step(c, s, e).store in {s.store, Call(c, s, e.bump).s.store};
    } else {
      OnlyWorkerStores(c, s, e);
    }
  }

  /** Every key in the store belongs to a live object that still carries the cleanup finalizer. */
  lemma {:induction false} NoOrphans(c: Compiler, es: seq<Event>, key: string)
    ensures var s := Run(c, Init(), es);
            key in s.store ==> exists n :: key == ArtifactKey(n) && Exists(s, n) && HasFinalizer(Live(s, n))
    decreases |es|
  {
    if es != [] {
      var s0, e, s := Run(c, Init(), es[..|es| - 1]), es[|es| - 1], Run(c, Init(), es);
      NoOrphans(c, es[..|es| - 1], key);
      NewKey(c, s0, e, key);
      ReachableInv(c, es);
      if key in s.store {
        var n :| key == ArtifactKey(n);
        assert NameOk(c, s, n);
      }
    }
  }
}
