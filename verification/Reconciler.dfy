/**
  The operator's own code: processNext and Reconcile as they are written, with
  the outside world moving between any two of their calls. Every execution is a
  run of the transition system, so every theorem about runs holds of it.
*/
module Reconciler {
  import opened Prelude
  import opened Cluster
  import opened Safety

  /** removeFinalizer: keep the other finalizers, compacting the slice in place. */
  method RemoveFinalizer(fs: array<string>, f: string) returns (kept: nat)
    modifies fs
    ensures kept <= fs.Length && fs[..kept] == Without(old(fs[..]), f)
  {
    kept := 0;
    ghost var was := fs[..];
    for i := 0 to fs.Length
      invariant kept <= i && forall j :: i <= j < fs.Length ==> fs[j] == was[j]
      invariant fs[..kept] == Without(was[..i], f)
    {
      WithoutSnoc(was[..i], was[i], f);
      assert was[..i + 1] == was[..i] + [was[i]];
      if fs[i] != f {
        ghost var before := fs[..kept];
        fs[kept] := fs[i];
        kept := kept + 1;
        assert fs[..kept] == before + [was[i]];
      }
    }
    assert was[..fs.Length] == was;
  }

  lemma {:induction false} WithoutSnoc(fs: seq<string>, x: string, f: string)
    ensures Without(fs + [x], f) == Without(fs, f) + if x == f then [] else [x]
  {
    if fs == [] {
      assert fs + [x] == [x];
    } else {
      assert (fs + [x])[1..] == fs[1..] + [x];
      WithoutSnoc(fs[1..], x, f);
    }
  }

  /** What anybody but the worker does. */
  predicate FromOutside(e: Event) {
    !e.Start? && !e.Work? && !e.Crash?
  }

  class Operator {
    const c: Compiler
    var world: State            // API server, cache, store, queue and clock; its worker field stays Idle
    ghost var trace: seq<Event> // everything that has happened since the beginning

    /** The transition system after the same events. */
    ghost function Machine(): State
      reads this
    {
      Run(c, Init(), trace)
    }

    /** The code and the transition system agree, and the worker stands at w. */
    ghost predicate At(w: Worker)
      reads this
    {
      world == Machine().(worker := Idle) && Machine().worker == w
    }

    /** A pass over n has just ended; processNext has yet to forget or requeue the key. */
    ghost predicate Ended(n: string, failed: bool)
      reads this
    {
      Machine() == Finish(world, n, failed)
    }

    constructor (c: Compiler)
      ensures this.c == c && At(Idle) && world == Init()
    {
      this.c := c;
      world := Init();
      trace := [];
    }

    ghost method Record(e: Event)
      modifies this`trace
      ensures trace == old(trace) + [e]
      ensures Machine() == Step(c, old(Machine()), e)
    {
      RunSnoc(c, Init(), trace, e);
      trace := trace + [e];
    }

    /** Any number of events from outside. */
    method Interfere(ghost w: Worker)
      requires At(w)
      modifies this
      ensures At(w) && old(trace) <= trace
    {
      var more: nat := *;
      while 0 < more
        invariant At(w) && old(trace) <= trace
      {
        var e: Event := *;
        if FromOutside(e) {
          OutsideIgnoresWorker(c, Machine(), e);
          world := Step(c, world, e);
          Record(e);
        }
        more := more - 1;
      }
    }

    /** The other side carries out the worker's call; res is what the code gets to see. */
    method Perform(ghost w: Worker, r: Reply, o: Outcome, bump: bool) returns (res: Option<CR>)
      requires At(w) && !w.Idle? && r == Reply(Call(c, Machine(), bump).s.(worker := Idle), Call(c, Machine(), bump).obj)
      modifies this
      ensures Machine() == Continue(c, world, w, res) && world.worker.Idle? && old(trace) <= trace
    {
      var seen := Observe(world, r, o);
      ContinueIgnoresWorker(c, Observe(Machine(), Call(c, Machine(), bump), o).s, w, seen.obj);
      Record(Work(o, bump));
      world := seen.s;
      res := seen.obj;
    }

    method Update(n: string, obj: CR, ghost w: Worker) returns (res: Option<CR>)
      requires At(w)
      requires !w.Idle?
      requires || (w == AddFinalizer(n, w.obj) && obj == WithFinalizer(w.obj))
               || (w == DropFinalizer(n, w.obj) && obj == w.obj.(finalizers := Without(w.obj.finalizers, FINALIZER)))
      modifies this
      ensures Machine() == Continue(c, world, w, res) && world.worker.Idle? && old(trace) <= trace
    {
      Interfere(w);
      UpdateIgnoresWorker(Machine(), n, obj);
      var o: Outcome := *;
      res := Perform(w, ApiUpdate(world, n, obj), o, false);
    }

    /** writeStatus: replace the status block and persist it. */
    method WriteStatus(n: string, obj: CR, status: Status, ghost w: Worker) returns (res: Option<CR>)
      requires At(w)
      requires || (w == MarkGenerating(n, obj) && status == GENERATING)
               || (w.MarkReady? && w.name == n && w.obj == obj && status == ReadyStatus(n, obj.generation))
               || (w.MarkFailed? && w.name == n && w.obj == obj && status == FAILED)
      modifies this
      ensures Machine() == Continue(c, world, w, res) && world.worker.Idle? && old(trace) <= trace
    {
      Interfere(w);
      var o: Outcome := *;
      res := Perform(w, ApiUpdateStatus(world, n, obj.(status := status)), o, false);
    }

    method Delete(n: string, ghost w: Worker) returns (ok: bool)
      requires At(w) && !w.Idle? && w == Reap(n, w.obj)
      modifies this
      ensures Ended(n, !ok) && world.worker.Idle? && old(trace) <= trace
    {
      Interfere(w);
      var o: Outcome := *;
      var bump: bool := *;
      DeleteIgnoresWorker(Machine(), n, bump);
      var res := Perform(w, ApiDelete(world, n, bump), o, bump);
      ok := res.Some?;
    }

    /** Uploader.Remove. */
    method Remove(n: string, obj: CR) returns (ok: bool)
      requires At(RemoveArtifact(n, obj))
      modifies this
      ensures if ok then At(DropFinalizer(n, obj)) else Ended(n, true) && world.worker.Idle?
      ensures old(trace) <= trace
    {
      Interfere(RemoveArtifact(n, obj));
      var o: Outcome := *;
      var res := Perform(RemoveArtifact(n, obj), Reply(world.(store := world.store - {ArtifactKey(n)}), Some(obj)), o, false);
      ok := res.Some?;
    }

    /** Uploader.Upload. */
    method Put(n: string, obj: CR, zip: string) returns (ok: bool)
      requires At(Upload(n, obj, zip))
      modifies this
      ensures At(if ok then MarkReady(n, obj, zip) else MarkFailed(n, obj, true)) && old(trace) <= trace
    {
      Interfere(Upload(n, obj, zip));
      var o: Outcome := *;
      var res := Perform(Upload(n, obj, zip), Reply(world.(store := world.store[ArtifactKey(n) := zip]), Some(obj)), o, false);
      ok := res.Some?;
    }

    /** Renderer.RenderZip: deterministic, but it may also fail for want of disk. */
    method RenderZip(n: string, obj: CR) returns (zip: Option<string>)
      requires At(Render(n, obj))
      modifies this
      ensures At(if zip.Some? then Upload(n, obj, zip.value) else MarkFailed(n, obj, true)) && old(trace) <= trace
      ensures zip.Some? ==> zip == c.render(obj.raw)
    {
      Interfere(Render(n, obj));
      var o: Outcome := *;
      var res := Perform(Render(n, obj), Reply(world, if c.render(obj.raw).Some? then Some(obj) else None), o, false);
      zip := if res.Some? then c.render(obj.raw) else None;
    }

    /** The deletion branch: remove the artifact, then drop the finalizer. */
    method CleanUp(n: string, snapshot: CR) returns (failed: bool)
      requires snapshot.deleting && HasFinalizer(snapshot) && At(RemoveArtifact(n, snapshot))
      modifies this
      ensures Ended(n, failed) && world.worker.Idle? && old(trace) <= trace
    {
      var removed := Remove(n, snapshot);
      if !removed {
        return true;
      }
      var fs := new string[|snapshot.finalizers|](i requires 0 <= i < |snapshot.finalizers| => snapshot.finalizers[i]);
      assert fs[..] == snapshot.finalizers;
      var kept := RemoveFinalizer(fs, FINALIZER);
      var dropped := Update(n, snapshot.(finalizers := fs[..kept]), DropFinalizer(n, snapshot));
      failed := dropped.None?;
    }

    /** The rest of a pass once the status is Generating: render, upload, report. */
    method Generate(n: string, obj: CR) returns (failed: bool)
      requires At(if c.accept(obj.raw) then Render(n, obj) else MarkFailed(n, obj, false))
      modifies this
      ensures Ended(n, failed) && world.worker.Idle? && old(trace) <= trace
    {
      if !c.accept(obj.raw) {
        var _ := WriteStatus(n, obj, FAILED, MarkFailed(n, obj, false));
        return false;
      }
      var zip := RenderZip(n, obj);
      if zip.None? {
        var _ := WriteStatus(n, obj, FAILED, MarkFailed(n, obj, true));
        return true;
      }
      var uploaded := Put(n, obj, zip.value);
      if !uploaded {
        var _ := WriteStatus(n, obj, FAILED, MarkFailed(n, obj, true));
        return true;
      }
      var ready := WriteStatus(n, obj, ReadyStatus(n, obj.generation), MarkReady(n, obj, zip.value));
      failed := ready.None?;
    }

    /** Drive one object towards its spec; failed asks for a requeue with backoff. */
    method Reconcile(n: string, snapshot: CR) returns (failed: bool)
      requires Cached(world, n) == Some(snapshot) && Machine() == Begin(world, n)
      requires world.worker.Idle?
      modifies this
      ensures Ended(n, failed) && world.worker.Idle? && old(trace) <= trace
    {
      var obj := snapshot;
      if obj.deleting {
        if !HasFinalizer(obj) {
          return false;
        }
        failed := CleanUp(n, obj);
        return;
      }

      if !HasFinalizer(obj) {
        var updated := Update(n, WithFinalizer(obj), AddFinalizer(n, obj));
        if updated.None? {
          return true;
        }
        obj := updated.value;
      }
      assert Machine() == Decide(world, n, obj);

      if Expired(obj.stamp, world.now) {
        var deleted := Delete(n, Reap(n, obj));
        return !deleted;
      }
      if ReadyCurrent(obj) {
        return false;
      }
      var marked := WriteStatus(n, obj, GENERATING, MarkGenerating(n, obj));
      if marked.None? {
        return true;
      }
      failed := Generate(n, marked.value);
    }

    /** One turn of the worker loop, for a key taken from the queue. */
    method ProcessNext(n: string)
      requires At(Idle) && n in world.queue
      modifies this
      ensures At(Idle) && old(trace) + [Start(n)] <= trace
    {
      Record(Start(n));
      world := world.(queue := world.queue - {n});
      var obj := Cached(world, n);
      if obj.None? {
        return;
      }
      var failed := Reconcile(n, obj.value);
      if failed {
        world := world.(queue := world.queue + {n});
      }
    }

    /**
      The worker loop over whatever the queue happens to hold. Whenever it is
      between passes, the freshness gate is sound and there are no orphans.
    */
    method WorkerLoop()
      requires At(Idle)
      modifies this
      ensures At(Idle) && Inv(c, world) && old(trace) <= trace
    {
      var more: nat := *;
      while 0 < more
        invariant At(Idle) && old(trace) <= trace
      {
        Interfere(Idle);
        if world.queue != {} {
          var n :| n in world.queue;
          ProcessNext(n);
        }
        more := more - 1;
      }
      ReachableInv(c, trace);
    }
  }

  lemma CommitIgnoresWorker(s: State, n: string, v: CR)
    ensures Commit(s.(worker := Idle), n, v) == Commit(s, n, v).(worker := Idle)
    ensures Commit(s, n, v).worker == s.worker
  {
  }

  lemma ApplyIgnoresWorker(s: State, n: string, raw: Json, stamp: Stamp)
    ensures ApiApply(s.(worker := Idle), n, raw, stamp) == ApiApply(s, n, raw, stamp).(worker := Idle)
    ensures ApiApply(s, n, raw, stamp).worker == s.worker
  {
    if Exists(s, n) {
      var cur := Live(s, n);
      CommitIgnoresWorker(s, n, cur.(raw := raw, stamp := stamp,
        generation := if raw == cur.raw then cur.generation else cur.generation + 1));
    } else {
      CommitIgnoresWorker(s.(nextUid := s.nextUid + 1), n, CR(s.nextUid, 0, 1, raw, [], false, stamp, NO_STATUS, false));
    }
  }

  lemma EditIgnoresWorker(s: State, n: string, fs: seq<string>, stamp: Stamp)
    ensures ApiEdit(s.(worker := Idle), n, fs, stamp) == ApiEdit(s, n, fs, stamp).(worker := Idle)
    ensures ApiEdit(s, n, fs, stamp).worker == s.worker
  {
  }

  lemma UpdateIgnoresWorker(s: State, n: string, obj: CR)
    ensures ApiUpdate(s.(worker := Idle), n, obj).s == ApiUpdate(s, n, obj).s.(worker := Idle)
    ensures ApiUpdate(s.(worker := Idle), n, obj).obj == ApiUpdate(s, n, obj).obj
  {
  }

  lemma DeleteIgnoresWorker(s: State, n: string, bump: bool)
    ensures ApiDelete(s.(worker := Idle), n, bump).s == ApiDelete(s, n, bump).s.(worker := Idle)
    ensures ApiDelete(s, n, bump).s.worker == s.worker
  {
  }

  /** Outside events act on everything but the worker, and do not look at it. */
  lemma OutsideIgnoresWorker(c: Compiler, s: State, e: Event)
    requires FromOutside(e)
    ensures Step(c, s.(worker := Idle), e) == Step(c, s, e).(worker := Idle)
    ensures Step(c, s, e).worker == s.worker
  {
    match e
    case Apply(n, raw, stamp) => ApplyIgnoresWorker(s, n, raw, stamp);
    case Edit(n, fs, stamp) => EditIgnoresWorker(s, n, fs, stamp);
    case UserDelete(n, bump) => DeleteIgnoresWorker(s, n, bump);
    case Deliver(n, count) => assert DeliverTo(s.(worker := Idle), n, count) == DeliverTo(s, n, count).(worker := Idle);
    case Tick(_) =>
    case Resync =>
  }

  lemma ContinueIgnoresWorker(c: Compiler, s: State, w: Worker, reply: Option<CR>)
    requires !w.Idle?
    ensures Continue(c, s.(worker := Idle), w, reply) == Continue(c, s, w, reply)
  {
  }
}
