/**
  The generation protocol: ChartpressConfig objects held by an API server with
  optimistic concurrency, an informer cache that lags behind it, an object
  store, a work queue, and the operator's single worker.

  Everything that can happen is an Event; Step is total (an event that is not
  enabled changes nothing), so a run is just a sequence of events.
*/
module Cluster {
  import opened Prelude

  const FINALIZER := "chartpress.dev/artifact-cleanup"

  // ----- objects ------------------------------------------------------------

  /** The expires-at annotation after time.Parse: absent, unparsable, or an instant. */
  datatype Stamp = NoStamp | Malformed | At(t: int)

  datatype Phase = Unset | Generating | Ready | Failed

  /** The managed status block; writeStatus always replaces it as a whole. */
  datatype Status = Status(phase: Phase, observed: Option<int>, artifact: Option<string>)

  const NO_STATUS := Status(Unset, None, None)
  const GENERATING := Status(Generating, None, None)
  const FAILED := Status(Failed, None, None)

  /** One version of a ChartpressConfig; gone marks the version its DELETE event carries. */
  datatype CR = CR(
    uid: nat, rv: nat, generation: int, raw: Json, finalizers: seq<string>,
    deleting: bool, stamp: Stamp, status: Status, gone: bool)

  /** decodeSpec + Validate, and the renderer: both deterministic functions of .spec. */
  datatype Compiler = Compiler(accept: Json -> bool, render: Json -> Option<string>)

  function Want(c: Compiler, raw: Json): Option<string> {
    if c.accept(raw) then c.render(raw) else None
  }

  function ArtifactKey(name: string): string {
    "charts/" + name + ".zip"
  }

  predicate HasFinalizer(cr: CR) {
    FINALIZER in cr.finalizers
  }

  function WithFinalizer(cr: CR): CR {
    if HasFinalizer(cr) then cr else cr.(finalizers := cr.finalizers + [FINALIZER])
  }

  function Without(fs: seq<string>, f: string): (r: seq<string>)
    ensures f !in r
    ensures forall x :: x in r <==> x in fs && x != f
  {
    if fs == [] then []
    else if fs[0] == f then Without(fs[1..], f)
    else [fs[0]] + Without(fs[1..], f)
  }

  predicate Expired(stamp: Stamp, now: int) {
    stamp.At? && now > stamp.t
  }

  /** The freshness gate shared by the operator's short-circuit, /charts and /files. */
  predicate ReadyCurrent(cr: CR) {
    cr.status.phase == Ready && (match cr.status.observed case Some(g) => g case None => 0) == cr.generation
  }

  function ReadyStatus(name: string, generation: int): Status {
    Status(Ready, Some(generation), Some(ArtifactKey(name)))
  }

  // ----- the world ----------------------------------------------------------

  /** Where the worker stands inside Reconcile: the call it is about to make. */
  datatype Worker =
    | Idle
    | RemoveArtifact(name: string, obj: CR)
    | DropFinalizer(name: string, obj: CR)
    | AddFinalizer(name: string, obj: CR)
    | Reap(name: string, obj: CR)
    | MarkGenerating(name: string, obj: CR)
    | Render(name: string, obj: CR)
    | Upload(name: string, obj: CR, zip: string)
    | MarkReady(name: string, obj: CR, zip: string)
    | MarkFailed(name: string, obj: CR, requeue: bool)

  datatype State = State(
    log: map<string, seq<CR>>,    // every version of a name, the last one is the API server's
    seen: map<string, nat>,       // how many of them the informer has delivered
    store: map<string, string>,   // object store: key -> bytes
    queue: set<string>,
    worker: Worker,
    now: int, nextRv: nat, nextUid: nat)

  function Init(): State {
    State(map[], map[], map[], {}, Idle, 0, 1, 1)
  }

  function Log(s: State, n: string): seq<CR> {
    if n in s.log then s.log[n] else []
  }

  function Seen(s: State, n: string): nat {
    if n in s.seen then s.seen[n] else 0
  }

  function Live(s: State, n: string): CR
    requires Log(s, n) != []
  {
    Log(s, n)[|Log(s, n)| - 1]
  }

  predicate Exists(s: State, n: string) {
    Log(s, n) != [] && !Live(s, n).gone
  }

  /** What the informer's indexer returns for a key. */
  function Cached(s: State, n: string): Option<CR> {
    if 0 < Seen(s, n) <= |Log(s, n)| && !Log(s, n)[Seen(s, n) - 1].gone
    then Some(Log(s, n)[Seen(s, n) - 1]) else None
  }

  // ----- API server ---------------------------------------------------------

  /** Persist v as the next version of n; a write that changes nothing is not a new version. */
  function Commit(s: State, n: string, v: CR): State {
    if Exists(s, n) && v.(rv := Live(s, n).rv) == Live(s, n) then s
    else s.(log := s.log[n := Log(s, n) + [v.(rv := s.nextRv)]], nextRv := s.nextRv + 1)
  }

  datatype Reply = Reply(s: State, obj: Option<CR>)

  /** Optimistic concurrency: a write succeeds only on the version it was computed from. */
  predicate Writable(s: State, n: string, obj: CR) {
    Exists(s, n) && Live(s, n).rv == obj.rv
  }

  function ApiUpdate(s: State, n: string, obj: CR): Reply {
    if !Writable(s, n, obj) then Reply(s, None)
    else
      var cur := Live(s, n);
      var s' := Commit(s, n, obj.(
          uid := cur.uid, status := cur.status, deleting := cur.deleting,
          generation := if obj.raw == cur.raw then cur.generation else cur.generation + 1,
          gone := cur.deleting && obj.finalizers == []));
      Reply(s', Some(Live(s', n)))
  }

  function ApiUpdateStatus(s: State, n: string, obj: CR): Reply {
    if !Writable(s, n, obj) then Reply(s, None)
    else
      var s' := Commit(s, n, Live(s, n).(status := obj.status));
      Reply(s', Some(Live(s', n)))
  }

  /** Delete by name, with no precondition; bump says whether the server bumps generation. */
  function ApiDelete(s: State, n: string, bump: bool): Reply {
    if !Exists(s, n) then Reply(s, None)
    else
      var cur := Live(s, n);
      var v := if cur.finalizers == [] then cur.(gone := true)
               else if cur.deleting then cur
               else cur.(deleting := true, generation := if bump then cur.generation + 1 else cur.generation);
      var s' := Commit(s, n, v);
      Reply(s', Some(Live(s', n)))
  }

  /** The backend's server-side apply: create, or replace spec and stamp. */
  function ApiApply(s: State, n: string, raw: Json, stamp: Stamp): State {
    if !Exists(s, n) then
      Commit(s.(nextUid := s.nextUid + 1), n, CR(s.nextUid, 0, 1, raw, [], false, stamp, NO_STATUS, false))
    else
      var cur := Live(s, n);
      Commit(s, n, cur.(raw := raw, stamp := stamp,
                        generation := if raw == cur.raw then cur.generation else cur.generation + 1))
  }

  /** Any other client's metadata edit: it may do anything but drop the cleanup finalizer. */
  function ApiEdit(s: State, n: string, finalizers: seq<string>, stamp: Stamp): State {
    if !Exists(s, n) || (HasFinalizer(Live(s, n)) && FINALIZER !in finalizers) then s
    else
      var cur := Live(s, n);
      Commit(s, n, cur.(finalizers := finalizers, stamp := stamp, gone := cur.deleting && finalizers == []))
  }

  // ----- events -------------------------------------------------------------

  /** How an I/O call ends: done, refused without effect, or done but reported as an error. */
  datatype Outcome = Done | Refused | LostReply

  datatype Event =
    | Apply(name: string, raw: Json, stamp: Stamp)
    | Edit(name: string, finalizers: seq<string>, stamp: Stamp)
    | UserDelete(name: string, bump: bool)
    | Tick(dt: nat)
    | Deliver(name: string, count: nat)
    | Resync
    | Crash
    | Start(name: string)
    | Work(outcome: Outcome, bump: bool)

  function DeliverTo(s: State, n: string, count: nat): State {
    if Seen(s, n) + count <= |Log(s, n)| && 0 < count
    then s.(seen := s.seen[n := Seen(s, n) + count], queue := s.queue + {n})
    else s
  }

  function Step(c: Compiler, s: State, e: Event): State {
    match e
    case Apply(n, raw, stamp) => ApiApply(s, n, raw, stamp)
    case Edit(n, fs, stamp) => ApiEdit(s, n, fs, stamp)
    case UserDelete(n, bump) => ApiDelete(s, n, bump).s
    case Tick(dt) => s.(now := s.now + dt)
    case Deliver(n, count) => DeliverTo(s, n, count)
    case Resync => s.(queue := s.queue + s.seen.Keys)
    case Crash => s.(worker := Idle, queue := s.log.Keys)
    case Start(n) =>
      if s.worker.Idle? && n in s.queue then Begin(s.(queue := s.queue - {n}), n) else s
    case Work(outcome, bump) => Proceed(c, s, outcome, bump)
  }

  function Run(c: Compiler, s: State, es: seq<Event>): State
    decreases |es|
  {
    if es == [] then s else Step(c, Run(c, s, es[..|es| - 1]), es[|es| - 1])
  }

  lemma RunSnoc(c: Compiler, s: State, es: seq<Event>, e: Event)
    ensures Run(c, s, es + [e]) == Step(c, Run(c, s, es), e)
  {
    assert (es + [e])[..|es|] == es;
  }

  lemma {:induction false} RunSplit(c: Compiler, s: State, a: seq<Event>, b: seq<Event>)
    ensures Run(c, s, a + b) == Run(c, Run(c, s, a), b)
    decreases |b|
  {
    if b == [] {
      assert a + b == a;
    } else {
      assert a + b == (a + b[..|b| - 1]) + [b[|b| - 1]];
      RunSnoc(c, s, a + b[..|b| - 1], b[|b| - 1]);
      RunSplit(c, s, a, b[..|b| - 1]);
    }
  }

  // ----- Reconcile, one call at a time ---------------------------------------

  function Finish(s: State, n: string, failed: bool): State {
    s.(worker := Idle, queue := if failed then s.queue + {n} else s.queue)
  }

  /** processNext: fetch the cached object and enter Reconcile. */
  function Begin(s: State, n: string): State {
    match Cached(s, n)
    case None => s
    case Some(obj) =>
      if obj.deleting then
        if HasFinalizer(obj) then s.(worker := RemoveArtifact(n, obj)) else s
      else if !HasFinalizer(obj) then s.(worker := AddFinalizer(n, obj))
      else Decide(s, n, obj)
  }

  /** The part of Reconcile after the finalizer is in place. */
  function Decide(s: State, n: string, obj: CR): State {
    if Expired(obj.stamp, s.now) then s.(worker := Reap(n, obj))
    else if ReadyCurrent(obj) then Finish(s, n, false)
    else s.(worker := MarkGenerating(n, obj))
  }

  /** The call the worker is about to make, as the other side carries it out; None is an error. */
  function Call(c: Compiler, s: State, bump: bool): Reply {
    match s.worker
    case Idle => Reply(s, None)
    case RemoveArtifact(n, obj) => Reply(s.(store := s.store - {ArtifactKey(n)}), Some(obj))
    case DropFinalizer(n, obj) => ApiUpdate(s, n, obj.(finalizers := Without(obj.finalizers, FINALIZER)))
    case AddFinalizer(n, obj) => ApiUpdate(s, n, WithFinalizer(obj))
    case Reap(n, _) => ApiDelete(s, n, bump)
    case MarkGenerating(n, obj) => ApiUpdateStatus(s, n, obj.(status := GENERATING))
    case Render(_, obj) => Reply(s, if c.render(obj.raw).Some? then Some(obj) else None)
    case Upload(n, obj, zip) => Reply(s.(store := s.store[ArtifactKey(n) := zip]), Some(obj))
    case MarkReady(n, obj, _) => ApiUpdateStatus(s, n, obj.(status := ReadyStatus(n, obj.generation)))
    case MarkFailed(n, obj, _) => ApiUpdateStatus(s, n, obj.(status := FAILED))
  }

  /** What the caller sees of a reply under an outcome. */
  function Observe(s: State, r: Reply, o: Outcome): Reply {
    match o
    case Done => r
    case Refused => Reply(s, None)
    case LostReply => Reply(r.s, None)
  }

  /** How Reconcile goes on after its call returned: the next call, or the end of the pass. */
  function Continue(c: Compiler, s: State, w: Worker, reply: Option<CR>): (s': State)
    ensures s'.log == s.log && s'.seen == s.seen && s'.store == s.store && s.queue <= s'.queue
    ensures s'.now == s.now && s'.nextRv == s.nextRv && s'.nextUid == s.nextUid
  {
    match w
    case Idle => s
    case RemoveArtifact(n, obj) =>
      if reply.Some? then s.(worker := DropFinalizer(n, obj)) else Finish(s, n, true)
    case DropFinalizer(n, _) => Finish(s, n, reply.None?)
    case AddFinalizer(n, _) =>
      if reply.Some? then Decide(s, n, reply.value) else Finish(s, n, true)
    case Reap(n, _) => Finish(s, n, reply.None?)
    case MarkGenerating(n, _) =>
      if reply.None? then Finish(s, n, true)
      else if c.accept(reply.value.raw) then s.(worker := Render(n, reply.value))
      else s.(worker := MarkFailed(n, reply.value, false))
    case Render(n, obj) =>
      if reply.Some? && c.render(obj.raw).Some? then s.(worker := Upload(n, obj, c.render(obj.raw).value))
      else s.(worker := MarkFailed(n, obj, true))
    case Upload(n, obj, zip) =>
      s.(worker := if reply.Some? then MarkReady(n, obj, zip) else MarkFailed(n, obj, true))
    case MarkReady(n, _, _) => Finish(s, n, reply.None?)
    case MarkFailed(n, _, requeue) => Finish(s, n, requeue)
  }

  function Proceed(c: Compiler, s: State, o: Outcome, bump: bool): (s': State)
    ensures s'.log == s.log || s'.log == Call(c, s, bump).s.log
    ensures s'.store == s.store || s'.store == Call(c, s, bump).s.store
  {
    var r := Observe(s, Call(c, s, bump), o);
    Continue(c, r.s, s.worker, r.obj)
  }
}
