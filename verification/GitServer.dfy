/** The git server's requests as a transition system: each step is one lock section, one call of the
    work queue, one operation on the store, or one delayed requeue. */
module GitServer {
  import opened Core

  type Key = string

  datatype Action = Fetching | Deleting

  /** What the manager keeps of a repository. An error only records whether it may be retried. */
  datatype State = State(
    origin: string, desired: Option<Action>, revision: nat, available: bool, retries: nat, error: Option<bool>, pending: bool)

  datatype Snapshot = Snapshot(action: Option<Action>, origin: string, revision: nat)

  /** Where a worker is with its item. */
  datatype Phase =
    | Taken
    | Working(snap: Snapshot)
    | Operated(snap: Snapshot, ok: bool, retryable: bool)
    | Retrying
    | Finished

  datatype Job = Job(key: Key, phase: Phase)

  /** The work queue: an item is dirty from its addition until a worker gets it, and queued while it is
      dirty and not being processed. */
  datatype Queue = Queue(items: seq<Key>, dirty: set<Key>, processing: set<Key>, delayed: set<Key>)

  type States = map<Key, State>
  type Jobs = map<nat, Job>
  type Adders = map<nat, Key>

  /** The store maps each published repository to the request that last brought its content. */
  type Store = map<Key, nat>

  datatype Server = Server(states: States, store: Store, queue: Queue, jobs: Jobs, adders: Adders)

  // ----- the work queue -----

  function Added(q: Queue, key: Key): Queue {
    if key in q.dirty then q
    else if key in q.processing then q.(dirty := q.dirty + {key})
    else q.(dirty := q.dirty + {key}, items := q.items + [key])
  }

  function Got(q: Queue): Queue
    requires |q.items| > 0
  {
    q.(items := q.items[1..], dirty := q.dirty - {q.items[0]}, processing := q.processing + {q.items[0]})
  }

  function DoneWith(q: Queue, key: Key): Queue {
    q.(processing := q.processing - {key}, items := if key in q.dirty then q.items + [key] else q.items)
  }

  // ----- requests -----

  const NEW := State("", None, 0, false, 0, None, false)

  function StateOf(s: Server, key: Key): State {
    if key in s.states then s.states[key] else NEW
  }

  function Requested(t: State, action: Action, origin: string): State {
    t.(revision := t.revision + 1, desired := Some(action), origin := origin, pending := true, error := None, retries := 0)
  }

  /** A request to sync; while one is pending, another changes nothing. The queue is told later. */
  predicate SyncStep(s: Server, key: Key, origin: string, a: nat, v: Server) {
    var t := StateOf(s, key);
    a !in s.adders &&
    if t.desired == Some(Fetching) && t.pending then v == s.(states := s.states[key := t])
    else v == s.(states := s.states[key := Requested(t, Fetching, origin)], adders := s.adders[a := key])
  }

  predicate DeleteStep(s: Server, key: Key, a: nat, v: Server) {
    a !in s.adders &&
    if key !in s.states then v == s
    else
      v == s.(states := s.states[key := Requested(s.states[key], Deleting, s.states[key].origin)],
              adders := s.adders[a := key])
  }

  predicate AddStep(s: Server, a: nat, v: Server) {
    a in s.adders && v == s.(queue := Added(s.queue, s.adders[a]), adders := s.adders - {a})
  }

  predicate DelayStep(s: Server, key: Key, v: Server) {
    key in s.queue.delayed && v == s.(queue := Added(s.queue.(delayed := s.queue.delayed - {key}), key))
  }

  // ----- workers -----

  predicate GetStep(s: Server, w: nat, v: Server) {
    w !in s.jobs && |s.queue.items| > 0 &&
    v == s.(queue := Got(s.queue), jobs := s.jobs[w := Job(s.queue.items[0], Taken)])
  }

  function InPhase(s: Server, w: nat, phase: Phase): Server
    requires w in s.jobs
  {
    s.(jobs := s.jobs[w := s.jobs[w].(phase := phase)])
  }

  predicate SnapStep(s: Server, w: nat, v: Server) {
    w in s.jobs && s.jobs[w].phase.Taken? &&
    var key := s.jobs[w].key;
    if key !in s.states then v == InPhase(s, w, Finished)
    else
      var t := s.states[key];
      v == InPhase(s, w, Working(Snapshot(t.desired, t.origin, t.revision)))
  }

  /** What an operation may leave in the store. A failing one may have had its effect. */
  predicate Effect(store: Store, key: Key, snap: Snapshot, ok: bool, after: Store) {
    match snap.action
    case Some(Fetching) => after == store[key := snap.revision] || (!ok && after == store)
    case Some(Deleting) => after == store - {key} || (!ok && after == store)
    case None => !ok && after == store
  }

  predicate OperateStep(s: Server, w: nat, ok: bool, retryable: bool, v: Server) {
    w in s.jobs && s.jobs[w].phase.Working? &&
    var snap := s.jobs[w].phase.snap;
    (snap.action.None? ==> !retryable) && Effect(s.store, s.jobs[w].key, snap, ok, v.store) &&
    v == InPhase(s, w, Operated(snap, ok, retryable)).(store := v.store)
  }

  /** What a result makes of the state, and whether the item is retried. */
  function Concluded(t: State, snap: Snapshot, ok: bool, retryable: bool, maxRetries: nat): (State, bool) {
    var u := if !ok then t else t.(available := snap.action == Some(Fetching));
    if t.revision != snap.revision then (u, false)
    else if ok then (u.(error := None, retries := 0, pending := false), false)
    else if retryable && t.retries < maxRetries then (u.(error := Some(true), retries := t.retries + 1), true)
    else (u.(error := Some(retryable), pending := false), false)
  }

  predicate ConcludeStep(s: Server, w: nat, maxRetries: nat, v: Server) {
    w in s.jobs && s.jobs[w].phase.Operated? && s.jobs[w].key in s.states &&
    var key, p := s.jobs[w].key, s.jobs[w].phase;
    var r := Concluded(s.states[key], p.snap, p.ok, p.retryable, maxRetries);
    v == InPhase(s, w, if r.1 then Retrying else Finished).(states := s.states[key := r.0])
  }

  predicate RequeueStep(s: Server, w: nat, v: Server) {
    w in s.jobs && s.jobs[w].phase.Retrying? &&
    v == InPhase(s, w, Finished).(queue := s.queue.(delayed := s.queue.delayed + {s.jobs[w].key}))
  }

  predicate DoneStep(s: Server, w: nat, v: Server) {
    w in s.jobs && s.jobs[w].phase.Finished? &&
    v == s.(queue := DoneWith(s.queue, s.jobs[w].key), jobs := s.jobs - {w})
  }

  datatype Step =
    | Sync(key: Key, origin: string, a: nat) | Delete(key: Key, a: nat) | Add(a: nat) | Delay(key: Key)
    | Get(w: nat) | Snap(w: nat) | Operate(w: nat, ok: bool, retryable: bool) | Conclude(w: nat) | Requeue(w: nat) | Done(w: nat)

  predicate Next(maxRetries: nat, s: Server, step: Step, v: Server) {
    match step
    case Sync(key, origin, a) => SyncStep(s, key, origin, a, v)
    case Delete(key, a) => DeleteStep(s, key, a, v)
    case Add(a) => AddStep(s, a, v)
    case Delay(key) => DelayStep(s, key, v)
    case Get(w) => GetStep(s, w, v)
    case Snap(w) => SnapStep(s, w, v)
    case Operate(w, ok, retryable) => OperateStep(s, w, ok, retryable, v)
    case Conclude(w) => ConcludeStep(s, w, maxRetries, v)
    case Requeue(w) => RequeueStep(s, w, v)
    case Done(w) => DoneStep(s, w, v)
  }

  // ----- the invariant -----

  ghost predicate QueueSound(q: Queue) {
    (forall i, k :: 0 <= i < k < |q.items| ==> q.items[i] != q.items[k]) &&
    forall key :: key in q.items <==> key in q.dirty && key !in q.processing
  }

  /** The store shows that the request has been served. */
  predicate Served(store: Store, key: Key, t: State) {
    match t.desired
    case Some(Fetching) => key in store && store[key] == t.revision
    case Some(Deleting) => key !in store
    case None => true
  }

  predicate SnapSound(states: States, store: Store, key: Key, snap: Snapshot, ok: bool) {
    key in states &&
    var t := states[key];
    snap.revision <= t.revision && (snap.revision < t.revision ==> t.pending) &&
    (snap.revision == t.revision ==> snap.action == t.desired && (ok ==> Served(store, key, t)))
  }

  predicate JobSound(states: States, store: Store, processing: set<Key>, job: Job) {
    job.key in processing &&
    match job.phase
    case Working(snap) => SnapSound(states, store, job.key, snap, false)
    case Operated(snap, ok, retryable) => SnapSound(states, store, job.key, snap, ok) && (snap.action.None? ==> !ok)
    case _ => true
  }

  ghost predicate JobsSound(states: States, store: Store, processing: set<Key>, jobs: Jobs) {
    (forall w :: w in jobs ==> JobSound(states, store, processing, jobs[w])) &&
    forall w, x :: w in jobs && x in jobs && w != x ==> jobs[w].key != jobs[x].key
  }

  /** The worker will still look at, conclude or requeue the current request. */
  predicate Carries(jobs: Jobs, w: nat, key: Key, revision: nat) {
    w in jobs && jobs[w].key == key &&
    match jobs[w].phase
    case Working(snap) => snap.revision == revision
    case Operated(snap, ok, retryable) => snap.revision == revision
    case Finished => false
    case _ => true
  }

  predicate Adds(adders: Adders, a: nat, key: Key) {
    a in adders && adders[a] == key
  }

  /** The key is queued, delayed, in process or about to be added. */
  ghost predicate InMotion(q: Queue, jobs: Jobs, adders: Adders, key: Key, revision: nat) {
    key in q.dirty || key in q.delayed || (exists a :: Adds(adders, a, key)) || exists w :: Carries(jobs, w, key, revision)
  }

  /** A request that is not pending has been served or has an error. */
  predicate StateSound(maxRetries: nat, store: Store, key: Key, t: State) {
    t.retries <= maxRetries && (t.pending ==> t.desired.Some?) &&
    (t.desired.Some? && !t.pending && t.error.None? ==> Served(store, key, t) && (t.available <==> t.desired == Some(Fetching)))
  }

  ghost predicate StatesSound(maxRetries: nat, states: States, store: Store) {
    forall key :: key in states ==> StateSound(maxRetries, store, key, states[key])
  }

  /** There is still something to do: the request is pending, or it has failed and is to be retried. */
  predicate Unsettled(maxRetries: nat, t: State) {
    t.pending || (t.error == Some(true) && t.retries < maxRetries)
  }

  ghost predicate PendingSound(maxRetries: nat, states: States, q: Queue, jobs: Jobs, adders: Adders) {
    forall key :: key in states && Unsettled(maxRetries, states[key]) ==> InMotion(q, jobs, adders, key, states[key].revision)
  }

  ghost predicate Invariant(maxRetries: nat, s: Server) {
    QueueSound(s.queue) && JobsSound(s.states, s.store, s.queue.processing, s.jobs) &&
    StatesSound(maxRetries, s.states, s.store) && PendingSound(maxRetries, s.states, s.queue, s.jobs, s.adders)
  }

  // ----- requests and the queue -----

  lemma RequestKeeps(maxRetries: nat, s: Server, key: Key, t: State, a: nat)
    requires Invariant(maxRetries, s) && a !in s.adders && t.pending && t.desired.Some? && t.retries == 0
    requires t.revision == StateOf(s, key).revision + 1
    ensures Invariant(maxRetries, s.(states := s.states[key := t], adders := s.adders[a := key]))
  {
    var v := s.(states := s.states[key := t], adders := s.adders[a := key]);
    forall w | w in v.jobs ensures JobSound(v.states, v.store, v.queue.processing, v.jobs[w]) {
      assert JobSound(s.states, s.store, s.queue.processing, s.jobs[w]);
    }
    forall k | k in v.states && Unsettled(maxRetries, v.states[k]) ensures InMotion(v.queue, v.jobs, v.adders, k, v.states[k].revision) {
      if k == key { assert Adds(v.adders, a, key); } else { MotionStays(s, v, k); }
    }
  }

  /** Nothing that moves another key is lost. */
  lemma MotionStays(s: Server, v: Server, k: Key)
    requires k in s.states && InMotion(s.queue, s.jobs, s.adders, k, s.states[k].revision)
    requires k in v.states && v.states[k].revision == s.states[k].revision
    requires k in s.queue.dirty ==> k in v.queue.dirty
    requires k in s.queue.delayed ==> k in v.queue.delayed
    requires forall a :: Adds(s.adders, a, k) ==> Adds(v.adders, a, k)
    requires forall w :: Carries(s.jobs, w, k, s.states[k].revision) ==> Carries(v.jobs, w, k, s.states[k].revision)
    ensures InMotion(v.queue, v.jobs, v.adders, k, v.states[k].revision)
  {
    if exists a :: Adds(s.adders, a, k) {
      var a :| Adds(s.adders, a, k);
      assert Adds(v.adders, a, k);
    }
    if exists w :: Carries(s.jobs, w, k, s.states[k].revision) {
      var w :| Carries(s.jobs, w, k, s.states[k].revision);
      assert Carries(v.jobs, w, k, s.states[k].revision);
    }
  }

  lemma AddedIsSound(q: Queue, key: Key)
    requires QueueSound(q)
    ensures QueueSound(Added(q, key)) && key in Added(q, key).dirty && q.dirty <= Added(q, key).dirty
    ensures Added(q, key).processing == q.processing && Added(q, key).delayed == q.delayed
  {
  }

  lemma AddKeeps(maxRetries: nat, s: Server, a: nat, v: Server)
    requires Invariant(maxRetries, s) && AddStep(s, a, v)
    ensures Invariant(maxRetries, v)
  {
    AddedIsSound(s.queue, s.adders[a]);
    forall k | k in v.states && Unsettled(maxRetries, v.states[k]) ensures InMotion(v.queue, v.jobs, v.adders, k, v.states[k].revision) {
      if k != s.adders[a] { MotionStays(s, v, k); }
    }
  }

  lemma DelayKeeps(maxRetries: nat, s: Server, key: Key, v: Server)
    requires Invariant(maxRetries, s) && DelayStep(s, key, v)
    ensures Invariant(maxRetries, v)
  {
    AddedIsSound(s.queue.(delayed := s.queue.delayed - {key}), key);
    forall k | k in v.states && Unsettled(maxRetries, v.states[k]) ensures InMotion(v.queue, v.jobs, v.adders, k, v.states[k].revision) {
      if k != key { MotionStays(s, v, k); }
    }
  }

  lemma GotIsSound(q: Queue)
    requires QueueSound(q) && |q.items| > 0
    ensures QueueSound(Got(q)) && q.items[0] !in q.processing && q.items[0] in q.dirty
  {
    var key := q.items[0];
    assert key in q.items;
    forall k ensures k in q.items[1..] <==> k in q.items && k != key {
      if k in q.items && k != key {
        var i :| 0 <= i < |q.items| && q.items[i] == k;
        assert q.items[1..][i - 1] == k;
      }
      if k in q.items[1..] {
        var i :| 0 <= i < |q.items| - 1 && q.items[1..][i] == k;
        assert q.items[i + 1] == k;
      }
    }
  }

  lemma GetKeeps(maxRetries: nat, s: Server, w: nat, v: Server)
    requires Invariant(maxRetries, s) && GetStep(s, w, v)
    ensures Invariant(maxRetries, v)
  {
    var key := s.queue.items[0];
    GotIsSound(s.queue);
    forall x | x in v.jobs ensures JobSound(v.states, v.store, v.queue.processing, v.jobs[x]) {
      if x != w { assert JobSound(s.states, s.store, s.queue.processing, s.jobs[x]); }
    }
    forall k | k in v.states && Unsettled(maxRetries, v.states[k]) ensures InMotion(v.queue, v.jobs, v.adders, k, v.states[k].revision) {
      if k == key { assert Carries(v.jobs, w, k, v.states[k].revision); } else { MotionStays(s, v, k); }
    }
  }

  // ----- workers -----

  /** A worker changes phase, and the state and store of its key, without dropping a pending request. */
  lemma WorkerKeeps(maxRetries: nat, s: Server, w: nat, v: Server)
    requires Invariant(maxRetries, s) && w in s.jobs && w in v.jobs && v.jobs[w].key == s.jobs[w].key
    requires v.jobs == s.jobs[w := v.jobs[w]] && v.adders == s.adders
    requires v.queue == s.queue || v.queue == s.queue.(delayed := s.queue.delayed + {s.jobs[w].key})
    requires forall k :: k != s.jobs[w].key ==>
      (k in v.states <==> k in s.states) && (k in s.states ==> v.states[k] == s.states[k]) &&
      (k in v.store <==> k in s.store) && (k in s.store ==> v.store[k] == s.store[k])
    requires var key := s.jobs[w].key; key in v.states ==>
      key in s.states && v.states[key].revision == s.states[key].revision &&
      StateSound(maxRetries, v.store, key, v.states[key]) &&
      (Unsettled(maxRetries, v.states[key]) ==>
        key in v.queue.delayed || Carries(v.jobs, w, key, v.states[key].revision) ||
        (Unsettled(maxRetries, s.states[key]) && !Carries(s.jobs, w, key, v.states[key].revision)))
    requires JobSound(v.states, v.store, v.queue.processing, v.jobs[w])
    ensures Invariant(maxRetries, v)
  {
    var key := s.jobs[w].key;
    forall x | x in v.jobs ensures JobSound(v.states, v.store, v.queue.processing, v.jobs[x]) {
      if x != w { assert JobSound(s.states, s.store, s.queue.processing, s.jobs[x]); }
    }
    forall k | k in v.states && Unsettled(maxRetries, v.states[k]) ensures InMotion(v.queue, v.jobs, v.adders, k, v.states[k].revision) {
      if k != key || !(k in v.queue.delayed || Carries(v.jobs, w, k, v.states[k].revision)) { MotionStays(s, v, k); }
    }
    forall k | k in v.states ensures StateSound(maxRetries, v.store, k, v.states[k]) {
      if k != key { assert StateSound(maxRetries, s.store, k, s.states[k]); }
    }
  }

  lemma SnapKeeps(maxRetries: nat, s: Server, w: nat, v: Server)
    requires Invariant(maxRetries, s) && SnapStep(s, w, v)
    ensures Invariant(maxRetries, v)
  {
    assert JobSound(s.states, s.store, s.queue.processing, s.jobs[w]);
    WorkerKeeps(maxRetries, s, w, v);
  }

  lemma OperateKeeps(maxRetries: nat, s: Server, w: nat, ok: bool, retryable: bool, v: Server)
    requires Invariant(maxRetries, s) && OperateStep(s, w, ok, retryable, v)
    ensures Invariant(maxRetries, v)
  {
    assert JobSound(s.states, s.store, s.queue.processing, s.jobs[w]);
    assert StateSound(maxRetries, s.store, s.jobs[w].key, s.states[s.jobs[w].key]);
    WorkerKeeps(maxRetries, s, w, v);
  }

  lemma ConcludeKeeps(maxRetries: nat, s: Server, w: nat, v: Server)
    requires Invariant(maxRetries, s) && ConcludeStep(s, w, maxRetries, v)
    ensures Invariant(maxRetries, v)
  {
    assert JobSound(s.states, s.store, s.queue.processing, s.jobs[w]);
    assert StateSound(maxRetries, s.store, s.jobs[w].key, s.states[s.jobs[w].key]);
    WorkerKeeps(maxRetries, s, w, v);
  }

  lemma RequeueKeeps(maxRetries: nat, s: Server, w: nat, v: Server)
    requires Invariant(maxRetries, s) && RequeueStep(s, w, v)
    ensures Invariant(maxRetries, v)
  {
    assert JobSound(s.states, s.store, s.queue.processing, s.jobs[w]);
    WorkerKeeps(maxRetries, s, w, v);
  }

  lemma DoneKeeps(maxRetries: nat, s: Server, w: nat, v: Server)
    requires Invariant(maxRetries, s) && DoneStep(s, w, v)
    ensures Invariant(maxRetries, v)
  {
    var key := s.jobs[w].key;
    assert JobSound(s.states, s.store, s.queue.processing, s.jobs[w]);
    forall x | x in v.jobs ensures JobSound(v.states, v.store, v.queue.processing, v.jobs[x]) {
      assert JobSound(s.states, s.store, s.queue.processing, s.jobs[x]);
    }
    forall k | k in v.states && Unsettled(maxRetries, v.states[k]) ensures InMotion(v.queue, v.jobs, v.adders, k, v.states[k].revision) {
      MotionStays(s, v, k);
    }
  }

  lemma StepKeeps(maxRetries: nat, s: Server, step: Step, v: Server)
    requires Invariant(maxRetries, s) && Next(maxRetries, s, step, v)
    ensures Invariant(maxRetries, v)
  {
    match step
    case Sync(key, origin, a) =>
      var t := StateOf(s, key);
      if t.desired == Some(Fetching) && t.pending {
        assert s.states[key := t] == s.states;
      } else {
        RequestKeeps(maxRetries, s, key, Requested(t, Fetching, origin), a);
      }
    case Delete(key, a) =>
      if key in s.states { RequestKeeps(maxRetries, s, key, Requested(s.states[key], Deleting, s.states[key].origin), a); }
    case Add(a) => AddKeeps(maxRetries, s, a, v);
    case Delay(key) => DelayKeeps(maxRetries, s, key, v);
    case Get(w) => GetKeeps(maxRetries, s, w, v);
    case Snap(w) => SnapKeeps(maxRetries, s, w, v);
    case Operate(w, ok, retryable) => OperateKeeps(maxRetries, s, w, ok, retryable, v);
    case Conclude(w) => ConcludeKeeps(maxRetries, s, w, v);
    case Requeue(w) => RequeueKeeps(maxRetries, s, w, v);
    case Done(w) => DoneKeeps(maxRetries, s, w, v);
  }

  // ----- the promises, over every run -----

  /** A server as it starts: it knows the repositories that are in the store, and nobody has asked for
      anything. */
  ghost predicate Starting(s: Server) {
    s.queue == Queue([], {}, {}, {}) && s.jobs == map[] && s.adders == map[] &&
    forall key :: key in s.states ==> key in s.store && s.states[key] == NEW.(origin := s.states[key].origin, available := true)
  }

  ghost predicate Steps(maxRetries: nat, run: seq<Server>, steps: seq<Step>, i: nat)
    requires |run| == |steps| + 1 && i < |steps|
  {
    Next(maxRetries, run[i], steps[i], run[i + 1])
  }

  ghost predicate IsRun(maxRetries: nat, run: seq<Server>, steps: seq<Step>) {
    |run| == |steps| + 1 && Starting(run[0]) && forall i: nat :: i < |steps| ==> Steps(maxRetries, run, steps, i)
  }

  lemma {:induction false} InvariantHolds(maxRetries: nat, run: seq<Server>, steps: seq<Step>, i: nat)
    requires IsRun(maxRetries, run, steps) && i < |run|
    ensures Invariant(maxRetries, run[i])
    decreases i
  {
    if i > 0 {
      InvariantHolds(maxRetries, run, steps, i - 1);
      assert Steps(maxRetries, run, steps, i - 1);
      StepKeeps(maxRetries, run[i - 1], steps[i - 1], run[i]);
    }
  }

  /** Nothing is queued, delayed, in process or about to be added for the key. */
  ghost predicate Quiet(s: Server, key: Key) {
    key !in s.queue.items && key !in s.queue.delayed && key !in s.queue.processing && forall a :: !Adds(s.adders, a, key)
  }

  /** The latest request wins: a quiet key is not pending, and the store reflects its last accepted
      request, a sync by content fetched for that very request, unless an error says why not. An error that
      may be retried is the end only when all retries have been used. */
  lemma LatestRequestWins(maxRetries: nat, run: seq<Server>, steps: seq<Step>, i: nat, key: Key)
    requires IsRun(maxRetries, run, steps) && i < |run| && Quiet(run[i], key) && key in run[i].states
    ensures !run[i].states[key].pending && (run[i].states[key].error == Some(true) ==> run[i].states[key].retries == maxRetries)
    ensures var t := run[i].states[key];
      t.error.Some? || t.desired.None? ||
      (Served(run[i].store, key, t) && (t.available <==> t.desired == Some(Fetching)))
  {
    InvariantHolds(maxRetries, run, steps, i);
    QuietIsIdle(maxRetries, run[i], key);
    assert StateSound(maxRetries, run[i].store, key, run[i].states[key]);
  }

  /** Over every run, a request whose error may be retried has used all its retries, or is still in
      motion: queued, delayed, with a worker, or about to be added. */
  lemma RetriesAreUsed(maxRetries: nat, run: seq<Server>, steps: seq<Step>, i: nat, key: Key)
    requires IsRun(maxRetries, run, steps) && i < |run| && key in run[i].states && run[i].states[key].error == Some(true)
    ensures var t, s := run[i].states[key], run[i];
      t.retries == maxRetries || InMotion(s.queue, s.jobs, s.adders, key, t.revision)
  {
    InvariantHolds(maxRetries, run, steps, i);
    assert StateSound(maxRetries, run[i].store, key, run[i].states[key]);
  }

  lemma QuietIsIdle(maxRetries: nat, s: Server, key: Key)
    requires Invariant(maxRetries, s) && Quiet(s, key) && key in s.states
    ensures !Unsettled(maxRetries, s.states[key])
  {
    assert forall w :: w in s.jobs ==> JobSound(s.states, s.store, s.queue.processing, s.jobs[w]);
  }

  /** At most one worker processes a key at a time, and no request is retried more often than allowed. */
  lemma OneWorkerPerKey(maxRetries: nat, run: seq<Server>, steps: seq<Step>, i: nat, w: nat, x: nat, key: Key)
    requires IsRun(maxRetries, run, steps) && i < |run| && w in run[i].jobs && x in run[i].jobs
    ensures run[i].jobs[w].key == run[i].jobs[x].key ==> w == x
    ensures key in run[i].states ==> run[i].states[key].retries <= maxRetries
  {
    InvariantHolds(maxRetries, run, steps, i);
    if key in run[i].states { assert StateSound(maxRetries, run[i].store, key, run[i].states[key]); }
  }

  // ----- what a quiet server does -----

  /** A run with one step more. */
  lemma Longer(maxRetries: nat, run: seq<Server>, steps: seq<Step>, step: Step, v: Server)
      returns (longer: seq<Server>, done: seq<Step>)
    requires IsRun(maxRetries, run, steps) && Next(maxRetries, run[|steps|], step, v)
    ensures IsRun(maxRetries, longer, done) && longer == run + [v] && done == steps + [step]
  {
    longer, done := run + [v], steps + [step];
    forall i: nat | i < |done| ensures Steps(maxRetries, longer, done, i) {
      if i < |steps| {
        assert Steps(maxRetries, run, steps, i);
        assert longer[i] == run[i] && longer[i + 1] == run[i + 1] && done[i] == steps[i];
      }
    }
  }

  /** The key is at the head of the queue, with a request, and the worker is idle. */
  predicate Waiting(s: Server, w: nat, key: Key) {
    w !in s.jobs && |s.queue.items| > 0 && s.queue.items[0] == key && key in s.states && s.states[key].desired.Some?
  }

  /** The worker has the current request. */
  predicate AtWork(s: Server, w: nat, key: Key) {
    w in s.jobs && key in s.states && s.states[key].desired.Some? &&
    s.jobs[w] == Job(key, Working(Snapshot(s.states[key].desired, s.states[key].origin, s.states[key].revision)))
  }

  lemma WorkBegins(maxRetries: nat, run: seq<Server>, steps: seq<Step>, w: nat, key: Key)
      returns (longer: seq<Server>, done: seq<Step>)
    requires IsRun(maxRetries, run, steps) && Waiting(run[|steps|], w, key)
    ensures IsRun(maxRetries, longer, done) && run <= longer && |done| == |steps| + 2
    ensures var s, v := run[|steps|], longer[|done|];
      AtWork(v, w, key) && v == s.(queue := Got(s.queue), jobs := s.jobs[w := v.jobs[w]])
  {
    var s := run[|steps|];
    var t := s.states[key];
    longer, done := Longer(maxRetries, run, steps, Get(w), s.(queue := Got(s.queue), jobs := s.jobs[w := Job(key, Taken)]));
    longer, done := Longer(maxRetries, longer, done, Snap(w),
                           InPhase(longer[|done|], w, Working(Snapshot(t.desired, t.origin, t.revision))));
  }

  /** A worker that takes the request of a key, and whose operation succeeds, serves it: the request is
      pending no more, without an error, and the store shows it. */
  lemma SuccessServes(maxRetries: nat, run: seq<Server>, steps: seq<Step>, w: nat, key: Key)
      returns (longer: seq<Server>, done: seq<Step>)
    requires IsRun(maxRetries, run, steps) && Waiting(run[|steps|], w, key)
    ensures IsRun(maxRetries, longer, done) && run <= longer && |done| == |steps| + 5
    ensures var t, v := run[|steps|].states[key], longer[|done|];
      w !in v.jobs && key in v.states && Served(v.store, key, v.states[key]) &&
      v.states[key] == t.(available := t.desired == Some(Fetching), error := None, retries := 0, pending := false)
    ensures longer[|done|].adders == run[|steps|].adders && key !in longer[|done|].queue.dirty + longer[|done|].queue.processing
    ensures longer[|done|].queue.items == run[|steps|].queue.items[1..]
  {
    InvariantHolds(maxRetries, run, steps, |steps|);
    GotIsSound(run[|steps|].queue);
    longer, done := WorkBegins(maxRetries, run, steps, w, key);
    var s := longer[|done|];
    var t, snap := s.states[key], s.jobs[w].phase.snap;
    var store := if t.desired == Some(Fetching) then s.store[key := t.revision] else s.store - {key};
    longer, done := Longer(maxRetries, longer, done, Operate(w, true, false), InPhase(s, w, Operated(snap, true, false)).(store := store));
    var u := longer[|done|];
    var served := t.(available := t.desired == Some(Fetching), error := None, retries := 0, pending := false);
    longer, done := Longer(maxRetries, longer, done, Conclude(w), InPhase(u, w, Finished).(states := u.states[key := served]));
    u := longer[|done|];
    longer, done := Longer(maxRetries, longer, done, Step.Done(w), u.(queue := DoneWith(u.queue, key), jobs := u.jobs - {w}));
  }

  /** The first half of a failure: the error is kept and one retry is counted. */
  lemma FailureCounts(maxRetries: nat, run: seq<Server>, steps: seq<Step>, w: nat, key: Key)
      returns (longer: seq<Server>, done: seq<Step>)
    requires IsRun(maxRetries, run, steps) && Waiting(run[|steps|], w, key) && run[|steps|].states[key].retries < maxRetries
    ensures IsRun(maxRetries, longer, done) && run <= longer && |done| == |steps| + 4
    ensures var t, v := run[|steps|].states[key], longer[|done|];
      w in v.jobs && v.jobs[w] == Job(key, Retrying) &&
      v.states == run[|steps|].states[key := t.(error := Some(true), retries := t.retries + 1)]
  {
    longer, done := WorkBegins(maxRetries, run, steps, w, key);
    var s := longer[|done|];
    var t, snap := s.states[key], s.jobs[w].phase.snap;
    longer, done := Longer(maxRetries, longer, done, Operate(w, false, true), InPhase(s, w, Operated(snap, false, true)));
    var u := longer[|done|];
    var failed := t.(error := Some(true), retries := t.retries + 1);
    longer, done := Longer(maxRetries, longer, done, Conclude(w), InPhase(u, w, Retrying).(states := u.states[key := failed]));
  }

  /** A worker whose operation fails with an error that may be retried, while retries are left, leaves the
      request as pending as it was; after its delay the key is in the queue again, with one retry counted. */
  lemma FailureRetries(maxRetries: nat, run: seq<Server>, steps: seq<Step>, w: nat, key: Key)
      returns (longer: seq<Server>, done: seq<Step>)
    requires IsRun(maxRetries, run, steps) && Waiting(run[|steps|], w, key) && run[|steps|].states[key].retries < maxRetries
    ensures IsRun(maxRetries, longer, done) && run <= longer && |done| == |steps| + 7
    ensures var t, v := run[|steps|].states[key], longer[|done|];
      key in v.queue.items && key in v.states && v.states[key] == t.(error := Some(true), retries := t.retries + 1)
  {
    longer, done := FailureCounts(maxRetries, run, steps, w, key);
    var u := longer[|done|];
    longer, done := Longer(maxRetries, longer, done, Requeue(w),
                           InPhase(u, w, Finished).(queue := u.queue.(delayed := u.queue.delayed + {key})));
    u := longer[|done|];
    longer, done := Longer(maxRetries, longer, done, Step.Done(w), u.(queue := DoneWith(u.queue, key), jobs := u.jobs - {w}));
    longer, done := DelayEnds(maxRetries, longer, done, key);
  }

  const FRESH := Server(map[], map[], Queue([], {}, {}, {}), map[], map[])

  /** A sync and a delete of an unknown key, both accepted before either is added to the queue. */
  lemma TwoRequests(maxRetries: nat, key: Key, origin: string) returns (run: seq<Server>, steps: seq<Step>)
    ensures IsRun(maxRetries, run, steps) && |steps| == 3
    ensures run[3] == Server(map[key := State(origin, Some(Deleting), 2, false, 0, None, true)], map[],
                             Queue([key], {key}, {}, {}), map[], map[1 := key])
  {
    run, steps := [FRESH], [];
    var synced := Requested(NEW, Fetching, origin);
    var first := FRESH.(states := map[key := synced], adders := map[0 := key]);
    assert FRESH.states[key := synced] == map[key := synced] && FRESH.adders[0 := key] == map[0 := key];
    run, steps := Longer(maxRetries, run, steps, Sync(key, origin, 0), first);
    var both := FRESH.(states := map[key := Requested(synced, Deleting, origin)], adders := map[0 := key, 1 := key]);
    assert first.states[key := Requested(synced, Deleting, origin)] == both.states && first.adders[1 := key] == both.adders;
    run, steps := Longer(maxRetries, run, steps, Delete(key, 1), both);
    assert both.adders - {0} == map[1 := key];
    run, steps := Longer(maxRetries, run, steps, Add(0), both.(queue := Queue([key], {key}, {}, {}), adders := map[1 := key]));
  }

  /** "Not pending" alone does not say that retries have ended: the queue may bring a served request to a
      worker once more, and when that operation fails, its error is retried although nothing is pending. */
  lemma ServedMayBeRetried(maxRetries: nat, key: Key, origin: string) returns (run: seq<Server>, steps: seq<Step>)
    requires maxRetries > 1
    ensures IsRun(maxRetries, run, steps) && |steps| == 13 && key in run[13].states
    ensures var t := run[13].states[key];
      !t.pending && t.error == Some(true) && t.retries == 1 && !Quiet(run[13], key)
  {
    run, steps := TwoRequests(maxRetries, key, origin);
    run, steps := SuccessServes(maxRetries, run, steps, 0, key);
    var s := run[8];
    run, steps := Longer(maxRetries, run, steps, Add(1), s.(queue := Added(s.queue, key), adders := s.adders - {1}));
    run, steps := FailureCounts(maxRetries, run, steps, 0, key);
    InvariantHolds(maxRetries, run, steps, 13);
    assert JobSound(run[13].states, run[13].store, run[13].queue.processing, run[13].jobs[0]);
  }

  lemma DelayEnds(maxRetries: nat, run: seq<Server>, steps: seq<Step>, key: Key)
      returns (longer: seq<Server>, done: seq<Step>)
    requires IsRun(maxRetries, run, steps) && key in run[|steps|].queue.delayed && key !in run[|steps|].queue.processing
    ensures IsRun(maxRetries, longer, done) && run <= longer && |done| == |steps| + 1
    ensures key in longer[|done|].queue.items && longer[|done|].states == run[|steps|].states
  {
    var u := run[|steps|];
    InvariantHolds(maxRetries, run, steps, |steps|);
    longer, done := Longer(maxRetries, run, steps, Delay(key),
                           u.(queue := Added(u.queue.(delayed := u.queue.delayed - {key}), key)));
    InvariantHolds(maxRetries, longer, done, |done|);
  }
}
