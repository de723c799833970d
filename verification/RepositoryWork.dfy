/** What the repository manager gets done when nothing stops or fails: submitted versions become ready,
    deleted ones go, and a clean-up leaves nothing of its build. */
module RepositoryWork {
  import opened Core
  import opened Repository
  import opened RepositorySafety
  import opened RepositoryContent

  /** A run with one step more. */
  lemma Longer(capacity: nat, run: seq<Manager>, steps: seq<Step>, step: Step, v: Manager)
      returns (longer: seq<Manager>, done: seq<Step>)
    requires IsRun(capacity, run, steps) && Next(capacity, run[|steps|], step, v)
    ensures IsRun(capacity, longer, done) && longer == run + [v] && done == steps + [step]
  {
    longer, done := run + [v], steps + [step];
    forall i: nat | i < |done| ensures Steps(capacity, longer, done, i) {
      if i < |steps| {
        assert Steps(capacity, run, steps, i);
        assert longer[i] == run[i] && longer[i + 1] == run[i + 1] && done[i] == steps[i];
      }
    }
  }

  /** The version is at the head of the queue, its record is cached in this state, and worker w is idle. */
  predicate AtHead(m: Manager, w: nat, uid: Uid, state: State) {
    m.up && |m.queue| > 0 && m.queue[0] == uid && w !in m.jobs && uid in m.records && m.records[uid].state == state
  }

  /** A worker takes the head of the queue: it removes what is being deleted and materialises what is being
      created, with its base if the base is still ready. */
  lemma WorkIsTaken(m: Manager, w: nat, uid: Uid)
    requires Invariant(m) && m.up && |m.queue| > 0 && m.queue[0] == uid && w !in m.jobs
    ensures var v := Popped(m, w);
      uid in m.records && w in v.jobs && v.jobs[w].uid == uid &&
      v.records == m.records && v.disk == m.disk &&
      (m.records[uid].state.Deleting? ==> v.jobs[w].task == Removing) &&
      (m.records[uid].state.Creating? ==>
        v.jobs[w].task.Materialising? && v.jobs[w].task.record == m.records[uid] && v.jobs[w].task.published.None? &&
        (v.jobs[w].task.based <==> BaseIsReady(m, m.records[uid].request)))
  {
    HeadIsFree(m);
  }

  /** The version that a request builds on is ready, with its content in place. */
  predicate BaseIsReady(m: Manager, r: Request) {
    r.base.None? ||
    (RecordLocked(m, r.base.value).Some? && RecordLocked(m, r.base.value).value.state.Ready?)
  }

  // ----- removal -----

  /** From every reachable state, a worker that takes a version whose record is being deleted removes it. */
  lemma RemovalCompletes(capacity: nat, run: seq<Manager>, steps: seq<Step>, w: nat, uid: Uid)
      returns (longer: seq<Manager>, done: seq<Step>)
    requires IsRun(capacity, run, steps) && AtHead(run[|steps|], w, uid, Deleting)
    ensures IsRun(capacity, longer, done) && run <= longer && done == steps + [Pop(w), Move(w, Done), Erase(w, Done), Leave(w)]
    ensures var m, v := run[|steps|], longer[|done|];
      uid !in v.disk.records && uid !in v.records && uid !in v.paths && uid !in v.running &&
      m.records[uid].Key() !in v.disk.dirs
  {
    var m := run[|steps|];
    InvariantHolds(capacity, run, steps, |steps|);
    WorkIsTaken(m, w, uid);
    longer, done := Longer(capacity, run, steps, Pop(w), Popped(m, w));
    longer, done := ContentIsRemoved(capacity, longer, done, w, uid);
    longer, done := RecordIsRemoved(capacity, longer, done, w, uid);
  }

  lemma ContentIsRemoved(capacity: nat, run: seq<Manager>, steps: seq<Step>, w: nat, uid: Uid)
      returns (longer: seq<Manager>, done: seq<Step>)
    requires IsRun(capacity, run, steps) && run[|steps|].up && w in run[|steps|].jobs
    requires run[|steps|].jobs[w] == Job(uid, Removing) && uid in run[|steps|].records && run[|steps|].records[uid].state.Deleting?
    ensures IsRun(capacity, longer, done) && run <= longer && done == steps + [Move(w, Done)]
    ensures var m, v := run[|steps|], longer[|done|];
      v.up && w in v.jobs && v.jobs[w] == Job(uid, Erasing) && v.records == m.records && m.records[uid].Key() !in v.disk.dirs
  {
    var m := run[|steps|];
    var moved := m.(disk := m.disk.(dirs := m.disk.dirs - {m.records[uid].Key()}));
    longer, done := Longer(capacity, run, steps, Move(w, Done), Doing(moved, w, Erasing));
  }

  lemma RecordIsRemoved(capacity: nat, run: seq<Manager>, steps: seq<Step>, w: nat, uid: Uid)
      returns (longer: seq<Manager>, done: seq<Step>)
    requires IsRun(capacity, run, steps) && run[|steps|].up && w in run[|steps|].jobs
    requires run[|steps|].jobs[w] == Job(uid, Erasing) && uid in run[|steps|].records && run[|steps|].records[uid].state.Deleting?
    ensures IsRun(capacity, longer, done) && run <= longer && done == steps + [Erase(w, Done), Leave(w)]
    ensures var m, v := run[|steps|], longer[|done|];
      uid !in v.disk.records && uid !in v.records && uid !in v.paths && uid !in v.running && v.disk.dirs == m.disk.dirs
  {
    var u := Doing(run[|steps|], w, Leaving);
    var e := u.(disk := u.disk.(records := u.disk.records - {uid}), records := u.records - {uid}, paths := u.paths - {uid});
    longer, done := Longer(capacity, run, steps, Erase(w, Done), e);
    longer, done := Longer(capacity, longer, done, Leave(w), Left(e, w));
  }

  // ----- making -----

  /** From every reachable state, a worker that takes a version that is being created, and whose base is
      ready, publishes it and makes its record ready. */
  lemma MakingCompletes(capacity: nat, run: seq<Manager>, steps: seq<Step>, w: nat, uid: Uid, digest: Digest)
      returns (longer: seq<Manager>, done: seq<Step>)
    requires IsRun(capacity, run, steps) && AtHead(run[|steps|], w, uid, Creating)
    requires BaseIsReady(run[|steps|], run[|steps|].records[uid].request)
    ensures IsRun(capacity, longer, done) && run <= longer
    ensures done == steps + [Pop(w), Publish(w, digest), Finish(w, true, Done)]
    ensures var r, v := run[|steps|].records[uid].(state := Ready, digest := Some(digest)), longer[|done|];
      uid in v.disk.records && v.disk.records[uid] == r && RecordLocked(v, uid) == Some(r) && uid !in v.running &&
      r.Key() in v.disk.dirs && v.disk.dirs[r.Key()] == Published(r.request, digest)
  {
    var m := run[|steps|];
    InvariantHolds(capacity, run, steps, |steps|);
    HeadIsFree(m);
    WorkIsTaken(m, w, uid);
    var r := m.records[uid];
    longer, done := Longer(capacity, run, steps, Pop(w), Popped(m, w));
    var u := longer[|done|];
    longer, done := Longer(capacity, longer, done, Publish(w, digest),
      u.(disk := u.disk.(dirs := u.disk.dirs[r.Key() := Published(r.request, digest)]),
         jobs := u.jobs[w := u.jobs[w].(task := u.jobs[w].task.(published := Some(digest)))]));
    longer, done := ResultIsWritten(capacity, longer, done, w, uid, digest);
  }

  lemma ResultIsWritten(capacity: nat, run: seq<Manager>, steps: seq<Step>, w: nat, uid: Uid, digest: Digest)
      returns (longer: seq<Manager>, done: seq<Step>)
    requires IsRun(capacity, run, steps) && run[|steps|].up && w in run[|steps|].jobs && run[|steps|].jobs[w].uid == uid
    requires run[|steps|].jobs[w].task.Materialising? && run[|steps|].jobs[w].task.published == Some(digest)
    requires uid in run[|steps|].records && run[|steps|].records[uid].state.Creating?
    ensures IsRun(capacity, longer, done) && run <= longer && done == steps + [Finish(w, true, Done)]
    ensures var r, v := run[|steps|].records[uid].(state := Ready, digest := Some(digest)), longer[|done|];
      uid in v.disk.records && v.disk.records[uid] == r && RecordLocked(v, uid) == Some(r) && uid !in v.running &&
      r.Key() in v.disk.dirs && v.disk.dirs[r.Key()] == Published(r.request, digest)
  {
    var m := run[|steps|];
    InvariantHolds(capacity, run, steps, |steps|);
    assert JobSound(m.records, m.disk.dirs, m.jobs[w]);
    RecordsAreKeyed(m);
    var r := m.records[uid].(state := Ready, digest := Some(digest));
    var u := Left(m, w);
    var kept := m.completions[uid := r];
    var v := Persisted(u, r).(completions := kept - {uid}, records := m.records - {uid});
    longer, done := Longer(capacity, run, steps, Finish(w, true, Done), v);
  }

  // ----- a start leaves the rest alone -----

  /** A start changes only records that are being created and have their content: they become ready. */
  lemma StartChangesOnly(capacity: nat, run: seq<Manager>, steps: seq<Step>, i: nat, uid: Uid)
    requires IsRun(capacity, run, steps) && i < |steps| && steps[i].Boot? && run[i + 1].up && uid in run[i].disk.records
    ensures var m, r := run[i], run[i].disk.records[uid];
      uid in run[i + 1].disk.records &&
      run[i + 1].disk.records[uid] ==
        if r.state.Creating? && r.Key() in m.disk.dirs then r.(state := Ready, digest := Some(m.disk.dirs[r.Key()].actual)) else r
    ensures uid in run[i + 1].records <==> Unfinished(run[i + 1].disk.records[uid].state)
  {
    InvariantHolds(capacity, run, steps, i);
    assert Steps(capacity, run, steps, i);
    var r := run[i].disk.records[uid];
    if r.state.Creating? && r.Key() in run[i].disk.dirs { StartAcceptsPublished(capacity, run, steps, i, uid); }
  }

  /** When a build clean-up ends as complete, nothing of the build is left, on disk or in memory, but the
      marker that it is stopped. */
  lemma CleanedBuildIsGone(capacity: nat, run: seq<Manager>, steps: seq<Step>, i: nat, b: Build)
    requires IsRun(capacity, run, steps) && i < |steps| && steps[i] == End(b, true)
    ensures var v := run[i + 1];
      b !in v.cleaning && b in v.disk.stopped &&
      (forall k :: k in v.disk.dirs ==> k.0.Build() != b) &&
      (forall uid :: uid in v.disk.records ==> v.disk.records[uid].request.scope.Build() != b) &&
      (forall uid :: uid in v.records ==> v.records[uid].request.scope.Build() != b) &&
      (forall uid :: uid in v.paths ==> v.paths[uid].Build() != b)
  {
    InvariantHolds(capacity, run, steps, i);
    assert Steps(capacity, run, steps, i);
  }
}
