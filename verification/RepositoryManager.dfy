/** The repository manager itself: its fields, and each lock section as a method that refines a step of
    the transition system. */
module RepositoryManager {
  import opened Core
  import opened Repository

  datatype Reply = Reply(code: string, record: Option<Record>)

  /** Every record but the rest has been recovered. */
  ghost predicate RecoveredBut(d: Disk, e: Disk, rest: set<Uid>) {
    e == d.(records := e.records) && e.records.Keys == d.records.Keys &&
    forall uid :: uid in d.records ==> e.records[uid] == if uid in rest then d.records[uid] else Recovered(d, d.records[uid])
  }

  lemma OneMoreRecovered(d: Disk, e: Disk, rest: set<Uid>, uid: Uid, f: Disk)
    requires RecoveredBut(d, e, rest) && uid in rest && uid in d.records
    requires f == e || f == e.(records := e.records[uid := Recovered(e, e.records[uid])])
    ensures f.records[uid] == Recovered(e, e.records[uid]) ==> RecoveredBut(d, f, rest - {uid})
    ensures RecoveredBut(d, f, rest) || RecoveredBut(d, f, rest - {uid})
  {
    assert Recovered(e, d.records[uid]) == Recovered(d, d.records[uid]);
  }

  /** How far a periodic retry is, when it has still to visit the rest: results go from memory only to
      the disk, nothing else is written, and while the queue has room all unfinished work that was visited
      is queued or with a worker. */
  ghost predicate Retrying(m: Manager, v: Manager, rest: set<Uid>, capacity: nat) {
    v.up && v.completions.Keys <= v.records.Keys && v.completions.Keys <= m.completions.Keys &&
    (forall uid :: uid in v.completions ==> v.completions[uid] == m.completions[uid]) &&
    (forall uid :: uid in v.records ==> uid in m.records && v.records[uid] == m.records[uid]) &&
    (forall uid :: uid in m.records && uid !in m.completions ==> uid in v.records) &&
    (forall uid :: uid in m.completions && uid !in v.completions ==>
      uid in v.disk.records && v.disk.records[uid] == m.completions[uid] && uid !in v.records) &&
    m.queue <= v.queue && v.running == m.running && v.jobs == m.jobs && v.disk.dirs == m.disk.dirs &&
    (|v.queue| < capacity ==>
      forall uid :: uid in m.records && uid !in m.completions && uid !in rest && Unfinished(m.records[uid].state) ==>
        uid in v.queued || uid in v.running)
  }

  lemma RetryingStarts(m: Manager, capacity: nat)
    requires m.up && m.completions.Keys <= m.records.Keys
    ensures Retrying(m, m, m.records.Keys, capacity)
  {
  }

  lemma RetryingContinues(m: Manager, u: Manager, rest: set<Uid>, uid: Uid, capacity: nat, o: Outcome, v: Manager)
    requires Retrying(m, u, rest, capacity) && uid in rest && RetryStep(u, uid, capacity, o, v) && o != Crash
    requires forall k :: k in m.completions ==> m.completions[k].Uid() == k
    ensures Retrying(m, v, rest - {uid}, capacity) && u.records.Keys - {uid} <= v.records.Keys
  {
  }

  function Visited(visits: seq<(Uid, Outcome)>): set<Uid> {
    if |visits| == 0 then {} else Visited(visits[..|visits| - 1]) + {visits[|visits| - 1].0}
  }

  /** The base is ready, of the same project and architecture; a version without a base needs none. */
  predicate HasBase(m: Manager, r: Request) {
    r.base.None? ||
    (RecordLocked(m, r.base.value).Some? &&
     var base := RecordLocked(m, r.base.value).value;
     base.state.Ready? && base.request.scope.project == r.scope.project && base.request.scope.arch == r.scope.arch)
  }

  /** A request that is not held up, neither by its build nor because the version is ready. */
  predicate MayProceed(m: Manager, r: Request) {
    r.scope.Build() !in m.cleaning && r.scope.Build() !in m.disk.stopped &&
    !(RecordLocked(m, r.uid).Some? && RecordLocked(m, r.uid).value.request == r && RecordLocked(m, r.uid).value.state.Ready?)
  }

  /** The version is to be made: it is unknown, or the same request has failed and may be retried. */
  predicate IsNew(m: Manager, r: Request) {
    var known := RecordLocked(m, r.uid);
    known.None? || (known.value.request == r && known.value.state == Failed(true))
  }

  /** When a submission is refused, and why. */
  ghost predicate Refusals(m: Manager, r: Request, capacity: nat, code: string) {
    var known := RecordLocked(m, r.uid);
    var proceeds := MayProceed(m, r) && HasBase(m, r);
    (code == "BuildStopped" <==> r.scope.Build() !in m.cleaning && r.scope.Build() in m.disk.stopped) &&
    (code == "BaseRepositoryNotReady" <==> MayProceed(m, r) && !HasBase(m, r)) &&
    (code == "RepositoryIdentityConflict" <==> proceeds && known.Some? && known.value.request != r) &&
    (code == "RepositoryDeleting" <==>
      r.scope.Build() in m.cleaning || (proceeds && known.Some? && known.value.request == r && known.value.state.Deleting?)) &&
    (code == "RepositoryQueueFull" <==> proceeds && IsNew(m, r) && |m.queue| >= capacity)
  }

  class Repositories {
    const capacity: nat
    var disk: Disk
    var up: bool
    var records: Records
    var completions: Records
    var paths: map<Uid, Scope>
    var cleaning: set<Build>
    var queue: seq<Uid>
    var queued: set<Uid>
    var running: set<Uid>
    var jobs: map<nat, Job>
    ghost var confirmed: set<Build>

    ghost function View(): Manager
      reads this
    {
      Manager(disk, up, records, completions, paths, cleaning, queue, queued, running, jobs, confirmed)
    }

    constructor (capacity: nat)
      ensures this.capacity == capacity
      ensures View() == Manager(Disk(map[], map[], {}), false, map[], map[], map[], {}, [], {}, {}, map[], {})
    {
      this.capacity := capacity;
      disk, up := Disk(map[], map[], {}), false;
      records, completions, paths, cleaning := map[], map[], map[], {};
      queue, queued, running, jobs, confirmed := [], {}, {}, map[], {};
    }

    method Halt()
      modifies this
      ensures View() == Halted(old(View()))
    {
      up, records, completions, paths, cleaning := false, map[], map[], map[], {};
      queue, queued, running, jobs := [], {}, {}, map[];
    }

    /** Reads a record file; a ready record without its index file reads as failed. */
    method ReadRecord(uid: Uid) returns (r: Option<Record>)
      ensures r == if uid in paths && uid in disk.records && disk.records[uid].request.scope == paths[uid]
                   then Some(Seen(disk, disk.records[uid])) else None
    {
      if uid !in paths || uid !in disk.records || disk.records[uid].request.scope != paths[uid] { return None; }
      var record := disk.records[uid];
      if record.state.Ready? {
        if record.Key() !in disk.dirs || disk.dirs[record.Key()].index.None? { record := record.(state := Failed(false)); }
      }
      return Some(record);
    }

    method RecordOf(uid: Uid) returns (r: Option<Record>)
      ensures r == RecordLocked(View(), uid)
    {
      if uid in records { return Some(records[uid]); }
      r := ReadRecord(uid);
    }

    method Persist(r: Record) returns (o: Outcome)
      modifies this
      ensures PersistStep(old(View()), r, o, View())
    {
      if r.Uid() in paths && paths[r.Uid()] != r.request.scope { return Error; }
      o := *;
      if o == Error { return; }
      var written: bool := *;
      if o == Done || written { disk := disk.(records := disk.records[r.Uid() := r]); }
      if o == Crash {
        Halt();
        return;
      }
      paths := paths[r.Uid() := r.request.scope];
    }

    method Enqueue(uid: Uid)
      modifies this`queue, this`queued
      ensures View() == Enqueued(old(View()), uid, capacity)
    {
      if uid in queued || uid in running { return; }
      if |queue| < capacity { queue, queued := queue + [uid], queued + {uid}; }
    }

    method CheckBase(r: Request) returns (ok: bool)
      ensures ok <==> BaseReady(View(), r)
    {
      if r.base.None? { return true; }
      var base := RecordOf(r.base.value);
      return base.Some? && base.value.state.Ready? && base.value.request.scope.project == r.scope.project &&
             base.value.request.scope.arch == r.scope.arch;
    }

    method Submit(r: Request) returns (reply: Reply, o: Outcome)
      requires up
      modifies this
      ensures SubmitStep(old(View()), r, capacity, o, View())
      ensures match SubmitDecision(old(View()), r, capacity)
        case Refuse(code) => reply == Reply(code, None)
        case Existing => reply == Reply("", RecordLocked(old(View()), r.uid))
        case Write(record) => reply == if o == Done then Reply("", Some(record)) else Reply("RepositoryStorageUnavailable", None)
      ensures Refusals(old(View()), r, capacity, reply.code)
      ensures MayProceed(old(View()), r) && HasBase(old(View()), r) && IsNew(old(View()), r) && |old(queue)| < capacity ==>
        (o == Done <==> reply.code == "") &&
        (o == Done ==>
          reply.record.Some? && reply.record.value.request == r && reply.record.value.state.Creating? &&
          r.uid in disk.records && disk.records[r.uid] == reply.record.value && r.uid in records &&
          records[r.uid] == reply.record.value && (r.uid in queued || r.uid in running))
    {
      o := Done;
      if r.scope.Build() in cleaning { return Reply("RepositoryDeleting", None), o; }
      if r.scope.Build() in disk.stopped { return Reply("BuildStopped", None), o; }
      var known := RecordOf(r.uid);
      if known.Some? && known.value.request == r && known.value.state.Ready? { return Reply("", known), o; }
      var based := CheckBase(r);
      if !based { return Reply("BaseRepositoryNotReady", None), o; }
      if known.Some? {
        if known.value.request != r { return Reply("RepositoryIdentityConflict", None), o; }
        match known.value.state
        case Ready => return Reply("", known), o;
        case Deleting => return Reply("RepositoryDeleting", None), o;
        case Creating => return Reply("", known), o;
        case Failed(retryable) => if !retryable { return Reply("", known), o; }
      }
      if |queue| >= capacity { return Reply("RepositoryQueueFull", None), o; }
      var record := Record(r, Creating, if known.Some? then known.value.digest else None);
      o := Persist(record);
      if o != Done { return Reply("RepositoryStorageUnavailable", None), o; }
      records := records[r.uid := record];
      Enqueue(r.uid);
      return Reply("", Some(record)), o;
    }

    /** Idle worker w receives from the queue. */
    method Worker(w: nat)
      requires up && |queue| > 0 && w !in jobs
      modifies this`queue, this`queued, this`running, this`jobs
      ensures View() == Popped(old(View()), w)
      ensures var uid := old(queue[0]);
        (w in jobs <==> uid in records && uid !in old(running) && (records[uid].state.Creating? || records[uid].state.Deleting?)) &&
        (w in jobs ==>
          uid in running && jobs[w].uid == uid &&
          (jobs[w].task.Removing? <==> records[uid].state.Deleting?) &&
          (jobs[w].task.Materialising? <==> records[uid].state.Creating?) &&
          (jobs[w].task.Materialising? ==>
            jobs[w].task.record == records[uid] && jobs[w].task.published.None? &&
            (jobs[w].task.based <==>
              records[uid].request.base.Some? ==>
                RecordLocked(View(), records[uid].request.base.value).Some? &&
                RecordLocked(View(), records[uid].request.base.value).value.state.Ready?)))
    {
      var uid := queue[0];
      queue, queued := queue[1..], queued - {uid};
      if uid !in records || uid in running { return; }
      var record := records[uid];
      if !record.state.Creating? && !record.state.Deleting? { return; }
      if record.state.Deleting? {
        running, jobs := running + {uid}, jobs[w := Job(uid, Removing)];
        return;
      }
      var based := true;
      if record.request.base.Some? {
        var base := RecordOf(record.request.base.value);
        based := base.Some? && base.value.state.Ready?;
      }
      running, jobs := running + {uid}, jobs[w := Job(uid, Materialising(record, based, None))];
    }

    /** Writes a kept result and forgets it once it is durable. */
    method PersistCompletion(uid: Uid) returns (o: Outcome)
      requires uid in completions && completions[uid].Uid() == uid
      modifies this
      ensures CompletionStep(old(View()), uid, o, View())
    {
      o := Persist(completions[uid]);
      if o == Done { completions, records := completions - {uid}, records - {uid}; }
    }

    /** The end of a materialisation: the result is kept until its record is written. */
    method Finish(w: nat, retryable: bool) returns (o: Outcome)
      requires up && w in jobs && jobs[w].task.Materialising?
      requires jobs[w].uid in records ==> records[jobs[w].uid].Uid() == jobs[w].uid
      modifies this
      ensures FinishStep(old(View()), w, retryable, o, View())
      ensures var uid, result := old(jobs)[w].uid, old(jobs)[w].task.published;
        w !in jobs &&
        (uid in old(records) && old(records)[uid].state.Creating? && o != Crash ==>
          var finished := if result.Some? then old(records)[uid].(state := Ready, digest := result)
                          else old(records)[uid].(state := Failed(retryable));
          uid !in running &&
          if o == Done then uid in disk.records && disk.records[uid] == finished && uid !in records && uid !in completions
          else uid in completions && completions[uid] == finished && uid in records && disk == old(disk))
    {
      var uid, result := jobs[w].uid, jobs[w].task.published;
      running, jobs := running - {uid}, jobs - {w};
      if uid !in records || !records[uid].state.Creating? { return Done; }
      var record := records[uid];
      if result.None? {
        record := record.(state := Failed(retryable));
      } else {
        record := record.(state := Ready, digest := result);
      }
      completions := completions[uid := record];
      o := PersistCompletion(uid);
    }

    /** One version of the periodic retry. */
    method RetryOne(uid: Uid) returns (o: Outcome)
      requires uid in records && (uid in completions ==> completions[uid].Uid() == uid)
      modifies this
      ensures RetryStep(old(View()), uid, capacity, o, View())
      ensures uid !in old(completions) ==> o == Done
    {
      o := Done;
      if uid in completions {
        o := PersistCompletion(uid);
        return;
      }
      if records[uid].state.Creating? || records[uid].state.Deleting? { Enqueue(uid); }
    }

    /** One visit of a retry that began in state m and has still to visit the rest. */
    method RetryVisit(uid: Uid, ghost m: Manager, ghost rest: set<Uid>, ghost before: seq<(Uid, Outcome)>, ghost states: seq<Manager>)
        returns (o: Outcome, ghost visits: seq<(Uid, Outcome)>, ghost trace: seq<Manager>)
      requires Retrying(m, View(), rest, capacity) && uid in rest && rest <= records.Keys
      requires forall k :: k in m.completions ==> m.completions[k].Uid() == k
      requires RetryRun(before, states, capacity) && states[|before|] == View()
      modifies this
      ensures o != Crash ==> Retrying(m, View(), rest - {uid}, capacity) && rest - {uid} <= records.Keys
      ensures RetryRun(visits, trace, capacity) && trace[0] == states[0] && trace[|visits|] == View()
      ensures Visited(visits) == Visited(before) + {uid}
    {
      ghost var u := View();
      o := RetryOne(uid);
      RetryContinues(before, states, capacity, uid, o, View());
      visits, trace := before + [(uid, o)], states + [View()];
      assert visits[..|before|] == before;
      if o != Crash { RetryingContinues(m, u, rest, uid, capacity, o, View()); }
    }

    /** Retries all unfinished work: writes kept results, requeues the rest. A kept result goes only to
        the disk. The order of the visits is the map's. */
    method RetryPending() returns (o: Outcome, ghost visits: seq<(Uid, Outcome)>, ghost trace: seq<Manager>)
      requires up && completions.Keys <= records.Keys && forall uid :: uid in completions ==> completions[uid].Uid() == uid
      modifies this
      ensures RetryRun(visits, trace, capacity) && trace[0] == old(View()) && trace[|visits|] == View()
      ensures o != Crash ==> Visited(visits) == old(records).Keys
      ensures o != Crash ==> Retrying(old(View()), View(), {}, capacity)
    {
      var rest := records.Keys;
      o, visits, trace := Done, [], [View()];
      RetryingStarts(View(), capacity);
      while rest != {}
        invariant up && rest <= records.Keys && rest <= old(records).Keys && Retrying(old(View()), View(), rest, capacity)
        invariant RetryRun(visits, trace, capacity) && trace[0] == old(View()) && trace[|visits|] == View()
        invariant Visited(visits) == old(records).Keys - rest
        decreases |rest|
      {
        var uid :| uid in rest;
        o, visits, trace := RetryVisit(uid, old(View()), rest, visits, trace);
        if o == Crash { return; }
        rest := rest - {uid};
      }
      o := Done;
    }

    method Delete(uid: Uid) returns (code: string, o: Outcome)
      requires up
      modifies this
      ensures DeleteStep(old(View()), uid, capacity, o, View())
      ensures code == "" <==> RecordLocked(old(View()), uid).None?
      ensures code == "RepositoryDeleting" <==>
        RecordLocked(old(View()), uid).Some? && RecordLocked(old(View()), uid).value.request.scope.Build() in old(cleaning)
      ensures code == "Accepted" ==> o == Done && RecordLocked(old(View()), uid).Some?
      ensures RecordLocked(old(View()), uid).Some? && RecordLocked(old(View()), uid).value.request.scope.Build() !in old(cleaning) ==>
        (o == Done <==> code == "Accepted") && (code != "Accepted" ==> code == "RepositoryStorageUnavailable")
      ensures code == "Accepted" && |old(queue)| < capacity ==> uid in queued || uid in running
      ensures code == "Accepted" && !RecordLocked(old(View()), uid).value.state.Deleting? ==>
        uid in records && records[uid].state.Deleting? && uid !in completions
    {
      o := Done;
      var known := RecordOf(uid);
      if known.None? { return "", o; }
      var record := known.value;
      if record.request.scope.Build() in cleaning { return "RepositoryDeleting", o; }
      if !record.state.Deleting? {
        record := record.(state := Deleting);
        o := Persist(record);
        if o != Done { return "RepositoryStorageUnavailable", o; }
        records, completions := records[uid := record], completions - {uid};
      }
      Enqueue(uid);
      return "Accepted", o;
    }

    /** The first half of a removal, outside the lock. */
    method Move(w: nat) returns (o: Outcome)
      requires up && w in jobs && jobs[w].task.Removing?
      modifies this
      ensures MoveStep(old(View()), w, o, View())
    {
      var job := jobs[w];
      if job.uid !in records || !records[job.uid].state.Deleting? {
        jobs := jobs[w := job.(task := Leaving)];
        return Done;
      }
      o := *;
      var moved: bool := *;
      if o == Done || moved { disk := disk.(dirs := disk.dirs - {records[job.uid].Key()}); }
      if o == Crash {
        Halt();
        return;
      }
      jobs := jobs[w := job.(task := if o == Done then Erasing else Leaving)];
    }

    /** The second half, under the lock. */
    method Erase(w: nat) returns (o: Outcome)
      requires up && w in jobs && jobs[w].task.Erasing?
      modifies this
      ensures EraseStep(old(View()), w, o, View())
    {
      var uid := jobs[w].uid;
      ghost var m := View();
      jobs := jobs[w := jobs[w].(task := Leaving)];
      if uid !in records || !records[uid].state.Deleting? { return Done; }
      o := *;
      if o == Error { return; }
      var erased: bool := *;
      if o == Done || erased { disk := disk.(records := disk.records - {uid}); }
      if o == Crash {
        Halt();
        return;
      }
      records, paths := records - {uid}, paths - {uid};
    }

    method Leave(w: nat)
      requires up && w in jobs && jobs[w].task.Leaving?
      modifies this`running, this`jobs
      ensures View() == Left(old(View()), w)
    {
      running, jobs := running - {jobs[w].uid}, jobs - {w};
    }

    /** Looks for unfinished work of a build. */
    method HasWork(b: Build) returns (found: bool)
      requires forall uid :: uid in records ==> Unfinished(records[uid].state)
      ensures found <==> !Drained(View(), b)
    {
      var rest := records.Keys;
      while rest != {}
        invariant rest <= records.Keys
        invariant forall uid :: uid in records.Keys - rest ==> records[uid].request.scope.Build() != b
        decreases |rest|
      {
        var uid :| uid in rest;
        rest := rest - {uid};
        var record := records[uid];
        if record.request.scope.Build() == b && (record.state.Creating? || record.state.Deleting? || uid in running) {
          return true;
        }
      }
      return false;
    }

    /** Makes the stop durable, then answers whether the accepted work has finished. */
    method StopBuild(b: Build) returns (answer: bool, o: Outcome)
      requires up && forall uid :: uid in records ==> Unfinished(records[uid].state)
      modifies this
      ensures StopStep(old(View()), b, o, answer, View())
      ensures o == Done ==> b in disk.stopped
      ensures answer <==> o == Done && forall uid :: uid in records ==> records[uid].request.scope.Build() != b
    {
      o := *;
      var marked: bool := *;
      if o == Done || marked { disk := disk.(stopped := disk.stopped + {b}); }
      if o == Crash {
        Halt();
        return false, o;
      }
      if o == Error { return false, o; }
      var found := HasWork(b);
      answer := !found;
      if answer { confirmed := confirmed + {b}; }
    }

    method BeginBuildCleanup(b: Build) returns (ready: bool)
      requires up && b in confirmed && forall uid :: uid in records ==> Unfinished(records[uid].state)
      modifies this`cleaning
      ensures BeginStep(old(View()), b, View())
      ensures ready ==> b in cleaning && b !in old(cleaning)
      ensures ready <==> b !in old(cleaning) && forall uid :: uid in records ==> records[uid].request.scope.Build() != b
      ensures !ready ==> cleaning == old(cleaning)
    {
      if b in cleaning { return false; }
      var found := HasWork(b);
      if found { return false; }
      cleaning := cleaning + {b};
      return true;
    }

    /** Removes everything of the build under one architecture; a failing removal may leave any part. */
    method RemoveBuildFiles(b: Build, arch: string) returns (ok: bool)
      requires up && b in cleaning
      modifies this`disk
      ensures WipeStep(old(View()), b, View())
      ensures ok ==> forall uid :: uid in disk.records ==> disk.records[uid].request.scope != Scope(b.0, arch, b.1)
      ensures ok ==> forall k :: k in disk.dirs ==> k.0 != Scope(b.0, arch, b.1)
    {
      ok := *;
      var scope := Scope(b.0, arch, b.1);
      var keptRecords: Records := *;
      var leftDirs: Directories := *;
      if ok { keptRecords, leftDirs := map[], map[]; }
      var before := disk;
      disk := disk.(
        records := map uid | uid in before.records && (before.records[uid].request.scope != scope || uid in keptRecords)
          :: before.records[uid],
        dirs := map k | k in before.dirs && (k.0 != scope || k in leftDirs)
          :: if k.0 != scope then before.dirs[k] else leftDirs[k]);
    }

    method EndBuildCleanup(b: Build, done: bool)
      requires up && b in cleaning
      requires done ==>
        (forall uid :: uid in disk.records ==> disk.records[uid].request.scope.Build() != b) &&
        (forall k :: k in disk.dirs ==> k.0.Build() != b)
      modifies this
      ensures EndStep(old(View()), b, done, View())
    {
      cleaning := cleaning - {b};
      if done {
        var gone := set uid | uid in paths && paths[uid].Build() == b;
        records, paths, queued := records - gone, paths - gone, queued - gone;
      }
    }

    /** A start: accepts what was published, then fills the cache with the unfinished records. */
    method Recover() returns (ok: bool)
      requires !up && View() == Halted(View()) && forall uid :: uid in disk.records ==> disk.records[uid].Uid() == uid
      modifies this
      ensures up == ok && BootStep(old(View()), View())
    {
      ghost var d := disk;
      var rest := disk.records.Keys;
      while rest != {}
        invariant rest <= d.records.Keys && RecoveredBut(d, disk, rest) && View() == old(View()).(disk := disk)
        decreases |rest|
      {
        var uid :| uid in rest;
        rest := rest - {uid};
        ghost var before := disk;
        ok := RecoverRecord(uid);
        OneMoreRecovered(d, before, rest + {uid}, uid, disk);
        if !ok { return; }
      }
      Fill();
      return true;
    }

    method RecoverRecord(uid: Uid) returns (ok: bool)
      requires uid in disk.records && disk.records[uid].Uid() == uid
      modifies this`disk
      ensures disk == old(disk) || disk == old(disk).(records := old(disk).records[uid := Recovered(old(disk), old(disk).records[uid])])
      ensures ok ==> disk.records[uid] == Recovered(old(disk), old(disk).records[uid])
    {
      var record := disk.records[uid];
      if !record.state.Creating? { return true; }
      if record.Key() !in disk.dirs || disk.dirs[record.Key()].index.None? { return true; }
      var dir := disk.dirs[record.Key()];
      if dir.index.value.request != record.request || dir.actual != dir.index.value.digest { return true; }
      ok := *;
      var written: bool := *;
      if ok || written {
        disk := disk.(records := disk.records[uid := record.(state := Ready, digest := Some(dir.actual))]);
      }
    }

    method Fill()
      modifies this`records, this`paths, this`up
      ensures View() == old(View()).(up := true,
        records := map uid | uid in disk.records && Unfinished(disk.records[uid].state) :: disk.records[uid],
        paths := map uid | uid in disk.records :: disk.records[uid].request.scope)
    {
      records := map uid | uid in disk.records && Unfinished(disk.records[uid].state) :: disk.records[uid];
      paths := map uid | uid in disk.records :: disk.records[uid].request.scope;
      up := true;
    }
  }
}
