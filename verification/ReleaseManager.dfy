/** The release manager itself: its fields, and each lock section as a method that refines a step of
    the transition system. */
module ReleaseManager {
  import opened Core
  import opened Release

  datatype Reply = Reply(code: string, record: Option<Record>)

  /** A request that is not held up: its build is neither being cleaned up nor stopped, and its source is
      ready. */
  predicate MayProceed(m: Manager, r: Request, sourceReady: bool) {
    r.name !in m.cleaning && (r.target.project, r.name) !in m.disk.stopped && sourceReady
  }

  /** The release is to be made: it is unknown, or the same request has failed and may be retried. */
  predicate IsNew(m: Manager, r: Request) {
    var known := RecordLocked(m, r.name);
    known.None? || (known.value.request == r && known.value.state == Failed(true))
  }

  /** When a submission is refused, and why; each refusal changes nothing. */
  ghost predicate Refusals(m: Manager, r: Request, sourceReady: bool, capacity: nat, code: string) {
    var known := RecordLocked(m, r.name);
    var stopped := (r.target.project, r.name) in m.disk.stopped;
    var same := known.Some? && known.value.request == r;
    (code == "BuildStopped" <==> r.name !in m.cleaning && stopped) &&
    (code == "SourceRepositoryNotReady" <==> r.name !in m.cleaning && !stopped && !sourceReady) &&
    (code == "ReleaseIdentityConflict" <==> MayProceed(m, r, sourceReady) && known.Some? && !same) &&
    (code == "ReleaseDeleting" <==> r.name in m.cleaning || (MayProceed(m, r, sourceReady) && same && known.value.state.Deleting?)) &&
    (code == "ReleaseQueueFull" <==> MayProceed(m, r, sourceReady) && IsNew(m, r) && |m.queue| >= capacity)
  }

  class Releases {
    const capacity: nat
    var disk: Disk
    var up: bool
    var records: map<Name, Record>
    var paths: map<Name, Target>
    var cleaning: map<Name, Cleaning>
    var queued: set<Name>
    var running: map<Name, Job>
    var queue: seq<Name>
    ghost var confirmed: set<(string, Name)>
    ghost var begun: set<Name>

    ghost function View(): Manager
      reads this
    {
      Manager(disk, up, records, paths, cleaning, queued, running, queue, confirmed, begun)
    }

    constructor (capacity: nat)
      ensures View() == EMPTY && this.capacity == capacity
    {
      this.capacity := capacity;
      disk, up := Disk(map[], map[], map[], {}), false;
      records, paths, cleaning, queued, running, queue := map[], map[], map[], {}, map[], [];
      confirmed, begun := {}, {};
    }

    /** A process stop. */
    method Halt()
      modifies this
      ensures View() == Halted(old(View()))
    {
      up, records, paths, cleaning := false, map[], map[], map[];
      queued, running, queue, begun := {}, map[], [], {};
    }

    method RecordOf(n: Name) returns (r: Option<Record>)
      ensures r == RecordLocked(View(), n)
    {
      if n in records { return Some(records[n]); }
      if n !in paths || n !in disk.records || disk.records[n].Target() != paths[n] { return None; }
      return Some(disk.records[n]);
    }

    /** Writes the record file, then brings the cache in line. */
    method Persist(r: Record) returns (o: Outcome)
      modifies this
      ensures PersistStep(old(View()), r, o, View())
    {
      if r.Name() in paths && paths[r.Name()] != r.Target() { return Error; }
      o := *;
      if o == Error { return; }
      var written: bool := *;
      if o == Done || written { disk := disk.(records := disk.records[r.Name() := r]); }
      if o == Crash {
        Halt();
        return;
      }
      paths := paths[r.Name() := r.Target()];
      records := if Active(r.state) then records[r.Name() := r] else records - {r.Name()};
    }

    method Enqueue(n: Name)
      modifies this`queue, this`queued
      ensures View() == Enqueued(old(View()), n, capacity)
    {
      if n in queued || n in running { return; }
      if |queue| < capacity { queue, queued := queue + [n], queued + {n}; }
    }

    method Submit(r: Request, sourceReady: bool) returns (reply: Reply, o: Outcome)
      requires up
      modifies this
      ensures SubmitStep(old(View()), r, sourceReady, capacity, o, View())
      ensures match SubmitDecision(old(View()), r, sourceReady, capacity)
        case Refuse(code) => reply == Reply(code, None)
        case Existing => reply == Reply("", RecordLocked(old(View()), r.name))
        case Write(record) => reply == if o == Done then Reply("", Some(record)) else Reply("ReleaseStorageUnavailable", None)
      ensures Refusals(old(View()), r, sourceReady, capacity, reply.code)
      ensures MayProceed(old(View()), r, sourceReady) && IsNew(old(View()), r) && |old(queue)| < capacity ==>
        (o == Done <==> reply.code == "") &&
        (o == Done ==>
          reply.record.Some? && reply.record.value.request == r && reply.record.value.state.Creating? &&
          r.name in disk.records && disk.records[r.name] == reply.record.value && r.name in records &&
          records[r.name] == reply.record.value && (r.name in queued || r.name in running))
    {
      o := Done;
      if r.name in cleaning { return Reply("ReleaseDeleting", None), o; }
      if (r.target.project, r.name) in disk.stopped { return Reply("BuildStopped", None), o; }
      if !sourceReady { return Reply("SourceRepositoryNotReady", None), o; }
      var known := RecordOf(r.name);
      var record := Record(r, Creating, None);
      if known.Some? {
        if known.value.request != r { return Reply("ReleaseIdentityConflict", None), o; }
        match known.value.state {
          case Deleting => return Reply("ReleaseDeleting", None), o;
          case Failed(retryable) =>
            if !retryable { return Reply("", known), o; }
          case _ => return Reply("", known), o;
        }
        record := known.value.(state := Creating);
      }
      if |queue| >= capacity { return Reply("ReleaseQueueFull", None), o; }
      o := Persist(record);
      if o != Done { return Reply("ReleaseStorageUnavailable", None), o; }
      Enqueue(r.name);
      return Reply("", Some(record)), o;
    }

    /** A worker receives from the queue. */
    method Worker() returns (job: Option<Job>)
      requires up && |queue| > 0
      modifies this`queue, this`queued, this`running
      ensures View() == Popped(old(View()))
      ensures job.Some? ==> old(queue[0]) in records && job.value == JobFor(records[old(queue[0])])
      ensures job.None? ==> running == old(running)
      ensures var n := old(queue[0]);
        (job.Some? <==>
          n in records && n !in old(running) &&
          (records[n].state.Creating? || records[n].state.Prepared? || records[n].state.Deleting?)) &&
        (job.Some? ==>
          n in running && running[n] == job.value &&
          (job.value.Materialising? <==> records[n].state.Creating?) &&
          (job.value == Activating <==> records[n].state.Prepared?) &&
          (job.value == Removing(false) <==> records[n].state.Deleting?) &&
          (job.value.Materialising? ==> job.value.record == records[n] && job.value.made.Working?))
    {
      var n := queue[0];
      queue, queued := queue[1..], queued - {n};
      if n !in records || n in running { return None; }
      var record := records[n];
      if !record.state.Creating? && !record.state.Prepared? && !record.state.Deleting? { return None; }
      running := running[n := JobFor(record)];
      return Some(running[n]);
    }

    /** The materialiser's rename, outside the lock: it puts the directory in place, finds one there, or
        fails without effect. */
    method Place(n: Name, digest: Digest) returns (o: Outcome)
      requires up && n in running && running[n].Materialising? && running[n].made.Working?
      modifies this
      ensures o == Done && (old(running)[n].record.Target(), n) in old(disk).dirs ==> ConflictStep(old(View()), n, View())
      ensures o == Done && (old(running)[n].record.Target(), n) !in old(disk).dirs ==> PublishStep(old(View()), n, digest, View())
      ensures o == Error ==> View() == old(View())
      ensures o == Crash ==>
        View() == Halted(old(View())) || exists u :: PublishStep(old(View()), n, digest, u) && View() == Halted(u)
    {
      var r := running[n].record;
      o := *;
      if o == Error { return; }
      if (r.Target(), n) in disk.dirs {
        if o == Crash { Halt(); } else { running := running[n := Materialising(r, Conflicting)]; }
        return;
      }
      var moved: bool := *;
      ghost var m := View();
      if o == Done || moved {
        disk := disk.(dirs := disk.dirs[(r.Target(), n) := Directory(Some(Index(r.request, digest)), digest)]);
        running := running[n := Materialising(r, Published(digest))];
        assert PublishStep(m, n, digest, View());
      }
      if o == Crash { Halt(); }
    }

    /** The end of a materialisation: a durable failure, or a durable checkpoint to activate from. */
    method Finish(n: Name, retryable: bool) returns (o: Outcome)
      requires up && n in running && running[n].Materialising?
      modifies this
      ensures FinishStep(old(View()), n, retryable, o, View())
      ensures var made := old(running)[n].made;
        n in old(records) && old(records)[n].state.Creating? && old(records)[n].Name() == n && o == Done ==>
          n in disk.records &&
          (if made.Published?
           then disk.records[n].state.Prepared? && disk.records[n].digest == Some(made.digest) && n in running && running[n] == Activating
           else disk.records[n].state == Failed(made.Working? && retryable) && n !in running)
    {
      var made := running[n].made;
      ghost var m := View();
      running := running - {n};
      if n !in records || !records[n].state.Creating? { return Done; }
      var record := records[n];
      match made {
        case Published(digest) => record := record.(state := Prepared, digest := Some(digest));
        case Conflicting => record := record.(state := Failed(false));
        case Working => record := record.(state := Failed(retryable));
      }
      ghost var scope := InScope(m, record) && record.Name() == n;
      o := Persist(record);
      if o == Done && made.Published? {
        running := running[n := Activating];
        assert running == m.running[n := Activating];
      }
    }

    /** Points `current` at a prepared release, then records it ready. */
    method Activate(n: Name) returns (code: string, o: Outcome)
      requires up && n in running && running[n].Activating?
      modifies this
      ensures ActivateStep(old(View()), n, o, View())
      ensures !MayActivate(old(View()), n) ==> o == Done && code != "Activated"
      ensures MayActivate(old(View()), n) ==> (o == Done <==> code == "Activated")
      ensures var known := RecordLocked(old(View()), n);
        n !in old(cleaning) && known.Some? && known.value.Name() == n && known.value.state.Prepared? &&
        !Stopped(old(disk), known.value) && o == Done ==>
          code == "Activated" && n in disk.records && disk.records[n] == known.value.(state := Ready) &&
          IsCurrent(disk, known.value.Target(), n)
    {
      running := running[n := Leaving];
      if n in cleaning { return "ReleaseDeleting", Done; }
      var known := RecordOf(n);
      if known.None? { return "ReleaseNotFound", Done; }
      var record := known.value;
      if record.state.Ready? { return "", Done; }
      if (record.Target().project, record.Name()) in disk.stopped { return "BuildStopped", Done; }
      if !record.state.Prepared? { return "ReleaseNotReady", Done; }
      var linked: bool := *;
      var stopped: bool := *;
      if !linked {
        if stopped {
          Halt();
          return "", Crash;
        }
        return "ReleaseStorageUnavailable", Error;
      }
      disk := disk.(current := disk.current[record.Target() := record.Name()]);
      o := Persist(record.(state := Ready));
      return if o == Done then "Activated" else "ReleaseStorageUnavailable", o;
    }

    method Delete(n: Name) returns (code: string, o: Outcome)
      requires up
      modifies this
      ensures DeleteStep(old(View()), n, capacity, o, View())
      ensures var r := RecordLocked(old(View()), n);
        (code == "" <==> r.None?) &&
        (r.Some? && n in old(cleaning) ==> code == "ReleaseDeleting") &&
        (r.Some? && n !in old(cleaning) ==> (code == "ReleaseInUse" <==> IsCurrent(old(disk), r.value.Target(), n)))
      ensures var r := RecordLocked(old(View()), n);
        r.Some? && n !in old(cleaning) && !IsCurrent(old(disk), r.value.Target(), n) ==>
          (o == Done <==> code == "Accepted") && (code != "Accepted" ==> code == "ReleaseStorageUnavailable")
      ensures code == "Accepted" && |old(queue)| < capacity ==> n in queued || n in running
      ensures code == "Accepted" ==> o == Done && RecordLocked(old(View()), n).Some?
      ensures code == "Accepted" && RecordLocked(old(View()), n).value.Name() == n ==>
        RecordLocked(View(), n) == Some(RecordLocked(old(View()), n).value.(state := Deleting))
    {
      o := Done;
      var known := RecordOf(n);
      if known.None? { return "", o; }
      var record := known.value;
      if n in cleaning { return "ReleaseDeleting", o; }
      if record.Target() in disk.current && disk.current[record.Target()] == n { return "ReleaseInUse", o; }
      if !record.state.Deleting? {
        o := Persist(record.(state := Deleting));
        if o != Done { return "ReleaseStorageUnavailable", o; }
      }
      Enqueue(n);
      return "Accepted", o;
    }

    /** The two halves of a removal: the directory goes first, outside the lock. */
    method Move(n: Name) returns (o: Outcome)
      requires up && n in running && running[n] == Removing(false)
      modifies this
      ensures MoveStep(old(View()), n, o, View())
    {
      if n !in records || !records[n].state.Deleting? {
        running := running[n := Leaving];
        return Done;
      }
      o := *;
      var moved: bool := *;
      if o == Done || moved { disk := disk.(dirs := disk.dirs - {(records[n].Target(), n)}); }
      if o == Crash {
        Halt();
        return;
      }
      running := running[n := if o == Done then Removing(true) else Leaving];
    }

    method Erase(n: Name) returns (o: Outcome)
      requires up && n in running && running[n] == Removing(true)
      modifies this
      ensures EraseStep(old(View()), n, o, View())
    {
      running := running[n := Leaving];
      if n !in records || !records[n].state.Deleting? { return Done; }
      o := *;
      if o == Error { return; }
      var erased: bool := *;
      if o == Done || erased { disk := disk.(records := disk.records - {n}); }
      if o == Crash {
        Halt();
        return;
      }
      records, paths := records - {n}, paths - {n};
    }

    /** Requeues unfinished work; a stopped build's prepared release stays where it is. The order of the
        visits is the map's. */
    method RetryPending() returns (ghost names: seq<Name>)
      requires up
      modifies this`queue, this`queued
      ensures forall n :: n in names <==> Retryable(old(View()), n)
      ensures View() == Retried(old(View()), names, capacity)
      ensures old(queue) <= queue && queued == old(queued) + (set n | n in queue[|old(queue)|..])
      ensures |queue| < capacity ==>
        forall n :: n in records ==>
          n in queued || n in running ||
          (!records[n].state.Creating? && !records[n].state.Deleting? && (records[n].state.Prepared? ==> Stopped(disk, records[n])))
    {
      var rest := records.Keys;
      names := [];
      ghost var m := View();
      while rest != {}
        invariant rest <= records.Keys && View() == Retried(m, names, capacity)
        invariant forall n :: n in names <==> n !in rest && Retryable(m, n)
        decreases |rest|
      {
        var n :| n in rest;
        rest := rest - {n};
        RetriedFrame(m, names, capacity);
        var record := records[n];
        if record.state.Prepared? && Stopped(disk, record) { continue; }
        if Active(record.state) {
          Enqueue(n);
          assert (names + [n])[..|names|] == names;
          names := names + [n];
        }
      }
      RetriedFrame(m, names, capacity);
      RetriedQueues(m, names, capacity);
    }

    /** Marks one expired release for deletion, never the current one and never one being cleaned up. */
    method CleanupHistory(n: Name) returns (o: Outcome)
      requires up && n in paths && n in disk.records && disk.records[n].Target() == paths[n]
      requires disk.records[n].state.Ready?
      modifies this
      ensures (n in old(cleaning) || IsCurrent(old(disk), old(disk).records[n].Target(), n)) ==> View() == old(View())
      ensures !(n in old(cleaning) || IsCurrent(old(disk), old(disk).records[n].Target(), n)) ==>
        HistoryStep(old(View()), n, capacity, o, View()) &&
        (o == Done && old(disk).records[n].Name() == n ==>
          n in disk.records && disk.records[n] == old(disk).records[n].(state := Deleting))
    {
      var record := disk.records[n];
      if n in cleaning || (record.Target() in disk.current && disk.current[record.Target()] == n) { return Done; }
      o := Persist(record.(state := Deleting));
      if o == Done { Enqueue(n); }
    }

    /** Makes the stop durable, then answers whether both managers have drained. */
    method StopBuild(project: string, n: Name, repositories: bool) returns (answer: bool, o: Outcome)
      requires up
      modifies this
      ensures StopStep(old(View()), project, n, repositories, o, answer, View())
      ensures o == Done ==> (project, n) in disk.stopped
      ensures answer <==>
        o == Done && repositories &&
        (n in old(records) ==> old(records)[n].In(project) && old(records)[n].state.Prepared? && n !in old(running))
    {
      o := *;
      var marked: bool := *;
      if o == Done || marked { disk := disk.(stopped := disk.stopped + {(project, n)}); }
      if o == Crash {
        Halt();
        return false, o;
      }
      if o == Error { return false, o; }
      if n in records {
        var record := records[n];
        if !record.In(project) { return false, o; }
        if record.state.Creating? || record.state.Deleting? || !record.state.Prepared? || n in running { return false, o; }
      }
      if repositories { confirmed := confirmed + {(project, n)}; }
      return repositories, o;
    }

    /** Reserves the build: no submission, activation or retention touches it until the clean-up ends. */
    method BeginBuildCleanup(project: string, n: Name, arches: set<string>) returns (ready: bool)
      requires up && (project, n) in confirmed && Covers(disk, project, n, arches)
      modifies this`cleaning, this`begun
      ensures BeginStep(old(View()), project, n, arches, View())
      ensures ready ==> n in cleaning && cleaning[n].project == project && n !in old(cleaning)
      ensures ready <==>
        n !in old(cleaning) && (n in paths ==> paths[n].project == project) &&
        (n in records ==> records[n].In(project) && records[n].state.Prepared? && n !in running)
      ensures !ready ==> View() == old(View())
    {
      if n in cleaning { return false; }
      if n in paths && paths[n].project != project { return false; }
      if n in records {
        var record := records[n];
        if !record.In(project) || !record.state.Prepared? || n in running { return false; }
      }
      cleaning, begun := cleaning[n := Cleaning(project, arches, {}, {}, {})], begun + {n};
      return true;
    }

    method CheckBuildCurrent(n: Name, arch: string) returns (free: bool)
      requires up && n in cleaning && arch in cleaning[n].arches
      modifies this`cleaning
      ensures CheckStep(old(View()), n, arch, View())
      ensures free <==> !IsCurrent(disk, Target(old(cleaning)[n].project, arch), n)
    {
      var c := cleaning[n];
      var t := Target(c.project, arch);
      free := !(t in disk.current && disk.current[t] == n);
      cleaning := if free then cleaning[n := c.(checked := c.checked + {arch})] else cleaning - {n};
    }

    /** Removes the release directory of one architecture; a failing removal may leave parts of it. */
    method RemoveBuildDirectory(n: Name, arch: string) returns (ok: bool, ghost left: Option<Directory>)
      requires up && n in cleaning && cleaning[n].checked == cleaning[n].arches && arch in cleaning[n].arches
      modifies this`disk, this`cleaning
      ensures EmptyStep(old(View()), n, arch, left, View())
      ensures ok ==> (Target(old(cleaning)[n].project, arch), n) !in disk.dirs && n in cleaning && arch in cleaning[n].emptied
    {
      var c := cleaning[n];
      var key := (Target(c.project, arch), n);
      ok := *;
      if !ok && key in disk.dirs {
        var rest: Directory := *;
        disk := disk.(dirs := disk.dirs[key := rest]);
        return ok, Some(rest);
      }
      disk := disk.(dirs := disk.dirs - {key});
      cleaning := cleaning[n := c.(emptied := c.emptied + {arch})];
      return true, None;
    }

    method RemoveBuildRecord(n: Name, arch: string)
      requires up && n in cleaning && arch in cleaning[n].emptied
      modifies this`disk, this`cleaning
      ensures UnrecordStep(old(View()), n, arch, View())
    {
      var c := cleaning[n];
      if n in disk.records && disk.records[n].Target() == Target(c.project, arch) {
        disk := disk.(records := disk.records - {n});
      }
      cleaning := cleaning[n := c.(removed := c.removed + {arch})];
    }

    method EndBuildCleanup(n: Name, done: bool)
      requires up && n in cleaning && (done ==> cleaning[n].removed == cleaning[n].arches)
      modifies this
      ensures EndStep(old(View()), n, done, View())
    {
      cleaning := cleaning - {n};
      if done {
        records, paths, queued, begun := records - {n}, paths - {n}, queued - {n}, begun - {n};
      }
    }

    /** Recovery of one record at start-up; it may write once or twice, and may stop after any write. */
    method RecoverRecord(n: Name) returns (ok: bool)
      requires !up && n in disk.records && disk.records[n].Name() == n
      modifies this`disk
      ensures disk == old(disk).(records := disk.records) && disk.records.Keys == old(disk).records.Keys
      ensures forall k :: k in disk.records && k != n ==> disk.records[k] == old(disk).records[k]
      ensures disk.records[n] in {old(disk).records[n], Rechecked(old(disk), old(disk).records[n]), Recovered(old(disk), old(disk).records[n])}
      ensures ok ==> disk.records[n] == Recovered(old(disk), old(disk).records[n])
    {
      var record := disk.records[n];
      ok := true;
      if !record.state.Creating? && !record.state.Prepared? && !record.state.Ready? { return; }
      if record.state.Prepared? && Stopped(disk, record) { return; }
      var key := (record.Target(), n);
      if key !in disk.dirs || disk.dirs[key].index.None? || disk.dirs[key].index.value.request != record.request {
        if !record.state.Creating? { ok := Rewrite(record.(state := Failed(false))); }
        return;
      }
      var digest := disk.dirs[key].index.value.digest;
      if record.state.Ready? {
        if record.digest != Some(digest) {
          ok := Rewrite(record.(state := Failed(false)));
          return;
        }
      } else if disk.dirs[key].actual != digest || (record.state.Prepared? && record.digest != Some(digest)) {
        if record.state.Prepared? { ok := Rewrite(record.(state := Failed(false))); }
        return;
      }
      if record.state.Creating? {
        record := record.(state := Prepared, digest := Some(digest));
        ok := Rewrite(record);
        if !ok { return; }
      }
      if record.Target() in disk.current && disk.current[record.Target()] == n {
        ok := Rewrite(record.(state := Ready));
      }
    }

    /** A record write during start-up: the start fails when it does not succeed. */
    method Rewrite(r: Record) returns (ok: bool)
      requires r.Name() in disk.records
      modifies this`disk
      ensures ok ==> disk == old(disk).(records := old(disk).records[r.Name() := r])
      ensures !ok ==> disk == old(disk) || disk == old(disk).(records := old(disk).records[r.Name() := r])
    {
      ok := *;
      var written: bool := *;
      if ok || written { disk := disk.(records := disk.records[r.Name() := r]); }
    }

    /** A start: recovers every record, then fills the cache with the unfinished ones. */
    method Recover() returns (ok: bool)
      requires !up && View() == Halted(View()) && forall n :: n in disk.records ==> disk.records[n].Name() == n
      modifies this
      ensures up == ok && BootStep(old(View()), View())
    {
      ghost var d := disk;
      var rest := disk.records.Keys;
      while rest != {}
        invariant rest <= d.records.Keys && disk == d.(records := disk.records) && disk.records.Keys == d.records.Keys
        invariant forall n :: n in rest ==> disk.records[n] == d.records[n]
        invariant forall n :: n in d.records.Keys - rest ==> disk.records[n] == Recovered(d, d.records[n])
        invariant View() == old(View()).(disk := disk)
        decreases |rest|
      {
        var n :| n in rest;
        rest := rest - {n};
        ghost var before := disk;
        SameRecovery(d, before, d.records[n]);
        ok := RecoverRecord(n);
        if !ok { return; }
      }
      Fill();
      return true;
    }

    /** The cache after a start: every known name's path, and the unfinished records. */
    method Fill()
      modifies this`records, this`paths, this`up
      ensures View() == old(View()).(up := true, records := CacheOf(disk.records), paths := PathsOf(disk.records))
    {
      records := map n | n in disk.records && Active(disk.records[n].state) :: disk.records[n];
      paths := map n | n in disk.records :: disk.records[n].Target();
      up := true;
    }
  }

  /** A record's recovery does not look at other records. */
  lemma SameRecovery(d: Disk, e: Disk, r: Record)
    requires e == d.(records := e.records)
    ensures Recovered(d, r) == Recovered(e, r) && Rechecked(d, r) == Rechecked(e, r)
  {
  }
}
