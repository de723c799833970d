/** What every step of the repository manager keeps, and what follows for every run. */
module RepositorySafety {
  import opened Core
  import opened Repository

  // ----- the invariant -----

  /** Content of an unfinished creation is complete; failed versions have none; content without a record
      belongs to a stopped build. */
  ghost predicate DiskSound(d: Disk) {
    (forall uid :: uid in d.records ==> d.records[uid].Uid() == uid) &&
    (forall uid :: uid in d.records && d.records[uid].state.Failed? ==> d.records[uid].Key() !in d.dirs) &&
    (forall uid :: uid in d.records && d.records[uid].state.Creating? && d.records[uid].Key() in d.dirs ==>
      Recovered(d, d.records[uid]).state.Ready?) &&
    forall k :: k in d.dirs ==> k.0.Build() in d.stopped || (k.1 in d.records && d.records[k.1].Key() == k)
  }

  /** The cache holds exactly the unfinished records of the disk. */
  ghost predicate CacheSound(disk: Records, records: Records, paths: map<Uid, Scope>) {
    (forall uid :: uid in disk ==> uid in paths && paths[uid] == disk[uid].request.scope) &&
    (forall uid :: uid in records ==> uid in disk && records[uid] == disk[uid] && Unfinished(disk[uid].state)) &&
    forall uid :: uid in disk && Unfinished(disk[uid].state) ==> uid in records
  }

  /** Queued versions are unfinished, idle, and queued once; so no entry is ever stale. */
  ghost predicate QueueSound(records: Records, completions: Records, queue: seq<Uid>, queued: set<Uid>, running: set<Uid>) {
    (forall i, k :: 0 <= i < k < |queue| ==> queue[i] != queue[k]) &&
    (forall uid :: uid in queued <==> uid in queue) &&
    forall uid :: uid in queued ==> uid in records && uid !in running && uid !in completions
  }

  /** A result that is not written yet: ready with its content, or failed without any. */
  predicate ResultSound(records: Records, dirs: Directories, uid: Uid, r: Record) {
    uid in records && records[uid].state.Creating? && r.request == records[uid].request &&
    match r.state
    case Ready => r.digest.Some? && r.Key() in dirs && dirs[r.Key()] == Published(r.request, r.digest.value)
    case Failed(retryable) => r.Key() !in dirs
    case _ => false
  }

  ghost predicate CompletionsSound(records: Records, completions: Records, running: set<Uid>, dirs: Directories) {
    forall uid :: uid in completions ==> uid !in running && ResultSound(records, dirs, uid, completions[uid])
  }

  predicate JobSound(records: Records, dirs: Directories, job: Job) {
    match job.task
    case Materialising(r, based, published) =>
      r.Uid() == job.uid && job.uid in records && records[job.uid].request == r.request &&
      if published.Some? then r.Key() in dirs && dirs[r.Key()] == Published(r.request, published.value)
      else r.Key() !in dirs
    case Removing => job.uid in records && records[job.uid].state.Deleting?
    case Erasing => job.uid in records && records[job.uid].state.Deleting? && records[job.uid].Key() !in dirs
    case Leaving => true
  }

  /** At most one worker acts on a version at a time, and `running` says which versions have one. */
  ghost predicate JobsSound(records: Records, dirs: Directories, running: set<Uid>, jobs: map<nat, Job>) {
    (forall w :: w in jobs ==> jobs[w].uid in running && JobSound(records, dirs, jobs[w])) &&
    forall w, x :: w in jobs && x in jobs && w != x ==> jobs[w].uid != jobs[x].uid
  }

  predicate Publisher(jobs: map<nat, Job>, w: nat, uid: Uid) {
    w in jobs && jobs[w].uid == uid && jobs[w].task.Materialising? && jobs[w].task.published.Some?
  }

  /** Content of an unfinished creation has a result on its way to the disk. */
  ghost predicate PublishedSound(records: Records, completions: Records, dirs: Directories, jobs: map<nat, Job>) {
    forall uid :: uid in records && records[uid].state.Creating? && records[uid].Key() in dirs ==>
      uid in completions || exists w :: Publisher(jobs, w, uid)
  }

  ghost predicate CleaningSound(records: Records, cleaning: set<Build>, confirmed: set<Build>) {
    cleaning <= confirmed && forall uid :: uid in records ==> records[uid].request.scope.Build() !in cleaning
  }

  predicate MaterialisingFor(job: Job, b: Build) {
    job.task.Materialising? && job.task.record.request.scope.Build() == b
  }

  /** A confirmed build has its marker, no record being created, and no materialiser at work. */
  ghost predicate StopSound(d: Disk, jobs: map<nat, Job>, confirmed: set<Build>) {
    confirmed <= d.stopped &&
    (forall uid :: uid in d.records && d.records[uid].state.Creating? ==> d.records[uid].request.scope.Build() !in confirmed) &&
    forall w, b :: w in jobs && b in confirmed ==> !MaterialisingFor(jobs[w], b)
  }

  ghost predicate MemorySound(m: Manager) {
    CacheSound(m.disk.records, m.records, m.paths) &&
    QueueSound(m.records, m.completions, m.queue, m.queued, m.running) &&
    CompletionsSound(m.records, m.completions, m.running, m.disk.dirs) &&
    JobsSound(m.records, m.disk.dirs, m.running, m.jobs) &&
    PublishedSound(m.records, m.completions, m.disk.dirs, m.jobs) &&
    CleaningSound(m.records, m.cleaning, m.confirmed)
  }

  ghost predicate Invariant(m: Manager) {
    DiskSound(m.disk) && StopSound(m.disk, m.jobs, m.confirmed) && if m.up then MemorySound(m) else m == Halted(m)
  }

  lemma HaltKeeps(m: Manager)
    requires DiskSound(m.disk) && StopSound(m.disk, m.jobs, m.confirmed)
    ensures Invariant(Halted(m))
  {
  }

  // ----- writes -----

  /** Replacing the record of a version that nobody works on. */
  predicate Replaces(d: Disk, r: Record) {
    (r.state.Creating? || r.state.Failed? ==> r.Key() !in d.dirs) &&
    (r.Uid() in d.records ==> d.records[r.Uid()].request == r.request)
  }

  lemma WriteKeepsDisk(d: Disk, r: Record)
    requires DiskSound(d) && Replaces(d, r)
    ensures DiskSound(d.(records := d.records[r.Uid() := r]))
  {
    var e := d.(records := d.records[r.Uid() := r]);
    forall uid | uid in e.records && e.records[uid].state.Creating? && e.records[uid].Key() in e.dirs
      ensures Recovered(e, e.records[uid]).state.Ready?
    {
      assert Recovered(d, e.records[uid]) == Recovered(e, e.records[uid]);
    }
  }

  /** Memory in which version `uid` has the record r, which is unfinished and has not been published. */
  lemma CacheKeeps(disk: Records, records: Records, paths: map<Uid, Scope>, r: Record)
    requires CacheSound(disk, records, paths)
    ensures Unfinished(r.state) ==>
      CacheSound(disk[r.Uid() := r], records[r.Uid() := r], paths[r.Uid() := r.request.scope])
    ensures !Unfinished(r.state) ==>
      CacheSound(disk[r.Uid() := r], records - {r.Uid()}, paths[r.Uid() := r.request.scope])
  {
  }

  lemma EnqueueKeeps(m: Manager, uid: Uid, capacity: nat)
    requires QueueSound(m.records, m.completions, m.queue, m.queued, m.running)
    requires uid in m.records && uid !in m.completions
    ensures var v := Enqueued(m, uid, capacity);
      QueueSound(v.records, v.completions, v.queue, v.queued, v.running) &&
      v == m.(queue := v.queue, queued := v.queued)
  {
  }

  // ----- submissions -----

  /** A request that is accepted for writing names an idle, unpublished version of an active build. */
  lemma AcceptedIsFree(m: Manager, r: Request, capacity: nat)
    requires Invariant(m) && m.up && SubmitDecision(m, r, capacity).Write?
    ensures r.uid !in m.records && Replaces(m.disk, SubmitDecision(m, r, capacity).record)
    ensures r.scope.Build() !in m.disk.stopped && r.scope.Build() !in m.cleaning
  {
  }

  lemma NewRecordKeepsJobs(m: Manager, r: Record)
    requires MemorySound(m) && r.Uid() !in m.records
    ensures JobsSound(m.records[r.Uid() := r], m.disk.dirs, m.running, m.jobs)
    ensures CompletionsSound(m.records[r.Uid() := r], m.completions, m.running, m.disk.dirs)
  {
    forall w | w in m.jobs ensures JobSound(m.records[r.Uid() := r], m.disk.dirs, m.jobs[w]) {
      assert JobSound(m.records, m.disk.dirs, m.jobs[w]);
    }
    forall k | k in m.completions ensures ResultSound(m.records[r.Uid() := r], m.disk.dirs, k, m.completions[k]) {
      assert ResultSound(m.records, m.disk.dirs, k, m.completions[k]);
    }
  }

  lemma NewRecordKeepsMemory(m: Manager, r: Record)
    requires MemorySound(m) && r.Uid() !in m.records && r.state.Creating? && r.Key() !in m.disk.dirs
    requires r.request.scope.Build() !in m.cleaning
    ensures MemorySound(Persisted(m, r).(records := m.records[r.Uid() := r]))
  {
    CacheKeeps(m.disk.records, m.records, m.paths, r);
    NewRecordKeepsJobs(m, r);
    NewRecordKeepsPublished(m.records, m.completions, m.disk.dirs, m.jobs, r);
  }

  lemma NewRecordKeepsPublished(records: Records, completions: Records, dirs: Directories, jobs: map<nat, Job>, r: Record)
    requires PublishedSound(records, completions, dirs, jobs) && r.Key() !in dirs
    ensures PublishedSound(records[r.Uid() := r], completions, dirs, jobs)
  {
  }

  lemma SubmitKeeps(m: Manager, r: Request, capacity: nat, o: Outcome, v: Manager)
    requires Invariant(m) && m.up && SubmitStep(m, r, capacity, o, v)
    ensures Invariant(v)
  {
    HaltKeeps(m);
    if v != m && v != Halted(m) {
      AcceptedIsFree(m, r, capacity);
      var record := SubmitDecision(m, r, capacity).record;
      AcceptedKeeps(m, record);
      var u := Persisted(m, record).(records := m.records[r.uid := record]);
      EnqueueKeeps(u, r.uid, capacity);
      assert Halted(u) == Halted(Persisted(m, record));
    }
  }

  lemma AcceptedKeeps(m: Manager, r: Record)
    requires Invariant(m) && m.up && Replaces(m.disk, r) && r.state.Creating? && r.Key() !in m.disk.dirs
    requires r.Uid() !in m.records && r.request.scope.Build() !in m.cleaning && r.request.scope.Build() !in m.disk.stopped
    ensures var u := Persisted(m, r).(records := m.records[r.Uid() := r]); Invariant(u) && Invariant(Halted(u))
  {
    var u := Persisted(m, r).(records := m.records[r.Uid() := r]);
    WriteKeepsDisk(m.disk, r);
    assert StopSound(u.disk, u.jobs, u.confirmed);
    NewRecordKeepsMemory(m, r);
    HaltKeeps(u);
  }

  // ----- workers -----

  /** The head of the queue is unfinished, idle, without a kept result and, if it is being created,
      without content. */
  lemma HeadIsFree(m: Manager)
    requires Invariant(m) && m.up && |m.queue| > 0
    ensures var uid := m.queue[0];
      uid in m.records && uid !in m.running && uid !in m.completions && m.records[uid].Uid() == uid &&
      (m.records[uid].state.Creating? ==> m.records[uid].Key() !in m.disk.dirs)
  {
    var uid := m.queue[0];
    assert uid in m.queued;
    assert forall w :: !Publisher(m.jobs, w, uid);
  }

  lemma DequeueKeeps(m: Manager)
    requires QueueSound(m.records, m.completions, m.queue, m.queued, m.running) && |m.queue| > 0
    ensures QueueSound(m.records, m.completions, m.queue[1..], m.queued - {m.queue[0]}, m.running + {m.queue[0]})
  {
    var uid, rest := m.queue[0], m.queue[1..];
    forall x ensures x in m.queued - {uid} <==> x in rest {
      if x in rest { var i :| 0 <= i < |rest| && rest[i] == x; assert m.queue[i + 1] == x && m.queue[0] == uid; }
      if x in m.queue && x != uid { var i :| 0 <= i < |m.queue| && m.queue[i] == x; assert rest[i - 1] == x; }
    }
  }

  lemma PopKeeps(m: Manager, w: nat)
    requires Invariant(m) && m.up && |m.queue| > 0 && w !in m.jobs
    ensures Invariant(Popped(m, w))
  {
    HeadIsFree(m);
    DequeueKeeps(m);
    var v := Popped(m, w);
    assert JobsSound(v.records, v.disk.dirs, v.running, v.jobs);
    MoreJobsKeepPublished(m.records, m.completions, m.disk.dirs, m.jobs, w, v.jobs[w]);
    assert StopSound(v.disk, v.jobs, v.confirmed);
  }

  lemma MoreJobsKeepPublished(
      records: Records, completions: Records, dirs: Directories, jobs: map<nat, Job>, w: nat, job: Job)
    requires PublishedSound(records, completions, dirs, jobs) && w !in jobs
    ensures PublishedSound(records, completions, dirs, jobs[w := job])
  {
    var more := jobs[w := job];
    forall uid | uid in records && records[uid].state.Creating? && records[uid].Key() in dirs && uid !in completions
      ensures exists x :: Publisher(more, x, uid)
    {
      var x :| Publisher(jobs, x, uid);
      assert Publisher(more, x, uid);
    }
  }

  lemma PublishKeepsDisk(d: Disk, r: Record, digest: Digest)
    requires DiskSound(d) && r.Key() !in d.dirs && r.Uid() in d.records
    requires d.records[r.Uid()].request == r.request && Unfinished(d.records[r.Uid()].state)
    ensures DiskSound(d.(dirs := d.dirs[r.Key() := Published(r.request, digest)]))
  {
    var e := d.(dirs := d.dirs[r.Key() := Published(r.request, digest)]);
    forall uid | uid in e.records && e.records[uid].state.Creating? && e.records[uid].Key() in e.dirs
      ensures Recovered(e, e.records[uid]).state.Ready?
    {
      if uid != r.Uid() { assert Recovered(d, e.records[uid]) == Recovered(e, e.records[uid]); }
    }
  }

  lemma PublishKeepsJobs(m: Manager, w: nat, digest: Digest, v: Manager)
    requires DiskSound(m.disk) && MemorySound(m) && PublishStep(m, w, digest, v)
    ensures JobsSound(v.records, v.disk.dirs, v.running, v.jobs)
    ensures PublishedSound(v.records, v.completions, v.disk.dirs, v.jobs)
    ensures CompletionsSound(v.records, v.completions, v.running, v.disk.dirs)
  {
    var uid := m.jobs[w].uid;
    forall x | x in v.jobs ensures v.jobs[x].uid in v.running && JobSound(v.records, v.disk.dirs, v.jobs[x]) {
      assert JobSound(m.records, m.disk.dirs, m.jobs[x]);
    }
    forall k | k in v.records && v.records[k].state.Creating? && v.records[k].Key() in v.disk.dirs && k !in v.completions
      ensures exists x :: Publisher(v.jobs, x, k)
    {
      if k == uid {
        assert Publisher(v.jobs, w, k);
      } else {
        var x :| Publisher(m.jobs, x, k);
        assert Publisher(v.jobs, x, k);
      }
    }
  }

  lemma PublishKeeps(m: Manager, w: nat, digest: Digest, v: Manager)
    requires Invariant(m) && m.up && PublishStep(m, w, digest, v)
    ensures Invariant(v)
  {
    assert JobSound(m.records, m.disk.dirs, m.jobs[w]);
    PublishKeepsDisk(m.disk, m.jobs[w].task.record, digest);
    PublishKeepsJobs(m, w, digest, v);
    assert StopSound(v.disk, v.jobs, v.confirmed);
  }

  /** A worker may let go of a version that it did not just publish for, or whose result is kept. */
  lemma LeaveKeepsMemory(m: Manager, w: nat, completions: Records)
    requires MemorySound(m) && w in m.jobs
    requires var uid := m.jobs[w].uid;
      Publisher(m.jobs, w, uid) && uid in m.records && m.records[uid].state.Creating? ==> uid in completions
    requires forall uid :: uid in m.completions ==> uid in completions && completions[uid] == m.completions[uid]
    requires forall uid :: uid in completions && uid !in m.completions ==>
      uid == m.jobs[w].uid && ResultSound(m.records, m.disk.dirs, uid, completions[uid])
    ensures MemorySound(Left(m, w).(completions := completions))
  {
    var v := Left(m, w).(completions := completions);
    forall uid | uid in v.records && v.records[uid].state.Creating? && v.records[uid].Key() in v.disk.dirs && uid !in v.completions
      ensures exists x :: Publisher(v.jobs, x, uid)
    {
      var x :| Publisher(m.jobs, x, uid);
      assert x != w;
      assert Publisher(v.jobs, x, uid);
    }
  }

  /** A kept result may be written: the record then leaves memory. */
  lemma CompletionKeepsMemory(m: Manager, uid: Uid)
    requires MemorySound(m) && uid in m.completions && m.completions[uid].Uid() == uid
    ensures MemorySound(Persisted(m, m.completions[uid]).(completions := m.completions - {uid}, records := m.records - {uid}))
  {
    var r := m.completions[uid];
    assert ResultSound(m.records, m.disk.dirs, uid, r);
    CacheKeeps(m.disk.records, m.records, m.paths, r);
    var v := Persisted(m, r).(completions := m.completions - {uid}, records := m.records - {uid});
    assert uid !in m.queued;
    forall w | w in v.jobs ensures v.jobs[w].uid in v.running && JobSound(v.records, v.disk.dirs, v.jobs[w]) {
      assert JobSound(m.records, m.disk.dirs, m.jobs[w]);
    }
    forall k | k in v.completions ensures ResultSound(v.records, v.disk.dirs, k, v.completions[k]) {
      assert ResultSound(m.records, m.disk.dirs, k, m.completions[k]);
    }
  }

  lemma CompletionKeeps(m: Manager, uid: Uid, o: Outcome, v: Manager)
    requires Invariant(m) && m.up && CompletionStep(m, uid, o, v)
    ensures Invariant(v)
  {
    HaltKeeps(m);
    var r := m.completions[uid];
    assert ResultSound(m.records, m.disk.dirs, uid, r);
    var u := Persisted(m, r).(completions := m.completions - {uid}, records := m.records - {uid});
    ResultKeepsDisk(m.disk, r);
    assert StopSound(u.disk, u.jobs, u.confirmed);
    CompletionKeepsMemory(m, uid);
    HaltKeeps(u);
    assert Halted(u) == Halted(Persisted(m, r));
  }

  lemma ResultKeepsDisk(d: Disk, r: Record)
    requires DiskSound(d) && ResultSound(d.records, d.dirs, r.Uid(), r)
    ensures DiskSound(d.(records := d.records[r.Uid() := r]))
  {
    WriteKeepsDisk(d, r);
  }

  /** A materialiser's result for a version that is still being created can be kept. */
  lemma ResultIsSound(m: Manager, w: nat, retryable: bool)
    requires Invariant(m) && m.up && w in m.jobs && m.jobs[w].task.Materialising?
    ensures var uid := m.jobs[w].uid;
      uid !in m.completions && uid in m.records && m.records[uid].Uid() == uid &&
      (m.records[uid].state.Creating? ==>
        ResultSound(m.records, m.disk.dirs, uid, Completed(m.records[uid], m.jobs[w].task.published, retryable)))
  {
    assert JobSound(m.records, m.disk.dirs, m.jobs[w]);
  }

  lemma FinishKeeps(m: Manager, w: nat, retryable: bool, o: Outcome, v: Manager)
    requires Invariant(m) && m.up && FinishStep(m, w, retryable, o, v)
    ensures Invariant(v)
  {
    ResultIsSound(m, w, retryable);
    var uid, result := m.jobs[w].uid, m.jobs[w].task.published;
    if m.records[uid].state.Creating? {
      var completions := m.completions[uid := Completed(m.records[uid], result, retryable)];
      LeaveKeepsMemory(m, w, completions);
      assert StopSound(m.disk, Left(m, w).jobs, m.confirmed);
      CompletionKeeps(Left(m, w).(completions := completions), uid, o, v);
    } else {
      LeaveKeepsMemory(m, w, m.completions);
      assert StopSound(m.disk, Left(m, w).jobs, m.confirmed);
    }
  }

  lemma LeaveKeeps(m: Manager, w: nat)
    requires Invariant(m) && m.up && w in m.jobs && m.jobs[w].task.Leaving?
    ensures Invariant(Left(m, w))
  {
    LeaveKeepsMemory(m, w, m.completions);
    assert StopSound(Left(m, w).disk, Left(m, w).jobs, m.confirmed);
  }

  lemma RetryKeeps(m: Manager, uid: Uid, capacity: nat, o: Outcome, v: Manager)
    requires Invariant(m) && m.up && RetryStep(m, uid, capacity, o, v)
    ensures Invariant(v)
  {
    if uid in m.completions {
      CompletionKeeps(m, uid, o, v);
    } else {
      EnqueueKeeps(m, uid, capacity);
    }
  }

  // ----- removal -----

  lemma DeletingKeepsWork(records: Records, completions: Records, dirs: Directories, running: set<Uid>, jobs: map<nat, Job>, r: Record)
    requires JobsSound(records, dirs, running, jobs) && CompletionsSound(records, completions, running, dirs)
    requires r.state.Deleting? && (r.Uid() in records ==> records[r.Uid()].request == r.request)
    ensures JobsSound(records[r.Uid() := r], dirs, running, jobs)
    ensures CompletionsSound(records[r.Uid() := r], completions - {r.Uid()}, running, dirs)
  {
    forall w | w in jobs ensures jobs[w].uid in running && JobSound(records[r.Uid() := r], dirs, jobs[w]) {
      assert JobSound(records, dirs, jobs[w]);
    }
    forall k | k in completions && k != r.Uid() ensures ResultSound(records[r.Uid() := r], dirs, k, completions[k]) {
      assert ResultSound(records, dirs, k, completions[k]);
    }
  }

  lemma DeletingKeepsMemory(m: Manager, r: Record)
    requires MemorySound(m) && r.state.Deleting? && r.request.scope.Build() !in m.cleaning
    requires r.Uid() in m.disk.records && m.disk.records[r.Uid()].request == r.request
    ensures MemorySound(Persisted(m, r).(records := m.records[r.Uid() := r], completions := m.completions - {r.Uid()}))
  {
    var uid := r.Uid();
    CacheKeeps(m.disk.records, m.records, m.paths, r);
    DeletingKeepsWork(m.records, m.completions, m.disk.dirs, m.running, m.jobs, r);
    DeletingKeepsPublished(m.records, m.completions, m.disk.dirs, m.jobs, r);
    DeletingKeepsQueue(m.records, m.completions, m.queue, m.queued, m.running, r);
  }

  lemma DeletingKeepsPublished(records: Records, completions: Records, dirs: Directories, jobs: map<nat, Job>, r: Record)
    requires PublishedSound(records, completions, dirs, jobs) && r.state.Deleting?
    ensures PublishedSound(records[r.Uid() := r], completions - {r.Uid()}, dirs, jobs)
  {
  }

  lemma DeletingKeepsQueue(
      records: Records, completions: Records, queue: seq<Uid>, queued: set<Uid>, running: set<Uid>, r: Record)
    requires QueueSound(records, completions, queue, queued, running)
    ensures QueueSound(records[r.Uid() := r], completions - {r.Uid()}, queue, queued, running)
  {
  }

  lemma DeletingKeeps(m: Manager, r: Record)
    requires Invariant(m) && m.up && r.state.Deleting? && r.request.scope.Build() !in m.cleaning
    requires r.Uid() in m.disk.records && m.disk.records[r.Uid()].request == r.request
    ensures Invariant(Persisted(m, r).(records := m.records[r.Uid() := r], completions := m.completions - {r.Uid()}))
    ensures Invariant(Halted(Persisted(m, r)))
  {
    var u := Persisted(m, r).(records := m.records[r.Uid() := r], completions := m.completions - {r.Uid()});
    WriteKeepsDisk(m.disk, r);
    assert StopSound(u.disk, u.jobs, u.confirmed);
    DeletingKeepsMemory(m, r);
    HaltKeeps(u);
    assert Halted(u) == Halted(Persisted(m, r));
  }

  lemma KnownIsOnDisk(m: Manager, uid: Uid)
    requires Invariant(m) && m.up && RecordLocked(m, uid).Some?
    ensures var r := RecordLocked(m, uid).value;
      r.Uid() == uid && uid in m.disk.records && m.disk.records[uid].request == r.request &&
      (r.state.Deleting? ==> uid in m.records && uid !in m.completions)
  {
  }

  lemma DeleteKeeps(m: Manager, uid: Uid, capacity: nat, o: Outcome, v: Manager)
    requires Invariant(m) && m.up && DeleteStep(m, uid, capacity, o, v)
    ensures Invariant(v)
  {
    HaltKeeps(m);
    if v != m && v != Halted(m) {
      KnownIsOnDisk(m, uid);
      if RecordLocked(m, uid).value.state.Deleting? {
        EnqueueKeeps(m, uid, capacity);
      } else {
        DeleteWriteKeeps(m, RecordLocked(m, uid).value.(state := Deleting), capacity, o, v);
      }
    }
  }

  lemma DeleteWriteKeeps(m: Manager, r: Record, capacity: nat, o: Outcome, v: Manager)
    requires Invariant(m) && m.up && r.state.Deleting? && r.request.scope.Build() !in m.cleaning
    requires r.Uid() in m.disk.records && m.disk.records[r.Uid()].request == r.request
    requires var u := Persisted(m, r).(records := m.records[r.Uid() := r], completions := m.completions - {r.Uid()});
      v == Enqueued(u, r.Uid(), capacity) || v == Halted(Persisted(m, r))
    ensures Invariant(v)
  {
    DeletingKeeps(m, r);
    EnqueueKeeps(Persisted(m, r).(records := m.records[r.Uid() := r], completions := m.completions - {r.Uid()}),
                 r.Uid(), capacity);
  }

  /** A worker that removes goes on to another task that suits its version. */
  lemma DoingKeepsMemory(m: Manager, w: nat, t: Task)
    requires MemorySound(m) && w in m.jobs && !t.Materialising? && !Publisher(m.jobs, w, m.jobs[w].uid)
    requires JobSound(m.records, m.disk.dirs, m.jobs[w].(task := t))
    ensures MemorySound(Doing(m, w, t))
  {
    var v := Doing(m, w, t);
    forall uid | uid in v.records && v.records[uid].state.Creating? && v.records[uid].Key() in v.disk.dirs && uid !in v.completions
      ensures exists x :: Publisher(v.jobs, x, uid)
    {
      var x :| Publisher(m.jobs, x, uid);
      assert Publisher(v.jobs, x, uid);
    }
  }

  lemma DirectoryGone(m: Manager, uid: Uid)
    requires Invariant(m) && m.up && uid in m.records && m.records[uid].state.Deleting?
    requires forall w :: w in m.jobs && m.jobs[w].uid == uid ==> !m.jobs[w].task.Materialising?
    ensures var u := m.(disk := m.disk.(dirs := m.disk.dirs - {m.records[uid].Key()}));
      DiskSound(u.disk) && MemorySound(u) && StopSound(u.disk, u.jobs, u.confirmed)
  {
    var u := m.(disk := m.disk.(dirs := m.disk.dirs - {m.records[uid].Key()}));
    forall w | w in u.jobs ensures u.jobs[w].uid in u.running && JobSound(u.records, u.disk.dirs, u.jobs[w]) {
      assert JobSound(m.records, m.disk.dirs, m.jobs[w]);
    }
    forall k | k in u.completions ensures ResultSound(u.records, u.disk.dirs, k, u.completions[k]) {
      assert ResultSound(m.records, m.disk.dirs, k, m.completions[k]);
    }
    forall k | k in u.disk.records && u.disk.records[k].state.Creating? && u.disk.records[k].Key() in u.disk.dirs
      ensures Recovered(u.disk, u.disk.records[k]).state.Ready?
    {
      assert Recovered(u.disk, u.disk.records[k]) == Recovered(m.disk, m.disk.records[k]);
    }
    assert PublishedSound(u.records, u.completions, u.disk.dirs, u.jobs);
  }

  lemma DoingKeeps(m: Manager, w: nat, t: Task)
    requires DiskSound(m.disk) && StopSound(m.disk, m.jobs, m.confirmed) && MemorySound(m) && m.up
    requires w in m.jobs && !t.Materialising? && !Publisher(m.jobs, w, m.jobs[w].uid)
    requires JobSound(m.records, m.disk.dirs, m.jobs[w].(task := t))
    ensures Invariant(Doing(m, w, t))
  {
    DoingKeepsMemory(m, w, t);
    assert StopSound(m.disk, Doing(m, w, t).jobs, m.confirmed);
  }

  lemma MoveKeeps(m: Manager, w: nat, o: Outcome, v: Manager)
    requires Invariant(m) && m.up && MoveStep(m, w, o, v)
    ensures Invariant(v)
  {
    var uid := m.jobs[w].uid;
    assert JobSound(m.records, m.disk.dirs, m.jobs[w]);
    DirectoryGone(m, uid);
    var u := m.(disk := m.disk.(dirs := m.disk.dirs - {m.records[uid].Key()}));
    match o
    case Done => DoingKeeps(u, w, Erasing);
    case Error =>
      DoingKeeps(m, w, Leaving);
      DoingKeeps(u, w, Leaving);
    case Crash =>
      HaltKeeps(m);
      HaltKeeps(u);
  }

  /** A version without content may lose its record. */
  lemma EraseKeepsDisk(d: Disk, uid: Uid)
    requires DiskSound(d) && uid in d.records && d.records[uid].Key() !in d.dirs
    ensures DiskSound(d.(records := d.records - {uid}))
  {
    var e := d.(records := d.records - {uid});
    forall k | k in e.records && e.records[k].state.Creating? && e.records[k].Key() in e.dirs
      ensures Recovered(e, e.records[k]).state.Ready?
    {
      assert Recovered(d, d.records[k]) == Recovered(e, e.records[k]);
    }
  }

  lemma EraseKeepsMemory(m: Manager, w: nat)
    requires MemorySound(m) && w in m.jobs && m.jobs[w].task.Erasing?
    ensures var uid := m.jobs[w].uid;
      MemorySound(Doing(m, w, Leaving).(disk := m.disk.(records := m.disk.records - {uid}),
                                        records := m.records - {uid}, paths := m.paths - {uid}))
  {
    var uid := m.jobs[w].uid;
    assert JobSound(m.records, m.disk.dirs, m.jobs[w]);
    DoingKeepsMemory(m, w, Leaving);
    var u := Doing(m, w, Leaving);
    var e := u.(disk := m.disk.(records := m.disk.records - {uid}), records := m.records - {uid}, paths := m.paths - {uid});
    forall x | x in e.jobs ensures e.jobs[x].uid in e.running && JobSound(e.records, e.disk.dirs, e.jobs[x]) {
      assert JobSound(u.records, u.disk.dirs, u.jobs[x]);
    }
    forall k | k in e.completions ensures ResultSound(e.records, e.disk.dirs, k, e.completions[k]) {
      assert ResultSound(u.records, u.disk.dirs, k, u.completions[k]);
    }
    assert PublishedSound(e.records, e.completions, e.disk.dirs, e.jobs);
  }

  lemma EraseKeeps(m: Manager, w: nat, o: Outcome, v: Manager)
    requires Invariant(m) && m.up && EraseStep(m, w, o, v)
    ensures Invariant(v)
  {
    HaltKeeps(m);
    LetGoKeeps(m, w);
    ErasedKeeps(m, w);
  }

  lemma LetGoKeeps(m: Manager, w: nat)
    requires Invariant(m) && m.up && w in m.jobs
    requires m.jobs[w].task.Erasing?
    ensures Invariant(Doing(m, w, Leaving))
  {
    DoingKeepsMemory(m, w, Leaving);
    assert StopSound(m.disk, Doing(m, w, Leaving).jobs, m.confirmed);
  }

  lemma ErasedKeeps(m: Manager, w: nat)
    requires Invariant(m) && m.up && w in m.jobs && m.jobs[w].task.Erasing?
    ensures var uid := m.jobs[w].uid;
      var e := Doing(m, w, Leaving).(disk := m.disk.(records := m.disk.records - {uid}),
                                     records := m.records - {uid}, paths := m.paths - {uid});
      Invariant(e) && Invariant(Halted(e))
  {
    var uid := m.jobs[w].uid;
    var e := Doing(m, w, Leaving).(disk := m.disk.(records := m.disk.records - {uid}),
                                   records := m.records - {uid}, paths := m.paths - {uid});
    assert JobSound(m.records, m.disk.dirs, m.jobs[w]);
    EraseKeepsDisk(m.disk, uid);
    EraseKeepsMemory(m, w);
    assert StopSound(e.disk, e.jobs, e.confirmed);
    HaltKeeps(e);
  }

  // ----- stopping and cleaning up builds -----

  lemma MarkKeepsDisk(d: Disk, b: Build)
    requires DiskSound(d)
    ensures DiskSound(d.(stopped := d.stopped + {b}))
  {
    var e := d.(stopped := d.stopped + {b});
    assert forall r :: Recovered(e, r) == Recovered(d, r);
  }

  /** A drained build has no materialiser at work. */
  lemma DrainedIsIdle(m: Manager, b: Build)
    requires JobsSound(m.records, m.disk.dirs, m.running, m.jobs) && Drained(m, b)
    ensures forall w :: w in m.jobs ==> !MaterialisingFor(m.jobs[w], b)
  {
    forall w | w in m.jobs ensures !MaterialisingFor(m.jobs[w], b) {
      assert JobSound(m.records, m.disk.dirs, m.jobs[w]);
    }
  }

  lemma StopKeeps(m: Manager, b: Build, o: Outcome, answer: bool, v: Manager)
    requires Invariant(m) && m.up && StopStep(m, b, o, answer, v)
    ensures Invariant(v)
  {
    HaltKeeps(m);
    MarkKeeps(m, b);
    if answer { ConfirmKeeps(m.(disk := m.disk.(stopped := m.disk.stopped + {b})), b); }
  }

  lemma MarkKeeps(m: Manager, b: Build)
    requires Invariant(m) && m.up
    ensures var u := m.(disk := m.disk.(stopped := m.disk.stopped + {b})); Invariant(u) && Invariant(Halted(u))
  {
    MarkKeepsDisk(m.disk, b);
    HaltKeeps(m.(disk := m.disk.(stopped := m.disk.stopped + {b})));
  }

  lemma ConfirmKeeps(m: Manager, b: Build)
    requires Invariant(m) && m.up && b in m.disk.stopped && Drained(m, b)
    ensures Invariant(m.(confirmed := m.confirmed + {b}))
  {
    DrainedIsIdle(m, b);
  }

  lemma WipeKeepsDisk(m: Manager, b: Build, v: Manager)
    requires DiskSound(m.disk) && b in m.confirmed && StopSound(m.disk, m.jobs, m.confirmed) && WipeStep(m, b, v)
    ensures DiskSound(v.disk)
  {
    forall uid | uid in v.disk.records && v.disk.records[uid].state.Creating? && v.disk.records[uid].Key() in v.disk.dirs
      ensures Recovered(v.disk, v.disk.records[uid]).state.Ready?
    {
      assert Recovered(v.disk, v.disk.records[uid]) == Recovered(m.disk, m.disk.records[uid]);
    }
  }

  lemma WipeKeepsMemory(m: Manager, b: Build, v: Manager)
    requires DiskSound(m.disk) && MemorySound(m) && WipeStep(m, b, v)
    ensures MemorySound(v)
  {
    forall w | w in v.jobs ensures v.jobs[w].uid in v.running && JobSound(v.records, v.disk.dirs, v.jobs[w]) {
      assert JobSound(m.records, m.disk.dirs, m.jobs[w]);
    }
    forall k | k in v.completions ensures ResultSound(v.records, v.disk.dirs, k, v.completions[k]) {
      assert ResultSound(m.records, m.disk.dirs, k, m.completions[k]);
    }
  }

  lemma WipeKeeps(m: Manager, b: Build, v: Manager)
    requires Invariant(m) && m.up && WipeStep(m, b, v)
    ensures Invariant(v)
  {
    WipeKeepsDisk(m, b, v);
    WipeKeepsMemory(m, b, v);
    assert StopSound(v.disk, v.jobs, v.confirmed);
  }

  lemma EndKeeps(m: Manager, b: Build, done: bool, v: Manager)
    requires Invariant(m) && m.up && EndStep(m, b, done, v)
    ensures Invariant(v)
  {
    if done {
      var gone := set uid | uid in m.paths && m.paths[uid].Build() == b;
      assert m.records - gone == m.records && m.queued - gone == m.queued by {
        assert forall uid :: uid in m.records ==> m.records[uid].request.scope == m.paths[uid];
        assert gone !! m.records.Keys;
      }
    }
  }

  // ----- starts -----

  lemma BootKeepsDisk(m: Manager, v: Manager)
    requires DiskSound(m.disk) && StopSound(m.disk, m.jobs, m.confirmed) && BootStep(m, v) && m.jobs == map[]
    ensures DiskSound(v.disk) && StopSound(v.disk, map[], m.confirmed)
  {
    assert forall r :: Recovered(v.disk, r) == Recovered(m.disk, r);
    assert forall uid :: uid in v.disk.records ==> v.disk.records[uid].request == m.disk.records[uid].request;
  }

  /** After a start, a version that is still being created has no content. */
  lemma BootKeeps(m: Manager, v: Manager)
    requires Invariant(m) && BootStep(m, v)
    ensures Invariant(v)
  {
    BootKeepsDisk(m, v);
    if v.up {
      forall uid | uid in v.records && v.records[uid].state.Creating? ensures v.records[uid].Key() !in v.disk.dirs {
        assert v.disk.records[uid] == Recovered(m.disk, m.disk.records[uid]);
      }
      assert CacheSound(v.disk.records, v.records, v.paths);
    }
  }

  predicate ByWorker(step: Step) {
    step.Pop? || step.Publish? || step.Finish? || step.Move? || step.Erase? || step.Leave?
  }

  lemma WorkerKeeps(capacity: nat, m: Manager, step: Step, v: Manager)
    requires Invariant(m) && Next(capacity, m, step, v) && ByWorker(step)
    ensures Invariant(v)
  {
    match step
    case Pop(w) => PopKeeps(m, w);
    case Publish(w, digest) => PublishKeeps(m, w, digest, v);
    case Finish(w, retryable, o) => FinishKeeps(m, w, retryable, o, v);
    case Move(w, o) => MoveKeeps(m, w, o, v);
    case Erase(w, o) => EraseKeeps(m, w, o, v);
    case Leave(w) => LeaveKeeps(m, w);
  }

  lemma StepKeeps(capacity: nat, m: Manager, step: Step, v: Manager)
    requires Invariant(m) && Next(capacity, m, step, v)
    ensures Invariant(v)
  {
    if ByWorker(step) { WorkerKeeps(capacity, m, step, v); return; }
    match step
    case Submit(r, o) => SubmitKeeps(m, r, capacity, o, v);
    case Retry(uid, o) => RetryKeeps(m, uid, capacity, o, v);
    case Delete(uid, o) => DeleteKeeps(m, uid, capacity, o, v);
    case Stop(b, o, answer) => StopKeeps(m, b, o, answer, v);
    case Begin(b) => BeginKeeps(m, b, v);
    case Wipe(b) => WipeKeeps(m, b, v);
    case End(b, done) => EndKeeps(m, b, done, v);
    case Halt => HaltKeeps(m);
    case Boot => BootKeeps(m, v);
  }

  lemma BeginKeeps(m: Manager, b: Build, v: Manager)
    requires Invariant(m) && m.up && BeginStep(m, b, v)
    ensures Invariant(v)
  {
  }

  // ----- the promises, over every run -----

  const EMPTY := Manager(Disk(map[], map[], {}), false, map[], map[], map[], {}, [], {}, {}, map[], {})

  ghost predicate Steps(capacity: nat, run: seq<Manager>, steps: seq<Step>, i: nat)
    requires |run| == |steps| + 1 && i < |steps|
  {
    Next(capacity, run[i], steps[i], run[i + 1])
  }

  ghost predicate IsRun(capacity: nat, run: seq<Manager>, steps: seq<Step>) {
    |run| == |steps| + 1 && run[0] == EMPTY && forall i: nat :: i < |steps| ==> Steps(capacity, run, steps, i)
  }

  lemma {:induction false} InvariantHolds(capacity: nat, run: seq<Manager>, steps: seq<Step>, i: nat)
    requires IsRun(capacity, run, steps) && i < |run|
    ensures Invariant(run[i])
    decreases i
  {
    if i > 0 {
      InvariantHolds(capacity, run, steps, i - 1);
      assert Steps(capacity, run, steps, i - 1);
      StepKeeps(capacity, run[i - 1], steps[i - 1], run[i]);
    }
  }

  /** At most one worker acts on a version at a time; in particular removal never overlaps
      materialisation. */
  lemma OneWorkerPerVersion(capacity: nat, run: seq<Manager>, steps: seq<Step>, i: nat, w: nat, x: nat)
    requires IsRun(capacity, run, steps) && i < |run| && w in run[i].jobs && x in run[i].jobs
    ensures run[i].jobs[w].uid == run[i].jobs[x].uid ==> w == x
    ensures run[i].jobs[w].uid in run[i].running
  {
    InvariantHolds(capacity, run, steps, i);
  }

  /** The two ways in which content goes: a worker removes a version whose record is being deleted, or
      a clean-up empties the whole build. */
  predicate Removes(m: Manager, step: Step, key: (Scope, Uid)) {
    (step.Move? && step.w in m.jobs && m.jobs[step.w].uid == key.1 && key.1 in m.records && m.records[key.1].state.Deleting?) ||
    (step.Wipe? && step.build == key.0.Build() && step.build in m.cleaning)
  }

  lemma SubmitLeavesContent(m: Manager, r: Request, capacity: nat, o: Outcome, v: Manager)
    requires SubmitStep(m, r, capacity, o, v)
    ensures v.disk.dirs == m.disk.dirs
  {
  }

  lemma FinishLeavesContent(m: Manager, w: nat, retryable: bool, o: Outcome, v: Manager)
    requires FinishStep(m, w, retryable, o, v)
    ensures v.disk.dirs == m.disk.dirs
  {
  }

  lemma DeleteLeavesContent(m: Manager, uid: Uid, capacity: nat, o: Outcome, v: Manager)
    requires DeleteStep(m, uid, capacity, o, v)
    ensures v.disk.dirs == m.disk.dirs
  {
  }

  lemma RetryLeavesContent(m: Manager, uid: Uid, capacity: nat, o: Outcome, v: Manager)
    requires RetryStep(m, uid, capacity, o, v)
    ensures v.disk.dirs == m.disk.dirs
  {
  }

  lemma MoveLeavesContent(m: Manager, w: nat, o: Outcome, v: Manager, key: (Scope, Uid))
    requires MoveStep(m, w, o, v) && key in m.disk.dirs && !Removes(m, Step.Move(w, o), key)
    requires forall uid :: uid in m.records ==> m.records[uid].Uid() == uid
    ensures key in v.disk.dirs && v.disk.dirs[key] == m.disk.dirs[key]
  {
  }

  lemma RecordsAreKeyed(m: Manager)
    requires Invariant(m)
    ensures forall uid :: uid in m.records ==> m.records[uid].Uid() == uid
  {
  }

  lemma ContentStays(capacity: nat, m: Manager, step: Step, v: Manager, key: (Scope, Uid))
    requires Next(capacity, m, step, v) && key in m.disk.dirs && !Removes(m, step, key)
    requires forall uid :: uid in m.records ==> m.records[uid].Uid() == uid
    ensures key in v.disk.dirs && v.disk.dirs[key] == m.disk.dirs[key]
  {
    match step
    case Submit(r, o) => SubmitLeavesContent(m, r, capacity, o, v);
    case Finish(w, retryable, o) => FinishLeavesContent(m, w, retryable, o, v);
    case Retry(uid, o) => RetryLeavesContent(m, uid, capacity, o, v);
    case Delete(uid, o) => DeleteLeavesContent(m, uid, capacity, o, v);
    case Move(w, o) => MoveLeavesContent(m, w, o, v, key);
    case _ =>
  }

  predicate StartsFor(m: Manager, w: nat, key: (Scope, Uid)) {
    w in m.jobs && m.jobs[w].task.Materialising? && m.jobs[w].task.record.Key() == key
  }

  /** A worker starts to materialise a version only when the version has no content. */
  lemma StartsUnpublished(m: Manager, w: nat)
    requires Invariant(m) && m.up && |m.queue| > 0 && w !in m.jobs && w in Popped(m, w).jobs
    requires Popped(m, w).jobs[w].task.Materialising?
    ensures Popped(m, w).jobs[w].task.record.Key() !in m.disk.dirs
  {
    HeadIsFree(m);
  }

  lemma PopStartsUnpublished(capacity: nat, m: Manager, step: Step, v: Manager)
    requires Invariant(m) && Next(capacity, m, step, v) && step.Pop? && step.w in v.jobs && v.jobs[step.w].task.Materialising?
    ensures v.jobs[step.w].task.record.Key() !in m.disk.dirs
  {
    StartsUnpublished(m, step.w);
  }

  /** Published content stays as it is, and its version is never materialised again, until the version
      is removed: whatever completion writes fail and however often the process stops and starts. */
  lemma {:induction false} MaterialisedOnce(
      capacity: nat, run: seq<Manager>, steps: seq<Step>, i: nat, j: nat, key: (Scope, Uid))
    requires IsRun(capacity, run, steps) && i <= j < |run| && key in run[i].disk.dirs
    requires forall x: nat :: i <= x < j ==> !Removes(run[x], steps[x], key)
    ensures key in run[j].disk.dirs && run[j].disk.dirs[key] == run[i].disk.dirs[key]
    ensures j < |steps| && steps[j].Pop? ==> !StartsFor(run[j + 1], steps[j].w, key)
    decreases j
  {
    if i < j {
      MaterialisedOnce(capacity, run, steps, i, j - 1, key);
      InvariantHolds(capacity, run, steps, j - 1);
      assert Steps(capacity, run, steps, j - 1);
      RecordsAreKeyed(run[j - 1]);
      ContentStays(capacity, run[j - 1], steps[j - 1], run[j], key);
    }
    if j < |steps| && steps[j].Pop? && StartsFor(run[j + 1], steps[j].w, key) {
      InvariantHolds(capacity, run, steps, j);
      assert Steps(capacity, run, steps, j);
      PopStartsUnpublished(capacity, run[j], steps[j], run[j + 1]);
    }
  }

  /** A start accepts every version that was published before the process stopped, and rebuilds none. */
  lemma StartAcceptsPublished(capacity: nat, run: seq<Manager>, steps: seq<Step>, i: nat, uid: Uid)
    requires IsRun(capacity, run, steps) && i < |steps| && steps[i].Boot? && run[i + 1].up
    requires uid in run[i].disk.records && run[i].disk.records[uid].state.Creating?
    requires run[i].disk.records[uid].Key() in run[i].disk.dirs
    ensures uid in run[i + 1].disk.records && run[i + 1].disk.records[uid].state.Ready?
    ensures run[i + 1].disk.records[uid].digest == Some(run[i].disk.dirs[run[i].disk.records[uid].Key()].actual)
    ensures uid !in run[i + 1].records
  {
    InvariantHolds(capacity, run, steps, i);
    InvariantHolds(capacity, run, steps, i + 1);
    assert Steps(capacity, run, steps, i);
  }

  /** The periodic retry of a kept result, when its write succeeds, records exactly what the worker
      published, and the version is then ready. */
  lemma KeptResultIsWritten(capacity: nat, run: seq<Manager>, steps: seq<Step>, i: nat, uid: Uid)
    requires IsRun(capacity, run, steps) && i < |steps| && steps[i] == Retry(uid, Done)
    requires uid in run[i].completions && run[i].completions[uid].state.Ready?
    ensures RecordLocked(run[i + 1], uid) == Some(run[i].completions[uid])
    ensures uid in run[i + 1].disk.records && run[i + 1].disk.records[uid] == run[i].completions[uid]
  {
    InvariantHolds(capacity, run, steps, i);
    assert Steps(capacity, run, steps, i);
    assert ResultSound(run[i].records, run[i].disk.dirs, uid, run[i].completions[uid]);
  }

  lemma ConfirmedGrows(capacity: nat, m: Manager, step: Step, v: Manager)
    requires Next(capacity, m, step, v)
    ensures m.confirmed <= v.confirmed
  {
  }

  lemma {:induction false} ConfirmedStays(capacity: nat, run: seq<Manager>, steps: seq<Step>, i: nat, j: nat)
    requires IsRun(capacity, run, steps) && i <= j < |run|
    ensures run[i].confirmed <= run[j].confirmed
    decreases j
  {
    if i < j {
      ConfirmedStays(capacity, run, steps, i, j - 1);
      assert Steps(capacity, run, steps, j - 1);
      ConfirmedGrows(capacity, run[j - 1], steps[j - 1], run[j]);
    }
  }

  lemma ConfirmedIsIdle(m: Manager, b: Build, uid: Uid, w: nat)
    requires Invariant(m) && b in m.confirmed
    ensures uid in m.disk.records && m.disk.records[uid].request.scope.Build() == b ==> !m.disk.records[uid].state.Creating?
    ensures w in m.jobs ==> !MaterialisingFor(m.jobs[w], b)
    ensures b in m.disk.stopped
  {
  }

  lemma AnswerConfirms(capacity: nat, m: Manager, step: Step, v: Manager)
    requires Next(capacity, m, step, v) && step.Stop? && step.answer
    ensures step.build in v.confirmed
  {
  }

  /** Once StopBuild has answered true, at every later moment the build has its marker, no version of it
      is being created, and no materialiser works for it. */
  lemma StoppedForEver(
      capacity: nat, run: seq<Manager>, steps: seq<Step>, i: nat, j: nat, uid: Uid, w: nat)
    requires IsRun(capacity, run, steps) && i < j < |run| && steps[i].Stop? && steps[i].answer
    ensures steps[i].build in run[j].disk.stopped
    ensures uid in run[j].disk.records && run[j].disk.records[uid].request.scope.Build() == steps[i].build ==>
      !run[j].disk.records[uid].state.Creating?
    ensures w in run[j].jobs ==> !MaterialisingFor(run[j].jobs[w], steps[i].build)
  {
    assert Steps(capacity, run, steps, i);
    AnswerConfirms(capacity, run[i], steps[i], run[i + 1]);
    ConfirmedStays(capacity, run, steps, i + 1, j);
    InvariantHolds(capacity, run, steps, j);
    ConfirmedIsIdle(run[j], steps[i].build, uid, w);
  }
}
