/** Repository versions as a transition system: each step is one lock section or one file operation of
    the repository manager, a process stop, or a process start. */
module Repository {
  import opened Core

  type Uid = string

  /** A build of a project: what is stopped and cleaned up together. */
  type Build = (string, string)

  datatype Scope = Scope(project: string, arch: string, build: string) {
    function Build(): Build { (project, build) }
  }

  /** A normalised request. Its digest is injective, so comparing digests is comparing requests. */
  datatype Request = Request(uid: Uid, scope: Scope, base: Option<Uid>, jobs: seq<string>)

  datatype State = Creating | Ready | Failed(retryable: bool) | Deleting

  datatype Record = Record(request: Request, state: State, digest: Option<Digest>) {
    function Uid(): Uid { request.uid }
    function Key(): (Scope, Uid) { (request.scope, request.uid) }
  }

  datatype Index = Index(request: Request, digest: Digest)

  /** A version's directory: its index file, and the digest recomputed from its other files. */
  datatype Directory = Directory(index: Option<Index>, actual: Digest)

  type Records = map<Uid, Record>
  type Directories = map<(Scope, Uid), Directory>

  datatype Disk = Disk(records: Records, dirs: Directories, stopped: set<Build>)

  /** What a worker is doing. `based` says that the base repository was ready when the work began. */
  datatype Task =
    | Materialising(record: Record, based: bool, published: Option<Digest>)
    | Removing
    | Erasing
    | Leaving

  datatype Job = Job(uid: Uid, task: Task)

  datatype Manager = Manager(
    disk: Disk, up: bool,
    records: Records,              // the in-memory cache of unfinished records
    completions: Records,          // results whose record is not written yet
    paths: map<Uid, Scope>, cleaning: set<Build>,
    queue: seq<Uid>, queued: set<Uid>, running: set<Uid>, jobs: map<nat, Job>,
    confirmed: set<Build>)         // bookkeeping of the proof: builds for which StopBuild has returned true

  predicate Unfinished(s: State) {
    s.Creating? || s.Deleting?
  }

  function Published(r: Request, digest: Digest): Directory {
    Directory(Some(Index(r, digest)), digest)
  }

  /** A ready record whose content is gone reads as failed. */
  function Seen(d: Disk, r: Record): Record {
    if r.state.Ready? && (r.Key() !in d.dirs || d.dirs[r.Key()].index.None?) then r.(state := Failed(false)) else r
  }

  /** What recordLocked answers: the cached record, or else the file at the known path. */
  function RecordLocked(m: Manager, uid: Uid): Option<Record> {
    if uid in m.records then Some(m.records[uid])
    else if uid in m.paths && uid in m.disk.records && m.disk.records[uid].request.scope == m.paths[uid]
    then Some(Seen(m.disk, m.disk.records[uid]))
    else None
  }

  // ----- persisting a record -----

  predicate InScope(m: Manager, r: Record) {
    r.Uid() in m.paths ==> m.paths[r.Uid()] == r.request.scope
  }

  function Persisted(m: Manager, r: Record): Manager {
    m.(disk := m.disk.(records := m.disk.records[r.Uid() := r]), paths := m.paths[r.Uid() := r.request.scope])
  }

  /** The process stops: only the disk is left. */
  function Halted(m: Manager): Manager {
    Manager(m.disk, false, map[], map[], map[], {}, [], {}, {}, map[], m.confirmed)
  }

  predicate PersistStep(m: Manager, r: Record, o: Outcome, v: Manager) {
    match o
    case Done => InScope(m, r) && v == Persisted(m, r)
    case Error => v == m
    case Crash => v == Halted(m) || (InScope(m, r) && v == Halted(Persisted(m, r)))
  }

  function Enqueued(m: Manager, uid: Uid, capacity: nat): Manager {
    if uid in m.queued || uid in m.running || |m.queue| >= capacity then m
    else m.(queue := m.queue + [uid], queued := m.queued + {uid})
  }

  // ----- lock sections and file operations -----

  predicate BaseReady(m: Manager, r: Request) {
    r.base.Some? ==>
      var base := RecordLocked(m, r.base.value);
      base.Some? && base.value.state.Ready? && base.value.request.scope.project == r.scope.project &&
      base.value.request.scope.arch == r.scope.arch
  }

  datatype Decision = Refuse(code: string) | Existing | Write(record: Record)

  function SubmitDecision(m: Manager, r: Request, capacity: nat): Decision {
    var known := RecordLocked(m, r.uid);
    if r.scope.Build() in m.cleaning then Refuse("RepositoryDeleting")
    else if r.scope.Build() in m.disk.stopped then Refuse("BuildStopped")
    else if known.Some? && known.value.request == r && known.value.state.Ready? then Existing
    else if !BaseReady(m, r) then Refuse("BaseRepositoryNotReady")
    else if known.Some? && known.value.request != r then Refuse("RepositoryIdentityConflict")
    else if known.Some? && known.value.state.Deleting? then Refuse("RepositoryDeleting")
    else if known.Some? && known.value.state != Failed(true) then Existing
    else if |m.queue| >= capacity then Refuse("RepositoryQueueFull")
    else Write(Record(r, Creating, if known.Some? then known.value.digest else None))
  }

  predicate SubmitStep(m: Manager, r: Request, capacity: nat, o: Outcome, v: Manager) {
    match SubmitDecision(m, r, capacity)
    case Write(record) =>
      if o == Done then
        InScope(m, record) &&
        v == Enqueued(Persisted(m, record).(records := m.records[r.uid := record]), r.uid, capacity)
      else PersistStep(m, record, o, v)
    case _ => v == m
  }

  /** The base as a worker looks it up: only its state counts. */
  predicate BaseStillReady(m: Manager, r: Request) {
    r.base.Some? ==> RecordLocked(m, r.base.value).Some? && RecordLocked(m, r.base.value).value.state.Ready?
  }

  function TaskFor(m: Manager, r: Record): Task {
    if r.state.Creating? then Materialising(r, BaseStillReady(m, r.request), None) else Removing
  }

  /** An idle worker takes the head of the queue. */
  function Popped(m: Manager, w: nat): Manager
    requires |m.queue| > 0
  {
    var uid := m.queue[0];
    var u := m.(queue := m.queue[1..], queued := m.queued - {uid});
    if uid !in m.records || uid in m.running || !Unfinished(m.records[uid].state) then u
    else u.(running := m.running + {uid}, jobs := m.jobs[w := Job(uid, TaskFor(u, m.records[uid]))])
  }

  /** The materialiser renames its finished work directory into place; a rename never replaces. */
  predicate PublishStep(m: Manager, w: nat, digest: Digest, v: Manager) {
    w in m.jobs && m.jobs[w].task.Materialising? && m.jobs[w].task.based && m.jobs[w].task.published.None? &&
    var r := m.jobs[w].task.record;
    r.Key() !in m.disk.dirs &&
    v == m.(disk := m.disk.(dirs := m.disk.dirs[r.Key() := Published(r.request, digest)]),
            jobs := m.jobs[w := m.jobs[w].(task := m.jobs[w].task.(published := Some(digest)))])
  }

  /** A worker lets go of its version. */
  function Left(m: Manager, w: nat): Manager
    requires w in m.jobs
  {
    m.(running := m.running - {m.jobs[w].uid}, jobs := m.jobs - {w})
  }

  function Completed(r: Record, result: Option<Digest>, retryable: bool): Record {
    if result.Some? then r.(state := Ready, digest := result) else r.(state := Failed(retryable))
  }

  /** Writes a result; while that fails, the record stays `Creating` and the result is kept. */
  predicate CompletionStep(m: Manager, uid: Uid, o: Outcome, v: Manager) {
    uid in m.completions && m.completions[uid].Uid() == uid &&
    var r := m.completions[uid];
    if o == Done then
      InScope(m, r) && v == Persisted(m, r).(completions := m.completions - {uid}, records := m.records - {uid})
    else PersistStep(m, r, o, v)
  }

  predicate FinishStep(m: Manager, w: nat, retryable: bool, o: Outcome, v: Manager) {
    w in m.jobs && m.jobs[w].task.Materialising? &&
    var uid, result := m.jobs[w].uid, m.jobs[w].task.published;
    var u := Left(m, w);
    if uid !in m.records || !m.records[uid].state.Creating? then v == u
    else CompletionStep(u.(completions := m.completions[uid := Completed(m.records[uid], result, retryable)]), uid, o, v)
  }

  /** One version of a periodic retry: writes a kept result, or requeues the unfinished work. */
  predicate RetryStep(m: Manager, uid: Uid, capacity: nat, o: Outcome, v: Manager) {
    uid in m.records &&
    if uid in m.completions then CompletionStep(m, uid, o, v)
    else v == if Unfinished(m.records[uid].state) then Enqueued(m, uid, capacity) else m
  }

  /** A periodic retry visits every unfinished version once; the trace has the states between. */
  ghost predicate RetryRun(visits: seq<(Uid, Outcome)>, trace: seq<Manager>, capacity: nat) {
    |trace| == |visits| + 1 && forall i: nat :: i < |visits| ==> Visit(visits, trace, capacity, i)
  }

  ghost predicate Visit(visits: seq<(Uid, Outcome)>, trace: seq<Manager>, capacity: nat, i: nat)
    requires |trace| == |visits| + 1 && i < |visits|
  {
    RetryStep(trace[i], visits[i].0, capacity, visits[i].1, trace[i + 1])
  }

  lemma RetryContinues(visits: seq<(Uid, Outcome)>, trace: seq<Manager>, capacity: nat, uid: Uid, o: Outcome, v: Manager)
    requires RetryRun(visits, trace, capacity) && RetryStep(trace[|visits|], uid, capacity, o, v)
    ensures RetryRun(visits + [(uid, o)], trace + [v], capacity)
  {
    var more, longer := visits + [(uid, o)], trace + [v];
    forall i: nat | i < |more| ensures Visit(more, longer, capacity, i) {
      if i < |visits| {
        assert Visit(visits, trace, capacity, i);
        assert more[i] == visits[i] && longer[i] == trace[i] && longer[i + 1] == trace[i + 1];
      }
    }
  }

  predicate DeleteStep(m: Manager, uid: Uid, capacity: nat, o: Outcome, v: Manager) {
    var r := RecordLocked(m, uid);
    if r.None? || r.value.request.scope.Build() in m.cleaning then v == m
    else if r.value.state.Deleting? then v == Enqueued(m, uid, capacity)
    else
      var deleting := r.value.(state := Deleting);
      if o == Done then
        InScope(m, deleting) &&
        v == Enqueued(Persisted(m, deleting).(records := m.records[uid := deleting], completions := m.completions - {uid}),
                      uid, capacity)
      else PersistStep(m, deleting, o, v)
  }

  function Doing(m: Manager, w: nat, t: Task): Manager
    requires w in m.jobs
  {
    m.(jobs := m.jobs[w := m.jobs[w].(task := t)])
  }

  /** Removal renames the directory away and deletes it; either may fail. */
  predicate MoveStep(m: Manager, w: nat, o: Outcome, v: Manager) {
    w in m.jobs && m.jobs[w].task.Removing? &&
    var uid := m.jobs[w].uid;
    if uid !in m.records || !m.records[uid].state.Deleting? then v == Doing(m, w, Leaving)
    else
      var u := m.(disk := m.disk.(dirs := m.disk.dirs - {m.records[uid].Key()}));
      match o
      case Done => v == Doing(u, w, Erasing)
      case Error => v == Doing(m, w, Leaving) || v == Doing(u, w, Leaving)
      case Crash => v == Halted(m) || v == Halted(u)
  }

  /** Then it deletes the record, under the lock. */
  predicate EraseStep(m: Manager, w: nat, o: Outcome, v: Manager) {
    w in m.jobs && m.jobs[w].task.Erasing? &&
    var uid := m.jobs[w].uid;
    var u := Doing(m, w, Leaving);
    if uid !in m.records || !m.records[uid].state.Deleting? || o == Error then v == u
    else
      var e := u.(disk := m.disk.(records := m.disk.records - {uid}), records := m.records - {uid}, paths := m.paths - {uid});
      if o == Done then v == e else v == Halted(m) || v == Halted(e)
  }

  /** No unfinished record of the build is left. */
  ghost predicate Drained(m: Manager, b: Build) {
    forall uid :: uid in m.records ==> m.records[uid].request.scope.Build() != b
  }

  /** The marker is made durable first; the answer is true only when the accepted work has finished. */
  ghost predicate StopStep(m: Manager, b: Build, o: Outcome, answer: bool, v: Manager) {
    var u := m.(disk := m.disk.(stopped := m.disk.stopped + {b}));
    match o
    case Done => answer == Drained(m, b) && v == if answer then u.(confirmed := m.confirmed + {b}) else u
    case Error => !answer && (v == m || v == u)
    case Crash => !answer && (v == Halted(m) || v == Halted(u))
  }

  /** A clean-up reserves its build. The caller has had true from StopBuild. */
  ghost predicate BeginStep(m: Manager, b: Build, v: Manager) {
    b in m.confirmed && v == if b in m.cleaning || !Drained(m, b) then m else m.(cleaning := m.cleaning + {b})
  }

  /** The recursive removal of the build's directories may stop anywhere and leave parts behind. */
  ghost predicate WipeStep(m: Manager, b: Build, v: Manager) {
    b in m.cleaning && v == m.(disk := m.disk.(records := v.disk.records, dirs := v.disk.dirs)) &&
    (forall uid :: uid in v.disk.records ==> uid in m.disk.records && v.disk.records[uid] == m.disk.records[uid]) &&
    (forall uid :: uid in m.disk.records && m.disk.records[uid].request.scope.Build() != b ==> uid in v.disk.records) &&
    (forall k :: k in v.disk.dirs ==> k in m.disk.dirs) &&
    forall k :: k in m.disk.dirs && k.0.Build() != b ==> k in v.disk.dirs && v.disk.dirs[k] == m.disk.dirs[k]
  }

  ghost predicate EndStep(m: Manager, b: Build, done: bool, v: Manager) {
    b in m.cleaning &&
    if done then
      (forall uid :: uid in m.disk.records ==> m.disk.records[uid].request.scope.Build() != b) &&
      (forall k :: k in m.disk.dirs ==> k.0.Build() != b) &&
      var gone := set uid | uid in m.paths && m.paths[uid].Build() == b;
      v == m.(cleaning := m.cleaning - {b}, records := m.records - gone, paths := m.paths - gone, queued := m.queued - gone)
    else v == m.(cleaning := m.cleaning - {b})
  }

  // ----- start-up -----

  /** A version that was published just before the process stopped is accepted. */
  function Recovered(d: Disk, r: Record): Record {
    if r.state.Creating? && r.Key() in d.dirs && d.dirs[r.Key()].index.Some? &&
       d.dirs[r.Key()].index.value == Index(r.request, d.dirs[r.Key()].actual)
    then r.(state := Ready, digest := Some(d.dirs[r.Key()].actual))
    else r
  }

  /** A start recovers the records one by one and may stop after any write. */
  ghost predicate BootStep(m: Manager, v: Manager) {
    !m.up && v.disk == m.disk.(records := v.disk.records) && v.disk.records.Keys == m.disk.records.Keys &&
    (forall uid :: uid in m.disk.records ==>
      v.disk.records[uid] == m.disk.records[uid] || v.disk.records[uid] == Recovered(m.disk, m.disk.records[uid])) &&
    if v.up then
      (forall uid :: uid in m.disk.records ==> v.disk.records[uid] == Recovered(m.disk, m.disk.records[uid])) &&
      v == Halted(m).(up := true, disk := v.disk,
        records := map uid | uid in v.disk.records && Unfinished(v.disk.records[uid].state) :: v.disk.records[uid],
        paths := map uid | uid in v.disk.records :: v.disk.records[uid].request.scope)
    else v == m.(disk := v.disk)
  }

  datatype Step =
    | Submit(request: Request, o: Outcome) | Pop(w: nat) | Publish(w: nat, digest: Digest)
    | Finish(w: nat, retryable: bool, o: Outcome) | Retry(uid: Uid, o: Outcome) | Delete(uid: Uid, o: Outcome)
    | Move(w: nat, o: Outcome) | Erase(w: nat, o: Outcome) | Leave(w: nat)
    | Stop(build: Build, o: Outcome, answer: bool) | Begin(build: Build) | Wipe(build: Build) | End(build: Build, done: bool)
    | Halt | Boot

  ghost predicate Next(capacity: nat, m: Manager, step: Step, v: Manager) {
    if step.Boot? then BootStep(m, v)
    else m.up && match step
      case Submit(r, o) => SubmitStep(m, r, capacity, o, v)
      case Pop(w) => |m.queue| > 0 && w !in m.jobs && v == Popped(m, w)
      case Publish(w, digest) => PublishStep(m, w, digest, v)
      case Finish(w, retryable, o) => FinishStep(m, w, retryable, o, v)
      case Retry(uid, o) => RetryStep(m, uid, capacity, o, v)
      case Delete(uid, o) => DeleteStep(m, uid, capacity, o, v)
      case Move(w, o) => MoveStep(m, w, o, v)
      case Erase(w, o) => EraseStep(m, w, o, v)
      case Leave(w) => w in m.jobs && m.jobs[w].task.Leaving? && v == Left(m, w)
      case Stop(b, o, answer) => StopStep(m, b, o, answer, v)
      case Begin(b) => BeginStep(m, b, v)
      case Wipe(b) => WipeStep(m, b, v)
      case End(b, done) => EndStep(m, b, done, v)
      case Halt => v == Halted(m)
      case Boot => false
  }
}
