/** Releases as a transition system: each step is one lock section or one file operation of the
    release manager, a process stop, or a process start. */
module Release {
  import opened Core

  type Name = string

  datatype Target = Target(project: string, arch: string)

  datatype State = Creating | Prepared | Ready | Failed(retryable: bool) | Deleting

  /** A normalised request. Its digest is injective, so comparing digests is comparing requests. */
  datatype Request = Request(name: Name, target: Target, source: string, excluded: set<string>)

  datatype Record = Record(request: Request, state: State, digest: Option<Digest>) {
    function Name(): Name { request.name }
    function Target(): Target { request.target }
    predicate In(project: string) { request.target.project == project }
  }

  datatype Index = Index(request: Request, digest: Digest)

  /** A release directory: its index file, and the digest recomputed from its other files. */
  datatype Directory = Directory(index: Option<Index>, actual: Digest)

  datatype Disk = Disk(
    records: map<Name, Record>, dirs: map<(Target, Name), Directory>,
    current: map<Target, Name>,       // where each target's `current` link points
    stopped: set<(string, Name)>)     // durable stop markers

  /** How far a materialiser is: it has not reached its rename, its rename has put the directory in place,
      or its rename has found another directory there. */
  datatype Made = Working | Published(digest: Digest) | Conflicting

  /** What a worker is doing with a name. */
  datatype Job =
    | Materialising(record: Record, made: Made)
    | Activating
    | Removing(moved: bool)
    | Leaving

  /** A build clean-up: the architectures found, those whose `current` was checked, those whose
      release directory is gone, and those whose record is gone too. */
  datatype Cleaning = Cleaning(
    project: string, arches: set<string>, checked: set<string>, emptied: set<string>, removed: set<string>)

  datatype Manager = Manager(
    disk: Disk, up: bool,
    records: map<Name, Record>,   // the in-memory cache of unfinished records
    paths: map<Name, Target>,     // where each known name's record file is
    cleaning: map<Name, Cleaning>, queued: set<Name>, running: map<Name, Job>, queue: seq<Name>,
    // bookkeeping of the proof: builds for which StopBuild has returned true, and names whose
    // build clean-up has begun and not completed in this process
    confirmed: set<(string, Name)>, begun: set<Name>)

  predicate Active(s: State) {
    s.Creating? || s.Prepared? || s.Deleting?
  }

  predicate Stopped(d: Disk, r: Record) {
    (r.Target().project, r.Name()) in d.stopped
  }

  predicate IsCurrent(d: Disk, t: Target, n: Name) {
    t in d.current && d.current[t] == n
  }

  /** The record's directory is there, its index is the one written for this request, and its files
      have the digest that the index and the record name. */
  predicate Intact(d: Disk, r: Record) {
    (r.Target(), r.Name()) in d.dirs && r.digest.Some? &&
    d.dirs[(r.Target(), r.Name())] == Directory(Some(Index(r.request, r.digest.value)), r.digest.value)
  }

  /** What recordLocked answers: the cached record, or else the file at the known path. */
  function RecordLocked(m: Manager, n: Name): Option<Record> {
    if n in m.records then Some(m.records[n])
    else if n in m.paths && n in m.disk.records && m.disk.records[n].Target() == m.paths[n] then Some(m.disk.records[n])
    else None
  }

  // ----- persisting a record -----

  function Persisted(m: Manager, r: Record): Manager {
    m.(disk := m.disk.(records := m.disk.records[r.Name() := r]),
       paths := m.paths[r.Name() := r.Target()],
       records := if Active(r.state) then m.records[r.Name() := r] else m.records - {r.Name()})
  }

  /** A record file never moves. */
  predicate InScope(m: Manager, r: Record) {
    r.Name() in m.paths ==> m.paths[r.Name()] == r.Target()
  }

  /** The process stops: only the disk is left. */
  function Halted(m: Manager): Manager {
    m.(up := false, records := map[], paths := map[], cleaning := map[], queued := {}, running := map[],
       queue := [], begun := {})
  }

  predicate PersistStep(m: Manager, r: Record, o: Outcome, v: Manager) {
    match o
    case Done => InScope(m, r) && v == Persisted(m, r)
    case Error => v == m
    case Crash => v == Halted(m) || (InScope(m, r) && v == Halted(Persisted(m, r)))
  }

  function Enqueued(m: Manager, n: Name, capacity: nat): Manager {
    if n in m.queued || n in m.running || |m.queue| >= capacity then m
    else m.(queue := m.queue + [n], queued := m.queued + {n})
  }

  // ----- lock sections and file operations -----

  datatype Decision = Refuse(code: string) | Existing | Write(record: Record)

  function SubmitDecision(m: Manager, r: Request, sourceReady: bool, capacity: nat): Decision {
    var known := RecordLocked(m, r.name);
    if r.name in m.cleaning then Refuse("ReleaseDeleting")
    else if (r.target.project, r.name) in m.disk.stopped then Refuse("BuildStopped")
    else if !sourceReady then Refuse("SourceRepositoryNotReady")
    else if known.Some? && known.value.request != r then Refuse("ReleaseIdentityConflict")
    else if known.Some? && known.value.state.Deleting? then Refuse("ReleaseDeleting")
    else if known.Some? && known.value.state != Failed(true) then Existing
    else if |m.queue| >= capacity then Refuse("ReleaseQueueFull")
    else Write(if known.Some? then known.value.(state := Creating) else Record(r, Creating, None))
  }

  predicate SubmitStep(m: Manager, r: Request, sourceReady: bool, capacity: nat, o: Outcome, v: Manager) {
    match SubmitDecision(m, r, sourceReady, capacity)
    case Write(record) =>
      if o == Done then InScope(m, record) && v == Enqueued(Persisted(m, record), r.name, capacity)
      else PersistStep(m, record, o, v)
    case _ => v == m
  }

  function JobFor(r: Record): Job {
    if r.state.Creating? then Materialising(r, Working) else if r.state.Prepared? then Activating else Removing(false)
  }

  /** A worker takes the head of the queue; names without unfinished work, or with a worker, are dropped. */
  function Popped(m: Manager): Manager
    requires |m.queue| > 0
  {
    var n := m.queue[0];
    var u := m.(queue := m.queue[1..], queued := m.queued - {n});
    if n !in m.records || n in m.running || !Active(m.records[n].state) then u
    else u.(running := m.running[n := JobFor(m.records[n])])
  }

  /** The materialiser renames its finished work directory into place. */
  predicate PublishStep(m: Manager, n: Name, digest: Digest, v: Manager) {
    n in m.running && m.running[n].Materialising? && m.running[n].made.Working? &&
    var r := m.running[n].record;
    (r.Target(), n) !in m.disk.dirs &&
    v == m.(disk := m.disk.(dirs := m.disk.dirs[(r.Target(), n) :=
                                      Directory(Some(Index(r.request, digest)), digest)]),
            running := m.running[n := Materialising(r, Published(digest))])
  }

  /** A rename never replaces a directory: the materialiser reports an identity conflict. */
  predicate ConflictStep(m: Manager, n: Name, v: Manager) {
    n in m.running && m.running[n].Materialising? && m.running[n].made.Working? &&
    var r := m.running[n].record;
    (r.Target(), n) in m.disk.dirs && v == m.(running := m.running[n := Materialising(r, Conflicting)])
  }

  /** The record that a materialiser leaves. A conflict is final; whether an earlier failure may be
      retried depends on the failure. */
  function Completed(r: Record, made: Made, retryable: bool): Record {
    match made
    case Published(digest) => r.(state := Prepared, digest := Some(digest))
    case Conflicting => r.(state := Failed(false))
    case Working => r.(state := Failed(retryable))
  }

  predicate FinishStep(m: Manager, n: Name, retryable: bool, o: Outcome, v: Manager) {
    n in m.running && m.running[n].Materialising? &&
    var made := m.running[n].made;
    var u := m.(running := m.running - {n});
    if n !in m.records || !m.records[n].state.Creating? then v == u
    else
      var r := Completed(m.records[n], made, retryable);
      if made.Published? && o == Done then InScope(u, r) && v == Persisted(m, r).(running := m.running[n := Activating])
      else PersistStep(u, r, o, v)
  }

  /** A worker lets go of a name. */
  function Left(m: Manager, n: Name): Manager {
    m.(running := m.running - {n})
  }

  predicate MayActivate(m: Manager, n: Name) {
    n !in m.cleaning && RecordLocked(m, n).Some? &&
    var r := RecordLocked(m, n).value;
    r.state.Prepared? && !Stopped(m.disk, r)
  }

  function Pointed(m: Manager, r: Record): Manager {
    m.(disk := m.disk.(current := m.disk.current[r.Target() := r.Name()]))
  }

  /** Activation moves the link, then writes the record; it may stop or fail before, between or after. */
  predicate ActivateStep(m: Manager, n: Name, o: Outcome, v: Manager) {
    n in m.running && m.running[n].Activating? &&
    var u := m.(running := m.running[n := Leaving]);
    if !MayActivate(m, n) then v == u
    else
      var r := RecordLocked(m, n).value;
      var ready := r.(state := Ready);
      match o
      case Done => InScope(u, ready) && v == Persisted(Pointed(u, r), ready)
      case Error => v == u || v == Pointed(u, r)
      case Crash =>
        v == Halted(u) || v == Halted(Pointed(u, r)) ||
        (InScope(u, ready) && v == Halted(Persisted(Pointed(u, r), ready)))
  }

  predicate DeleteStep(m: Manager, n: Name, capacity: nat, o: Outcome, v: Manager) {
    var r := RecordLocked(m, n);
    if r.None? || n in m.cleaning || IsCurrent(m.disk, r.value.Target(), n) then v == m
    else if r.value.state.Deleting? then v == Enqueued(m, n, capacity)
    else
      var deleting := r.value.(state := Deleting);
      if o == Done then InScope(m, deleting) && v == Enqueued(Persisted(m, deleting), n, capacity)
      else PersistStep(m, deleting, o, v)
  }

  /** One expired release of the history; which releases are old enough is given. */
  predicate HistoryStep(m: Manager, n: Name, capacity: nat, o: Outcome, v: Manager) {
    n in m.paths && n in m.disk.records && m.disk.records[n].Target() == m.paths[n] &&
    var r := m.disk.records[n];
    r.state.Ready? && n !in m.cleaning && !IsCurrent(m.disk, r.Target(), n) &&
    var deleting := r.(state := Deleting);
    if o == Done then InScope(m, deleting) && v == Enqueued(Persisted(m, deleting), n, capacity)
    else PersistStep(m, deleting, o, v)
  }

  /** Removal first renames the directory away and deletes it; either may fail. */
  predicate MoveStep(m: Manager, n: Name, o: Outcome, v: Manager) {
    n in m.running && m.running[n] == Removing(false) &&
    if n !in m.records || !m.records[n].state.Deleting? then v == m.(running := m.running[n := Leaving])
    else
      var u := m.(disk := m.disk.(dirs := m.disk.dirs - {(m.records[n].Target(), n)}));
      match o
      case Done => v == u.(running := m.running[n := Removing(true)])
      case Error => v == m.(running := m.running[n := Leaving]) || v == u.(running := m.running[n := Leaving])
      case Crash => v == Halted(m) || v == Halted(u)
  }

  /** Then it deletes the record, under the lock. */
  predicate EraseStep(m: Manager, n: Name, o: Outcome, v: Manager) {
    n in m.running && m.running[n] == Removing(true) &&
    var u := m.(running := m.running[n := Leaving]);
    if n !in m.records || !m.records[n].state.Deleting? || o == Error then v == u
    else
      var e := u.(disk := m.disk.(records := m.disk.records - {n}), records := m.records - {n}, paths := m.paths - {n});
      if o == Done then v == e else v == Halted(u) || v == Halted(e)
  }

  /** Unfinished work that is to be queued again; a stopped build's prepared release is not. */
  predicate Retryable(m: Manager, n: Name) {
    n in m.records && Active(m.records[n].state) && (m.records[n].state.Prepared? ==> !Stopped(m.disk, m.records[n]))
  }

  predicate RetryStep(m: Manager, n: Name, capacity: nat, v: Manager) {
    Retryable(m, n) && v == Enqueued(m, n, capacity)
  }

  /** A periodic retry visits the unfinished work in some order. */
  function Retried(m: Manager, names: seq<Name>, capacity: nat): Manager {
    if |names| == 0 then m else Enqueued(Retried(m, names[..|names| - 1], capacity), names[|names| - 1], capacity)
  }

  lemma {:induction false} RetriedFrame(m: Manager, names: seq<Name>, capacity: nat)
    ensures var v := Retried(m, names, capacity); v == m.(queue := v.queue, queued := v.queued)
  {
    if |names| > 0 { RetriedFrame(m, names[..|names| - 1], capacity); }
  }

  /** Each visit is a step. */
  lemma VisitIsStep(m: Manager, names: seq<Name>, i: nat, capacity: nat)
    requires i < |names| && Retryable(m, names[i])
    ensures RetryStep(Retried(m, names[..i], capacity), names[i], capacity, Retried(m, names[..i + 1], capacity))
  {
    RetriedFrame(m, names[..i], capacity);
    assert names[..i + 1][..i] == names[..i];
  }

  /** What a retry adds to the queue. */
  function Added(m: Manager, v: Manager): seq<Name>
    requires m.queue <= v.queue
  {
    v.queue[|m.queue|..]
  }

  /** The visits only lengthen the queue, by visited names that were neither queued nor with a worker,
      each once. While the queue has room, every visited name ends up queued or running. */
  lemma {:induction false} RetriedQueues(m: Manager, names: seq<Name>, capacity: nat)
    ensures var v := Retried(m, names, capacity);
      m.queue <= v.queue && v.queued == m.queued + (set n | n in Added(m, v)) &&
      (forall n :: n in Added(m, v) ==> n in names && n !in m.queued && n !in m.running) &&
      (forall i, k :: 0 <= i < k < |Added(m, v)| ==> Added(m, v)[i] != Added(m, v)[k]) &&
      (|v.queue| < capacity ==> forall n :: n in names ==> n in v.queued || n in m.running)
  {
    if |names| > 0 {
      var shorter, n := names[..|names| - 1], names[|names| - 1];
      RetriedQueues(m, shorter, capacity);
      RetriedFrame(m, shorter, capacity);
      assert names == shorter + [n];
      var u := Retried(m, shorter, capacity);
      if Retried(m, names, capacity) != u { QueueGrows(m, u, n); }
    }
  }

  lemma QueueGrows(m: Manager, u: Manager, n: Name)
    requires m.queue <= u.queue && u.queued == m.queued + (set x | x in Added(m, u))
    ensures var v := u.(queue := u.queue + [n], queued := u.queued + {n});
      m.queue <= v.queue && Added(m, v) == Added(m, u) + [n] && v.queued == m.queued + (set x | x in Added(m, v))
  {
    var v := u.(queue := u.queue + [n], queued := u.queued + {n});
    assert Added(m, v) == Added(m, u) + [n];
  }

  /** No unfinished work of the name is left here: the condition under which a stop is confirmed and
      a clean-up may start. */
  predicate Drained(m: Manager, project: string, n: Name) {
    n in m.records ==>
      m.records[n].In(project) && m.records[n].state.Prepared? && n !in m.running
  }

  /** The marker is made durable first; the answer is true only when both managers have drained. */
  predicate StopStep(m: Manager, project: string, n: Name, repositories: bool, o: Outcome, answer: bool, v: Manager) {
    var u := m.(disk := m.disk.(stopped := m.disk.stopped + {(project, n)}));
    match o
    case Done =>
      answer == (repositories && Drained(m, project, n)) &&
      v == if answer then u.(confirmed := m.confirmed + {(project, n)}) else u
    case Error => !answer && (v == m || v == u)
    case Crash => !answer && (v == Halted(m) || v == Halted(u))
  }

  /** Every place where the build has left something is among the architectures. */
  ghost predicate Covers(d: Disk, project: string, n: Name, arches: set<string>) {
    (n in d.records && d.records[n].In(project) ==> d.records[n].Target().arch in arches) &&
    (forall t: Target :: (t, n) in d.dirs && t.project == project ==> t.arch in arches) &&
    (forall t :: IsCurrent(d, t, n) && t.project == project ==> t.arch in arches)
  }

  /** A clean-up reserves its build. The caller has had true from StopBuild. */
  ghost predicate BeginStep(m: Manager, project: string, n: Name, arches: set<string>, v: Manager) {
    (project, n) in m.confirmed && Covers(m.disk, project, n, arches) &&
    if n in m.cleaning || (n in m.paths && m.paths[n].project != project) || !Drained(m, project, n) then v == m
    else v == m.(cleaning := m.cleaning[n := Cleaning(project, arches, {}, {}, {})], begun := m.begun + {n})
  }

  predicate CheckStep(m: Manager, n: Name, arch: string, v: Manager) {
    n in m.cleaning && arch in m.cleaning[n].arches &&
    var c := m.cleaning[n];
    if IsCurrent(m.disk, Target(c.project, arch), n) then v == m.(cleaning := m.cleaning - {n})
    else v == m.(cleaning := m.cleaning[n := c.(checked := c.checked + {arch})])
  }

  /** Recursive removal of the release directory may leave anything behind when it fails. */
  predicate EmptyStep(m: Manager, n: Name, arch: string, left: Option<Directory>, v: Manager) {
    n in m.cleaning && m.cleaning[n].checked == m.cleaning[n].arches && arch in m.cleaning[n].arches &&
    var c, key := m.cleaning[n], (Target(m.cleaning[n].project, arch), n);
    if key in m.disk.dirs && left.Some? then v == m.(disk := m.disk.(dirs := m.disk.dirs[key := left.value]))
    else v == m.(disk := m.disk.(dirs := m.disk.dirs - {key}),
                 cleaning := m.cleaning[n := c.(emptied := c.emptied + {arch})])
  }

  predicate UnrecordStep(m: Manager, n: Name, arch: string, v: Manager) {
    n in m.cleaning && arch in m.cleaning[n].emptied &&
    var c := m.cleaning[n];
    var there := n in m.disk.records && m.disk.records[n].Target() == Target(c.project, arch);
    v == m.(disk := m.disk.(records := if there then m.disk.records - {n} else m.disk.records),
            cleaning := m.cleaning[n := c.(removed := c.removed + {arch})])
  }

  predicate EndStep(m: Manager, n: Name, done: bool, v: Manager) {
    n in m.cleaning &&
    if done then
      m.cleaning[n].removed == m.cleaning[n].arches &&
      v == m.(cleaning := m.cleaning - {n}, records := m.records - {n}, paths := m.paths - {n},
              queued := m.queued - {n}, begun := m.begun - {n})
    else v == m.(cleaning := m.cleaning - {n})
  }

  // ----- start-up recovery -----

  predicate Usable(d: Disk, r: Record) {
    (r.Target(), r.Name()) in d.dirs && d.dirs[(r.Target(), r.Name())].index.Some? &&
    d.dirs[(r.Target(), r.Name())].index.value.request == r.request
  }

  /** The first write of a record's recovery. */
  function Rechecked(d: Disk, r: Record): Record {
    if r.state.Failed? || r.state.Deleting? || (r.state.Prepared? && Stopped(d, r)) then r
    else if !Usable(d, r) then (if r.state.Creating? then r else r.(state := Failed(false)))
    else
      var dir := d.dirs[(r.Target(), r.Name())];
      var digest := dir.index.value.digest;
      if r.state.Ready? then (if r.digest == Some(digest) then r else r.(state := Failed(false)))
      else if dir.actual != digest || (r.state.Prepared? && r.digest != Some(digest)) then
        (if r.state.Prepared? then r.(state := Failed(false)) else r)
      else r.(state := Prepared, digest := Some(digest))
  }

  /** The second: a prepared release that `current` already names becomes ready. */
  function Recovered(d: Disk, r: Record): Record {
    var c := Rechecked(d, r);
    if c.state.Prepared? && !Stopped(d, c) && IsCurrent(d, c.Target(), c.Name()) then c.(state := Ready)
    else if r.state.Creating? && c.state.Prepared? && IsCurrent(d, c.Target(), c.Name()) then c.(state := Ready)
    else c
  }

  /** The cache after a start: the unfinished records, and every known name's path. */
  function CacheOf(records: map<Name, Record>): map<Name, Record> {
    map n | n in records && Active(records[n].state) :: records[n]
  }

  function PathsOf(records: map<Name, Record>): map<Name, Target> {
    map n | n in records :: records[n].Target()
  }

  /** A start recovers the records one by one and may stop after any write. */
  ghost predicate BootStep(m: Manager, v: Manager) {
    !m.up && v.disk == m.disk.(records := v.disk.records) && v.disk.records.Keys == m.disk.records.Keys &&
    (forall n :: n in m.disk.records ==>
      v.disk.records[n] == m.disk.records[n] || v.disk.records[n] == Rechecked(m.disk, m.disk.records[n]) ||
      v.disk.records[n] == Recovered(m.disk, m.disk.records[n])) &&
    if v.up then
      (forall n :: n in m.disk.records ==> v.disk.records[n] == Recovered(m.disk, m.disk.records[n])) &&
      v == Halted(m).(up := true, disk := v.disk, records := CacheOf(v.disk.records), paths := PathsOf(v.disk.records))
    else v == m.(disk := v.disk)
  }

  datatype Step =
    | Submit(request: Request, sourceReady: bool, o: Outcome)
    | Pop | Publish(n: Name, digest: Digest) | Conflict(n: Name) | Finish(n: Name, retryable: bool, o: Outcome)
    | Activate(n: Name, o: Outcome) | Leave(n: Name) | Delete(n: Name, o: Outcome) | History(n: Name, o: Outcome)
    | Move(n: Name, o: Outcome) | Erase(n: Name, o: Outcome) | Retry(n: Name)
    | Stop(project: string, n: Name, repositories: bool, o: Outcome, answer: bool)
    | Begin(project: string, n: Name, arches: set<string>) | Check(n: Name, arch: string)
    | Empty(n: Name, arch: string, left: Option<Directory>) | Unrecord(n: Name, arch: string) | End(n: Name, done: bool)
    | Halt | Boot

  ghost predicate Next(capacity: nat, m: Manager, step: Step, v: Manager) {
    if step.Boot? then BootStep(m, v)
    else m.up && match step
      case Submit(r, ready, o) => SubmitStep(m, r, ready, capacity, o, v)
      case Pop => |m.queue| > 0 && v == Popped(m)
      case Publish(n, digest) => PublishStep(m, n, digest, v)
      case Conflict(n) => ConflictStep(m, n, v)
      case Finish(n, retryable, o) => FinishStep(m, n, retryable, o, v)
      case Activate(n, o) => ActivateStep(m, n, o, v)
      case Leave(n) => n in m.running && m.running[n].Leaving? && v == Left(m, n)
      case Delete(n, o) => DeleteStep(m, n, capacity, o, v)
      case History(n, o) => HistoryStep(m, n, capacity, o, v)
      case Move(n, o) => MoveStep(m, n, o, v)
      case Erase(n, o) => EraseStep(m, n, o, v)
      case Retry(n) => RetryStep(m, n, capacity, v)
      case Stop(p, n, repositories, o, answer) => StopStep(m, p, n, repositories, o, answer, v)
      case Begin(p, n, arches) => BeginStep(m, p, n, arches, v)
      case Check(n, arch) => CheckStep(m, n, arch, v)
      case Empty(n, arch, left) => EmptyStep(m, n, arch, left, v)
      case Unrecord(n, arch) => UnrecordStep(m, n, arch, v)
      case End(n, done) => EndStep(m, n, done, v)
      case Halt => v == Halted(m)
      case Boot => false
  }

  // ----- what every step keeps -----

  /** `current` never dangles: the build it names has an intact directory and a record that is ready,
      or prepared with only the final write outstanding. */
  ghost predicate CurrentSound(d: Disk) {
    forall t :: t in d.current ==>
      var n := d.current[t];
      n in d.records && d.records[n].Target() == t && (d.records[n].state.Ready? || d.records[n].state.Prepared?) &&
      Intact(d, d.records[n])
  }

  ghost predicate DiskSound(d: Disk) {
    (forall n :: n in d.records ==> d.records[n].Name() == n) &&
    (forall n :: n in d.records && (d.records[n].state.Ready? || d.records[n].state.Prepared?) ==>
      Stopped(d, d.records[n]) || Intact(d, d.records[n])) &&
    CurrentSound(d)
  }

  /** The cache and the disk agree, except that a clean-up may have removed the record file of a
      prepared release that is still cached. */
  ghost predicate CacheSound(m: Manager) {
    (forall n :: n in m.disk.records ==> n in m.paths && m.paths[n] == m.disk.records[n].Target()) &&
    (forall n :: n in m.disk.records && Active(m.disk.records[n].state) ==> n in m.records) &&
    (forall n :: n in m.records ==>
      m.records[n].Name() == n && Active(m.records[n].state) && n in m.paths && m.paths[n] == m.records[n].Target() &&
      (n in m.disk.records ==> m.records[n] == m.disk.records[n]) &&
      (n !in m.disk.records ==> n in m.begun && m.records[n].state.Prepared? && Stopped(m.disk, m.records[n])))
  }

  ghost predicate WorkSound(m: Manager) {
    forall n :: n in m.running ==>
      match m.running[n]
      case Materialising(r, made) =>
        n in m.records && r.Name() == n && r.request == m.records[n].request &&
        (m.records[n].state.Creating? || m.records[n].state.Deleting?) &&
        (made.Published? ==> Intact(m.disk, r.(digest := Some(made.digest))))
      case Removing(moved) => n in m.records && m.records[n].state.Deleting?
      case _ => true
  }

  ghost predicate ReservationSound(m: Manager, n: Name, c: Cleaning) {
    (c.project, n) in m.confirmed && n in m.begun &&
    (n in m.records ==> m.records[n].state.Prepared? && m.records[n].In(c.project)) &&
    (n in m.running ==> m.running[n].Activating? || m.running[n].Leaving?) &&
    (n in m.disk.records ==>
      m.disk.records[n].In(c.project) &&
      m.disk.records[n].Target().arch in c.arches && m.disk.records[n].Target().arch !in c.removed) &&
    c.checked <= c.arches && c.emptied <= c.arches && c.removed <= c.emptied &&
    (c.emptied != {} ==> c.checked == c.arches) &&
    (forall arch :: arch in c.checked ==> !IsCurrent(m.disk, Target(c.project, arch), n))
  }

  ghost predicate CleaningSound(m: Manager) {
    forall n :: n in m.cleaning ==> ReservationSound(m, n, m.cleaning[n])
  }

  /** A confirmed build has its marker, no record being created, and no materialiser at work. */
  ghost predicate StopSound(m: Manager) {
    forall project, n :: (project, n) in m.confirmed ==>
      (project, n) in m.disk.stopped &&
      (n in m.disk.records && m.disk.records[n].In(project) ==> !m.disk.records[n].state.Creating?) &&
      (n in m.running && m.running[n].Materialising? ==> !m.running[n].record.In(project))
  }

  ghost predicate Invariant(m: Manager) {
    DiskSound(m.disk) && StopSound(m) &&
    if m.up then CacheSound(m) && WorkSound(m) && CleaningSound(m) else m == Halted(m)
  }

  lemma HaltKeeps(m: Manager)
    requires DiskSound(m.disk) && StopSound(m)
    ensures Invariant(Halted(m))
  {
  }

  lemma PersistKeepsDisk(m: Manager, r: Record)
    requires DiskSound(m.disk)
    requires r.state.Ready? || r.state.Prepared? ==> Stopped(m.disk, r) || Intact(m.disk, r)
    requires forall t :: IsCurrent(m.disk, t, r.Name()) ==>
      t == r.Target() && (r.state.Ready? || r.state.Prepared?) && Intact(m.disk, r)
    ensures DiskSound(Persisted(m, r).disk)
  {
    var d, e := m.disk, Persisted(m, r).disk;
    forall n | n in e.records && (e.records[n].state.Ready? || e.records[n].state.Prepared?)
      ensures Stopped(e, e.records[n]) || Intact(e, e.records[n])
    {
      assert Stopped(e, e.records[n]) == Stopped(d, e.records[n]) && Intact(e, e.records[n]) == Intact(d, e.records[n]);
    }
    forall t | t in e.current
      ensures var n := e.current[t];
        n in e.records && e.records[n].Target() == t && (e.records[n].state.Ready? || e.records[n].state.Prepared?) &&
        Intact(e, e.records[n])
    {
      assert IsCurrent(d, t, e.current[t]);
      assert Intact(e, e.records[e.current[t]]) == Intact(d, e.records[e.current[t]]);
    }
  }

  /** A directory may change or go when no ready or prepared record needs it: its build is neither
      current nor active, or its record is in another state. */
  lemma DirectoryKeepsDisk(d: Disk, e: Disk, key: (Target, Name))
    requires DiskSound(d) && e == d.(dirs := e.dirs)
    requires forall k :: k != key ==> ((k in d.dirs <==> k in e.dirs) && (k in d.dirs ==> d.dirs[k] == e.dirs[k]))
    requires key.1 in d.records && d.records[key.1].Target() == key.0 ==>
      var r := d.records[key.1];
      (!r.state.Ready? && !r.state.Prepared?) || (Stopped(d, r) && !IsCurrent(d, key.0, key.1))
    ensures DiskSound(e)
  {
    forall t | t in e.current
      ensures var n := e.current[t];
        n in e.records && e.records[n].Target() == t && (e.records[n].state.Ready? || e.records[n].state.Prepared?) &&
        Intact(e, e.records[n])
    {
      assert IsCurrent(d, t, e.current[t]);
    }
  }

  /** The worker on the record's name, if any, can live with the written state. */
  predicate FitsWorker(m: Manager, r: Record) {
    r.Name() in m.running ==>
      match m.running[r.Name()]
      case Materialising(w, made) => w.request == r.request && (r.state.Creating? || r.state.Deleting?)
      case Removing(moved) => r.state.Deleting?
      case _ => true
  }

  lemma PersistKeeps(m: Manager, r: Record)
    requires CacheSound(m) && WorkSound(m) && CleaningSound(m) && StopSound(m) && m.up
    requires DiskSound(Persisted(m, r).disk)
    requires InScope(m, r) && r.Name() !in m.cleaning && FitsWorker(m, r)
    requires r.state.Creating? ==> forall project :: (project, r.Name()) in m.confirmed ==> !r.In(project)
    ensures Invariant(Persisted(m, r)) && Invariant(Halted(Persisted(m, r)))
  {
    PersistKeepsStop(m, r);
    PersistKeepsCache(m, r);
    PersistKeepsWork(m, r);
    HaltKeeps(Persisted(m, r));
  }

  lemma PersistKeepsStop(m: Manager, r: Record)
    requires StopSound(m)
    requires r.state.Creating? ==> forall project :: (project, r.Name()) in m.confirmed ==> !r.In(project)
    ensures StopSound(Persisted(m, r))
  {
  }

  lemma PersistKeepsCache(m: Manager, r: Record)
    requires CacheSound(m)
    ensures CacheSound(Persisted(m, r))
  {
  }

  lemma PersistKeepsWork(m: Manager, r: Record)
    requires WorkSound(m) && CleaningSound(m) && InScope(m, r) && r.Name() !in m.cleaning && FitsWorker(m, r)
    ensures WorkSound(Persisted(m, r)) && CleaningSound(Persisted(m, r))
  {
    var v := Persisted(m, r);
    forall n | n in v.cleaning ensures ReservationSound(v, n, v.cleaning[n]) {
      assert ReservationSound(m, n, m.cleaning[n]);
    }
  }

  lemma EnqueueKeeps(m: Manager, n: Name, capacity: nat)
    requires Invariant(m) && m.up
    ensures Invariant(Enqueued(m, n, capacity))
  {
  }

  lemma SubmitKeeps(m: Manager, r: Request, ready: bool, capacity: nat, o: Outcome, v: Manager)
    requires Invariant(m) && m.up && SubmitStep(m, r, ready, capacity, o, v)
    ensures Invariant(v)
  {
    HaltKeeps(m);
    match SubmitDecision(m, r, ready, capacity)
    case Write(record) =>
      if InScope(m, record) {
        PersistKeepsDisk(m, record);
        PersistKeeps(m, record);
        EnqueueKeeps(Persisted(m, record), r.name, capacity);
      }
    case _ =>
  }

  lemma PopKeeps(m: Manager)
    requires Invariant(m) && m.up && |m.queue| > 0
    ensures Invariant(Popped(m))
  {
    var v := Popped(m);
    assert StopSound(v);
    assert CacheSound(v);
    assert WorkSound(v);
    PopKeepsCleaning(m);
  }

  lemma PopKeepsCleaning(m: Manager)
    requires CleaningSound(m) && |m.queue| > 0
    ensures CleaningSound(Popped(m))
  {
    var v := Popped(m);
    forall n | n in v.cleaning ensures ReservationSound(v, n, v.cleaning[n]) {
      assert ReservationSound(m, n, m.cleaning[n]);
    }
  }

  lemma DirectoryKeeps(m: Manager, dirs: map<(Target, Name), Directory>, key: (Target, Name))
    requires Invariant(m) && m.up
    requires forall k :: k != key ==>
      ((k in m.disk.dirs <==> k in dirs) && (k in m.disk.dirs ==> m.disk.dirs[k] == dirs[k]))
    requires key.1 in m.disk.records && m.disk.records[key.1].Target() == key.0 ==>
      var r := m.disk.records[key.1];
      (!r.state.Ready? && !r.state.Prepared?) || (Stopped(m.disk, r) && !IsCurrent(m.disk, key.0, key.1))
    requires key.1 in m.running && m.running[key.1].Materialising? ==> m.running[key.1].made.Working?
    ensures Invariant(m.(disk := m.disk.(dirs := dirs)))
  {
    var v := m.(disk := m.disk.(dirs := dirs));
    DirectoryKeepsDisk(m.disk, v.disk, key);
    assert StopSound(v) && CacheSound(v);
    assert WorkSound(v) by {
      forall n | n in v.running && v.running[n].Materialising? && v.running[n].made.Published?
        ensures Intact(v.disk, v.running[n].record.(digest := Some(v.running[n].made.digest)))
      {
        assert Intact(m.disk, v.running[n].record.(digest := Some(v.running[n].made.digest)));
      }
    }
    assert CleaningSound(v);
  }

  lemma PublishKeeps(m: Manager, n: Name, digest: Digest, v: Manager)
    requires Invariant(m) && m.up && PublishStep(m, n, digest, v)
    ensures Invariant(v)
  {
    DirectoryKeeps(m, v.disk.dirs, (m.running[n].record.Target(), n));
    MadeKeeps(m.(disk := v.disk), n, Published(digest));
  }

  lemma MadeKeeps(m: Manager, n: Name, made: Made)
    requires Invariant(m) && m.up && n in m.running && m.running[n].Materialising?
    requires made.Published? ==> Intact(m.disk, m.running[n].record.(digest := Some(made.digest)))
    ensures Invariant(m.(running := m.running[n := Materialising(m.running[n].record, made)]))
  {
  }

  lemma LeaveKeeps(m: Manager, n: Name)
    requires Invariant(m) && m.up
    ensures Invariant(Left(m, n)) && Invariant(Halted(m))
    ensures n in m.running && m.running[n].Materialising? ==> n !in m.cleaning
  {
  }

  lemma DoneKeeps(m: Manager, n: Name)
    requires Invariant(m) && m.up && n in m.running
    ensures Invariant(m.(running := m.running[n := Leaving])) && Invariant(Halted(m))
  {
  }

  /** Pointing `current` at a prepared release of an active build is safe. */
  lemma PointKeeps(m: Manager, n: Name)
    requires Invariant(m) && m.up && MayActivate(m, n)
    ensures Invariant(Pointed(m, RecordLocked(m, n).value)) && RecordLocked(m, n).value.Name() == n
  {
    var r := RecordLocked(m, n).value;
    var p := Pointed(m, r);
    assert n in m.disk.records && m.disk.records[n] == r && Intact(m.disk, r);
    assert DiskSound(p.disk);
  }

  lemma FinishKeeps(m: Manager, n: Name, retryable: bool, o: Outcome, v: Manager)
    requires Invariant(m) && m.up && FinishStep(m, n, retryable, o, v)
    ensures Invariant(v)
  {
    LeaveKeeps(m, n);
    if n in m.records && m.records[n].state.Creating? { FinishWriteKeeps(m, n, retryable, o, v); }
  }

  lemma FinishWriteKeeps(m: Manager, n: Name, retryable: bool, o: Outcome, v: Manager)
    requires Invariant(Left(m, n)) && m.up && FinishStep(m, n, retryable, o, v) && n !in m.cleaning
    requires n in m.records && m.records[n].state.Creating? && m.records[n].Name() == n
    requires var r := Completed(m.records[n], m.running[n].made, retryable); r.state.Prepared? ==> Intact(m.disk, r)
    ensures Invariant(v)
  {
    var u, r := Left(m, n), Completed(m.records[n], m.running[n].made, retryable);
    HaltKeeps(u);
    if v != u && v != Halted(u) {
      FinishWrites(m, n, retryable, o, v);
      FinishedKeeps(u, r, v);
    }
  }

  lemma FinishWrites(m: Manager, n: Name, retryable: bool, o: Outcome, v: Manager)
    requires FinishStep(m, n, retryable, o, v) && v != Left(m, n) && v != Halted(Left(m, n))
    requires n in m.records && m.records[n].state.Creating?
    ensures var u, r := Left(m, n), Completed(m.records[n], m.running[n].made, retryable);
      InScope(u, r) &&
      (v == Persisted(u, r) || v == Halted(Persisted(u, r)) || v == Persisted(u, r).(running := u.running[n := Activating]))
  {
    assert m.running[n := Activating] == Left(m, n).running[n := Activating];
  }

  /** The record a materialiser leaves, and the worker going on to activate it. */
  lemma FinishedKeeps(u: Manager, r: Record, v: Manager)
    requires Invariant(u) && u.up && r.Name() !in u.running && r.Name() !in u.cleaning && InScope(u, r)
    requires r.state.Failed? || (r.state.Prepared? && Intact(u.disk, r))
    requires r.Name() in u.records && u.records[r.Name()].state.Creating? && u.records[r.Name()].request == r.request
    requires v == Persisted(u, r) || v == Halted(Persisted(u, r)) ||
             v == Persisted(u, r).(running := u.running[r.Name() := Activating])
    ensures Invariant(v)
  {
    PersistKeepsDisk(u, r);
    PersistKeeps(u, r);
    StartKeeps(Persisted(u, r), r.Name());
  }

  lemma StartKeeps(m: Manager, n: Name)
    requires Invariant(m) && m.up && n !in m.running && n !in m.cleaning
    ensures Invariant(m.(running := m.running[n := Activating]))
  {
  }

  lemma ActivateKeeps(m: Manager, n: Name, o: Outcome, v: Manager)
    requires Invariant(m) && m.up && ActivateStep(m, n, o, v)
    ensures Invariant(v)
  {
    DoneKeeps(m, n);
    var u := m.(running := m.running[n := Leaving]);
    if MayActivate(m, n) {
      var r := RecordLocked(m, n).value;
      PointKeeps(u, n);
      DoneKeeps(u, n);
      DoneKeeps(Pointed(u, r), n);
      ReadyKeeps(Pointed(u, r), r);
    }
  }

  lemma ReadyKeeps(m: Manager, r: Record)
    requires Invariant(m) && m.up && IsCurrent(m.disk, r.Target(), r.Name()) && r.state.Prepared?
    requires RecordLocked(m, r.Name()) == Some(r) && r.Name() !in m.cleaning && !Stopped(m.disk, r)
    requires r.Name() in m.running ==> m.running[r.Name()].Leaving?
    ensures InScope(m, r) ==>
      Invariant(Persisted(m, r.(state := Ready))) && Invariant(Halted(Persisted(m, r.(state := Ready))))
  {
    PersistKeepsDisk(m, r.(state := Ready));
    if InScope(m, r) { PersistKeeps(m, r.(state := Ready)); }
  }

  lemma DeletingKeeps(m: Manager, r: Record, capacity: nat, o: Outcome, v: Manager)
    requires Invariant(m) && m.up && RecordLocked(m, r.Name()) == Some(r)
    requires r.Name() !in m.cleaning && !IsCurrent(m.disk, r.Target(), r.Name())
    requires var deleting := r.(state := Deleting);
      if o == Done then InScope(m, deleting) && v == Enqueued(Persisted(m, deleting), r.Name(), capacity)
      else PersistStep(m, deleting, o, v)
    ensures Invariant(v)
  {
    var deleting := r.(state := Deleting);
    HaltKeeps(m);
    if InScope(m, deleting) {
      PersistKeepsDisk(m, deleting);
      PersistKeeps(m, deleting);
      EnqueueKeeps(Persisted(m, deleting), r.Name(), capacity);
    }
  }

  lemma DeleteKeeps(m: Manager, n: Name, capacity: nat, o: Outcome, v: Manager)
    requires Invariant(m) && m.up && DeleteStep(m, n, capacity, o, v)
    ensures Invariant(v)
  {
    var r := RecordLocked(m, n);
    if v == m {
    } else if r.value.state.Deleting? {
      EnqueueKeeps(m, n, capacity);
    } else {
      DeletingKeeps(m, r.value, capacity, o, v);
    }
  }

  lemma HistoryKeeps(m: Manager, n: Name, capacity: nat, o: Outcome, v: Manager)
    requires Invariant(m) && m.up && HistoryStep(m, n, capacity, o, v)
    ensures Invariant(v)
  {
    DeletingKeeps(m, m.disk.records[n], capacity, o, v);
  }

  /** A release that is being deleted may lose its directory. */
  lemma GoneKeeps(m: Manager, n: Name)
    requires Invariant(m) && m.up && n in m.records && m.records[n].state.Deleting?
    requires n in m.running && m.running[n].Removing?
    ensures var u := m.(disk := m.disk.(dirs := m.disk.dirs - {(m.records[n].Target(), n)}));
      Invariant(u) && Invariant(Halted(u)) &&
      Invariant(u.(running := u.running[n := Removing(true)])) && Invariant(u.(running := u.running[n := Leaving]))
  {
    var key := (m.records[n].Target(), n);
    var u := m.(disk := m.disk.(dirs := m.disk.dirs - {key}));
    DirectoryKeeps(m, u.disk.dirs, key);
    HaltKeeps(u);
    RemovingKeeps(u, n);
    DoneKeeps(u, n);
  }

  lemma RemovingKeeps(m: Manager, n: Name)
    requires Invariant(m) && m.up && n in m.records && m.records[n].state.Deleting?
    ensures Invariant(m.(running := m.running[n := Removing(true)]))
  {
  }

  lemma MoveKeeps(m: Manager, n: Name, o: Outcome, v: Manager)
    requires Invariant(m) && m.up && MoveStep(m, n, o, v)
    ensures Invariant(v)
  {
    DoneKeeps(m, n);
    if n in m.records && m.records[n].state.Deleting? { GoneKeeps(m, n); }
  }

  lemma EraseKeeps(m: Manager, n: Name, o: Outcome, v: Manager)
    requires Invariant(m) && m.up && EraseStep(m, n, o, v)
    ensures Invariant(v)
  {
    DoneKeeps(m, n);
    var u := m.(running := m.running[n := Leaving]);
    HaltKeeps(u);
    if n in m.records && m.records[n].state.Deleting? { ForgetKeeps(u, n); }
  }

  lemma ForgetKeeps(m: Manager, n: Name)
    requires Invariant(m) && m.up && n in m.records && m.records[n].state.Deleting?
    requires n in m.running && m.running[n].Leaving?
    ensures var e := m.(disk := m.disk.(records := m.disk.records - {n}), records := m.records - {n}, paths := m.paths - {n});
            Invariant(e) && Invariant(Halted(e))
  {
    var e := m.(disk := m.disk.(records := m.disk.records - {n}), records := m.records - {n}, paths := m.paths - {n});
    ForgetKeepsDisk(m.disk, n);
    assert StopSound(e);
    ForgetKeepsMemory(m, e, n);
    assert CleaningSound(e);
  }

  lemma ForgetKeepsMemory(m: Manager, e: Manager, n: Name)
    requires CacheSound(m) && WorkSound(m) && n in m.records && m.records[n].state.Deleting?
    requires n in m.running && m.running[n].Leaving?
    requires e == m.(disk := m.disk.(records := m.disk.records - {n}), records := m.records - {n}, paths := m.paths - {n})
    ensures CacheSound(e) && WorkSound(e)
  {
  }

  /** A record may go when `current` does not name its build. */
  lemma ForgetKeepsDisk(d: Disk, n: Name)
    requires DiskSound(d) && forall t :: !IsCurrent(d, t, n)
    ensures DiskSound(d.(records := d.records - {n}))
  {
    var e := d.(records := d.records - {n});
    forall t | t in e.current
      ensures var n := e.current[t];
        n in e.records && e.records[n].Target() == t && (e.records[n].state.Ready? || e.records[n].state.Prepared?) &&
        Intact(e, e.records[n])
    {
      assert IsCurrent(d, t, e.current[t]);
    }
  }

  lemma StopKeeps(m: Manager, p: string, n: Name, repositories: bool, o: Outcome, answer: bool, v: Manager)
    requires Invariant(m) && m.up && StopStep(m, p, n, repositories, o, answer, v)
    ensures Invariant(v)
  {
    var u := m.(disk := m.disk.(stopped := m.disk.stopped + {(p, n)}));
    assert DiskSound(u.disk);
    StopKeepsMemory(m, p, n);
    if o == Done { StopKeepsStopSound(m, p, n, v); }
    HaltKeeps(m);
    HaltKeeps(u);
  }

  lemma StopKeepsMemory(m: Manager, p: string, n: Name)
    requires CacheSound(m) && WorkSound(m) && CleaningSound(m)
    ensures forall confirmed :: m.confirmed <= confirmed ==>
      var u := m.(disk := m.disk.(stopped := m.disk.stopped + {(p, n)}), confirmed := confirmed);
      CacheSound(u) && WorkSound(u) && CleaningSound(u)
  {
  }

  lemma StopKeepsStopSound(m: Manager, p: string, n: Name, v: Manager)
    requires StopSound(m) && CacheSound(m) && WorkSound(m)
    requires v == m.(disk := m.disk.(stopped := m.disk.stopped + {(p, n)}), confirmed := v.confirmed)
    requires v.confirmed == m.confirmed || (v.confirmed == m.confirmed + {(p, n)} && Drained(m, p, n))
    ensures StopSound(v)
  {
  }

  lemma BeginKeeps(m: Manager, p: string, n: Name, arches: set<string>, v: Manager)
    requires Invariant(m) && m.up && BeginStep(m, p, n, arches, v)
    ensures Invariant(v)
  {
  }

  /** A reservation may advance or go. */
  lemma ReservationKeeps(m: Manager, n: Name, c: Cleaning)
    requires Invariant(m) && m.up && n in m.cleaning
    ensures ReservationSound(m, n, c) ==> Invariant(m.(cleaning := m.cleaning[n := c]))
    ensures Invariant(m.(cleaning := m.cleaning - {n}))
  {
    var u, v := m.(cleaning := m.cleaning[n := c]), m.(cleaning := m.cleaning - {n});
    assert CacheSound(u) && CacheSound(v);
    assert WorkSound(u) && WorkSound(v);
    assert CleaningSound(v);
  }

  lemma CheckKeeps(m: Manager, n: Name, arch: string, v: Manager)
    requires Invariant(m) && m.up && CheckStep(m, n, arch, v)
    ensures Invariant(v)
  {
    var c := m.cleaning[n];
    ReservationKeeps(m, n, c.(checked := c.checked + {arch}));
    assert ReservationSound(m, n, c);
  }

  lemma EmptyKeeps(m: Manager, n: Name, arch: string, left: Option<Directory>, v: Manager)
    requires Invariant(m) && m.up && EmptyStep(m, n, arch, left, v)
    ensures Invariant(v)
  {
    var c := m.cleaning[n];
    assert ReservationSound(m, n, c);
    DirectoryKeeps(m, v.disk.dirs, (Target(c.project, arch), n));
    var u := m.(disk := v.disk);
    assert ReservationSound(u, n, c);
    ReservationKeeps(u, n, c.(emptied := c.emptied + {arch}));
  }

  lemma UnrecordKeeps(m: Manager, n: Name, arch: string, v: Manager)
    requires Invariant(m) && m.up && UnrecordStep(m, n, arch, v)
    ensures Invariant(v)
  {
    if n in m.disk.records && m.disk.records[n].Target() == Target(m.cleaning[n].project, arch) {
      ForgetKeepsDisk(m.disk, n);
    }
    UnrecordKeepsMemory(m, n, arch, v);
  }

  lemma UnrecordKeepsMemory(m: Manager, n: Name, arch: string, v: Manager)
    requires DiskSound(m.disk) && StopSound(m) && CacheSound(m) && WorkSound(m) && CleaningSound(m)
    requires UnrecordStep(m, n, arch, v)
    ensures CacheSound(v) && WorkSound(v)
  {
    assert ReservationSound(m, n, m.cleaning[n]);
  }

  lemma EndKeeps(m: Manager, n: Name, done: bool, v: Manager)
    requires Invariant(m) && m.up && EndStep(m, n, done, v)
    ensures Invariant(v)
  {
  }

  lemma BootKeeps(m: Manager, v: Manager)
    requires Invariant(m) && BootStep(m, v)
    ensures Invariant(v)
  {
    assert forall n :: n in v.disk.records ==> v.disk.records[n].request == m.disk.records[n].request;
    forall n | n in m.disk.records && Intact(m.disk, m.disk.records[n])
      ensures Intact(v.disk, v.disk.records[n]) || v.disk.records[n].state.Failed?
    {
    }
    assert DiskSound(v.disk);
    assert StopSound(v);
  }

  /** Steps that write a record. */
  predicate Writes(step: Step) {
    step.Submit? || step.Finish? || step.Activate? || step.Delete? || step.History? || step.Boot?
  }

  /** Steps that remove a directory or a record. */
  predicate Erases(step: Step) {
    step.Move? || step.Erase? || step.Empty? || step.Unrecord?
  }

  lemma WriteKeeps(capacity: nat, m: Manager, step: Step, v: Manager)
    requires Invariant(m) && Next(capacity, m, step, v) && Writes(step)
    ensures Invariant(v)
  {
    match step
    case Submit(r, ready, o) => SubmitKeeps(m, r, ready, capacity, o, v);
    case Finish(n, retryable, o) => FinishKeeps(m, n, retryable, o, v);
    case Activate(n, o) => ActivateKeeps(m, n, o, v);
    case Delete(n, o) => DeleteKeeps(m, n, capacity, o, v);
    case History(n, o) => HistoryKeeps(m, n, capacity, o, v);
    case Boot => BootKeeps(m, v);
  }

  lemma ErasureKeeps(capacity: nat, m: Manager, step: Step, v: Manager)
    requires Invariant(m) && Next(capacity, m, step, v) && Erases(step)
    ensures Invariant(v)
  {
    match step
    case Move(n, o) => MoveKeeps(m, n, o, v);
    case Erase(n, o) => EraseKeeps(m, n, o, v);
    case Empty(n, arch, left) => EmptyKeeps(m, n, arch, left, v);
    case Unrecord(n, arch) => UnrecordKeeps(m, n, arch, v);
  }

  lemma StepKeeps(capacity: nat, m: Manager, step: Step, v: Manager)
    requires Invariant(m) && Next(capacity, m, step, v)
    ensures Invariant(v)
  {
    if Writes(step) { WriteKeeps(capacity, m, step, v); return; }
    if Erases(step) { ErasureKeeps(capacity, m, step, v); return; }
    match step
    case Pop => PopKeeps(m);
    case Publish(n, digest) => PublishKeeps(m, n, digest, v);
    case Conflict(n) => MadeKeeps(m, n, Conflicting);
    case Leave(n) => LeaveKeeps(m, n);
    case Retry(n) => EnqueueKeeps(m, n, capacity);
    case Stop(p, n, repositories, o, answer) => StopKeeps(m, p, n, repositories, o, answer, v);
    case Begin(p, n, arches) => BeginKeeps(m, p, n, arches, v);
    case Check(n, arch) => CheckKeeps(m, n, arch, v);
    case End(n, done) => EndKeeps(m, n, done, v);
    case Halt => HaltKeeps(m);
  }

  // ----- the promises, over every run -----

  const EMPTY := Manager(Disk(map[], map[], map[], {}), false, map[], map[], map[], {}, map[], [], {}, {})

  ghost predicate IsRun(capacity: nat, run: seq<Manager>, steps: seq<Step>) {
    |run| == |steps| + 1 && run[0] == EMPTY &&
    forall i :: 0 <= i < |steps| ==> Next(capacity, run[i], steps[i], run[i + 1])
  }

  lemma {:induction false} InvariantHolds(capacity: nat, run: seq<Manager>, steps: seq<Step>, i: nat)
    requires IsRun(capacity, run, steps) && i < |run|
    ensures Invariant(run[i])
    decreases i
  {
    if i > 0 {
      InvariantHolds(capacity, run, steps, i - 1);
      StepKeeps(capacity, run[i - 1], steps[i - 1], run[i]);
    }
  }

  /** No deletion path, failed write, process stop or start leaves `current` dangling. */
  lemma CurrentNeverDangles(capacity: nat, run: seq<Manager>, steps: seq<Step>, i: nat)
    requires IsRun(capacity, run, steps) && i < |run|
    ensures CurrentSound(run[i].disk)
  {
    InvariantHolds(capacity, run, steps, i);
  }

  /** For every name without an unfinished clean-up, the cache holds exactly the persisted unfinished
      record, and recordLocked answers exactly what the disk says. */
  lemma CacheAnswersDisk(capacity: nat, run: seq<Manager>, steps: seq<Step>, i: nat, n: Name)
    requires IsRun(capacity, run, steps) && i < |run| && run[i].up && n !in run[i].begun
    ensures var m := run[i];
      (n in m.records <==> n in m.disk.records && Active(m.disk.records[n].state)) &&
      RecordLocked(m, n) == if n in m.disk.records then Some(m.disk.records[n]) else None
  {
    InvariantHolds(capacity, run, steps, i);
  }

  lemma {:induction false} ConfirmedStays(capacity: nat, run: seq<Manager>, steps: seq<Step>, i: nat, j: nat)
    requires IsRun(capacity, run, steps) && i <= j < |run|
    ensures run[i].confirmed <= run[j].confirmed
    decreases j
  {
    if i < j {
      ConfirmedStays(capacity, run, steps, i, j - 1);
      ConfirmedGrows(capacity, run[j - 1], steps[j - 1], run[j]);
    }
  }

  lemma ConfirmedGrows(capacity: nat, m: Manager, step: Step, v: Manager)
    requires Next(capacity, m, step, v)
    ensures m.confirmed <= v.confirmed
  {
    match step
    case Submit(r, ready, o) => SubmitLeavesCurrent(capacity, m, r, ready, o, v);
    case Finish(n, retryable, o) => FinishLeavesCurrent(m, n, retryable, o, v);
    case Activate(n, o) => ActivateLeavesConfirmed(m, n, o, v);
    case Delete(n, o) => DeleteLeavesCurrent(capacity, m, n, o, v);
    case History(n, o) => HistoryLeavesCurrent(capacity, m, n, o, v);
    case Stop(p, n, repositories, o, answer) => StopLeavesCurrent(m, p, n, repositories, o, answer, v);
    case Move(n, o) => MoveLeavesCurrent(m, n, o, v);
    case _ =>
  }

  lemma ActivateLeavesConfirmed(m: Manager, n: Name, o: Outcome, v: Manager)
    requires ActivateStep(m, n, o, v)
    ensures v.confirmed == m.confirmed
  {
  }

  lemma OnlyActivationPoints(capacity: nat, m: Manager, step: Step, v: Manager)
    requires Next(capacity, m, step, v) && v.disk.current != m.disk.current
    ensures step.Activate? && MayActivate(m, step.n)
    ensures var r := RecordLocked(m, step.n).value; v.disk.current == m.disk.current[r.Target() := r.Name()]
  {
    if step.Activate? {
      ActivationPoints(m, step.n, step.o, v);
    } else {
      OthersLeaveCurrent(capacity, m, step, v);
    }
  }

  lemma ActivationPoints(m: Manager, n: Name, o: Outcome, v: Manager)
    requires ActivateStep(m, n, o, v) && v.disk.current != m.disk.current
    ensures MayActivate(m, n)
    ensures var r := RecordLocked(m, n).value; v.disk.current == m.disk.current[r.Target() := r.Name()]
  {
  }

  lemma OthersLeaveCurrent(capacity: nat, m: Manager, step: Step, v: Manager)
    requires Next(capacity, m, step, v) && !step.Activate?
    ensures v.disk.current == m.disk.current
  {
    match step
    case Submit(r, ready, o) => SubmitLeavesCurrent(capacity, m, r, ready, o, v);
    case Finish(n, retryable, o) => FinishLeavesCurrent(m, n, retryable, o, v);
    case Delete(n, o) => DeleteLeavesCurrent(capacity, m, n, o, v);
    case History(n, o) => HistoryLeavesCurrent(capacity, m, n, o, v);
    case Stop(p, n, repositories, o, answer) => StopLeavesCurrent(m, p, n, repositories, o, answer, v);
    case Move(n, o) => MoveLeavesCurrent(m, n, o, v);
    case _ =>
  }

  lemma StopLeavesCurrent(m: Manager, p: string, n: Name, repositories: bool, o: Outcome, answer: bool, v: Manager)
    requires StopStep(m, p, n, repositories, o, answer, v)
    ensures v.disk.current == m.disk.current && m.confirmed <= v.confirmed
  {
  }

  lemma MoveLeavesCurrent(m: Manager, n: Name, o: Outcome, v: Manager)
    requires MoveStep(m, n, o, v)
    ensures v.disk.current == m.disk.current && v.confirmed == m.confirmed
  {
  }

  lemma SubmitLeavesCurrent(capacity: nat, m: Manager, r: Request, ready: bool, o: Outcome, v: Manager)
    requires SubmitStep(m, r, ready, capacity, o, v)
    ensures v.disk.current == m.disk.current && v.confirmed == m.confirmed
  {
  }

  lemma FinishLeavesCurrent(m: Manager, n: Name, retryable: bool, o: Outcome, v: Manager)
    requires FinishStep(m, n, retryable, o, v)
    ensures v.disk.current == m.disk.current && v.confirmed == m.confirmed
  {
  }

  lemma DeleteLeavesCurrent(capacity: nat, m: Manager, n: Name, o: Outcome, v: Manager)
    requires DeleteStep(m, n, capacity, o, v)
    ensures v.disk.current == m.disk.current && v.confirmed == m.confirmed
  {
  }

  lemma HistoryLeavesCurrent(capacity: nat, m: Manager, n: Name, o: Outcome, v: Manager)
    requires HistoryStep(m, n, capacity, o, v)
    ensures v.disk.current == m.disk.current && v.confirmed == m.confirmed
  {
  }

  /** A step points `current` somewhere new only for a build without a stop marker. */
  lemma PointsOnlyActiveBuilds(capacity: nat, m: Manager, step: Step, v: Manager, t: Target, n: Name)
    requires Invariant(m) && Next(capacity, m, step, v)
    requires IsCurrent(v.disk, t, n) && !IsCurrent(m.disk, t, n)
    ensures (t.project, n) !in m.disk.stopped
  {
    OnlyActivationPoints(capacity, m, step, v);
  }

  /** Once StopBuild has answered true, at every later moment no materialiser works for the build, no
      record of it is being created, and `current` is never pointed at it again. */
  lemma StoppedForEver(
      capacity: nat, run: seq<Manager>, steps: seq<Step>, i: nat, j: nat, project: string, n: Name)
    requires IsRun(capacity, run, steps) && i < j < |run|
    requires steps[i].Stop? && steps[i].project == project && steps[i].n == n && steps[i].answer
    ensures n in run[j].running && run[j].running[n].Materialising? ==> !run[j].running[n].record.In(project)
    ensures n in run[j].disk.records && run[j].disk.records[n].In(project) ==> !run[j].disk.records[n].state.Creating?
    ensures n in run[j].records && run[j].records[n].In(project) ==> !run[j].records[n].state.Creating?
    ensures j < |steps| ==> forall arch ::
      IsCurrent(run[j + 1].disk, Target(project, arch), n) ==> IsCurrent(run[j].disk, Target(project, arch), n)
  {
    assert Next(capacity, run[i], steps[i], run[i + 1]);
    ConfirmedStays(capacity, run, steps, i + 1, j);
    InvariantHolds(capacity, run, steps, j);
    if j < |steps| {
      forall arch | IsCurrent(run[j + 1].disk, Target(project, arch), n)
        ensures IsCurrent(run[j].disk, Target(project, arch), n)
      {
        if !IsCurrent(run[j].disk, Target(project, arch), n) {
          PointsOnlyActiveBuilds(capacity, run[j], steps[j], run[j + 1], Target(project, arch), n);
        }
      }
    }
  }
}
