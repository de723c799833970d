/** What becomes of a published release directory: a start accepts it, a second materialiser never does. */
module ReleaseContent {
  import opened Core
  import opened Release

  // ----- every directory is the one its record asks for -----

  /** A directory belongs to the record of its build, whose request it was made for, and that record is
      not about to be erased; only a build whose stop is confirmed may have anything else. */
  ghost predicate Belongs(m: Manager, k: (Target, Name)) {
    (k.0.project, k.1) in m.confirmed ||
    (k.1 in m.disk.records && m.disk.records[k.1].Target() == k.0 &&
     (k in m.disk.dirs ==>
       m.disk.dirs[k] == Directory(Some(Index(m.disk.records[k.1].request, m.disk.dirs[k].actual)), m.disk.dirs[k].actual)) &&
     !(k.1 in m.running && m.running[k.1] == Removing(true)))
  }

  ghost predicate ContentSound(m: Manager) {
    forall k :: k in m.disk.dirs ==> Belongs(m, k)
  }

  /** A record that was there still is, for the same request. */
  ghost predicate RequestsStay(m: Manager, v: Manager) {
    forall n :: n in m.disk.records ==> n in v.disk.records && v.disk.records[n].request == m.disk.records[n].request
  }

  ghost predicate NoNewErasure(m: Manager, v: Manager) {
    forall n :: n in v.running && v.running[n] == Removing(true) ==> n in m.running && m.running[n] == Removing(true)
  }

  /** A step that leaves the directories alone and keeps the requests. */
  lemma LeavingKeeps(m: Manager, v: Manager)
    requires ContentSound(m) && v.disk.dirs == m.disk.dirs && m.confirmed <= v.confirmed
    requires RequestsStay(m, v) && NoNewErasure(m, v)
    ensures ContentSound(v)
  {
    forall k | k in v.disk.dirs ensures Belongs(v, k) { assert Belongs(m, k); }
  }

  lemma HaltKeepsContent(m: Manager)
    requires ContentSound(m)
    ensures ContentSound(Halted(m))
  {
    LeavingKeeps(m, Halted(m));
  }

  /** A new record's build has no directory yet, unless its stop is confirmed. */
  lemma SubmitKeepsContent(m: Manager, r: Request, ready: bool, capacity: nat, o: Outcome, v: Manager)
    requires Invariant(m) && m.up && ContentSound(m) && SubmitStep(m, r, ready, capacity, o, v)
    ensures ContentSound(v)
  {
    match SubmitDecision(m, r, ready, capacity)
    case Write(record) =>
      if o == Done {
        PersistKeepsContent(m, record, Done, Persisted(m, record));
        EnqueueKeepsContent(Persisted(m, record), r.name, capacity);
      } else {
        PersistKeepsContent(m, record, o, v);
      }
    case _ =>
  }

  lemma PersistKeepsContent(m: Manager, r: Record, o: Outcome, v: Manager)
    requires ContentSound(m) && PersistStep(m, r, o, v)
    requires r.Name() in m.disk.records ==> m.disk.records[r.Name()].request == r.request
    ensures ContentSound(v)
  {
    LeavingKeeps(m, v);
  }

  lemma EnqueueKeepsContent(m: Manager, n: Name, capacity: nat)
    requires ContentSound(m)
    ensures ContentSound(Enqueued(m, n, capacity))
  {
    LeavingKeeps(m, Enqueued(m, n, capacity));
  }

  lemma PublishKeepsContent(m: Manager, n: Name, digest: Digest, v: Manager)
    requires Invariant(m) && m.up && ContentSound(m) && PublishStep(m, n, digest, v)
    ensures ContentSound(v)
  {
    forall k | k in v.disk.dirs ensures Belongs(v, k) {
      if k in m.disk.dirs { assert Belongs(m, k); }
    }
  }

  lemma FinishKeepsContent(m: Manager, n: Name, retryable: bool, o: Outcome, v: Manager)
    requires Invariant(m) && m.up && ContentSound(m) && FinishStep(m, n, retryable, o, v)
    ensures ContentSound(v)
  {
    var u := Left(m, n);
    LeavingKeeps(m, u);
    if n in m.records && m.records[n].state.Creating? {
      var r := Completed(m.records[n], m.running[n].made, retryable);
      if m.running[n].made.Published? && o == Done {
        PersistKeepsContent(u, r, Done, Persisted(u, r));
        LeavingKeeps(Persisted(u, r), v);
      } else {
        PersistKeepsContent(u, r, o, v);
      }
    }
  }

  lemma ActivateKeepsContent(m: Manager, n: Name, o: Outcome, v: Manager)
    requires Invariant(m) && m.up && ContentSound(m) && ActivateStep(m, n, o, v)
    ensures ContentSound(v)
  {
    var u := m.(running := m.running[n := Leaving]);
    LeavingKeeps(m, u);
    HaltKeepsContent(u);
    if MayActivate(m, n) {
      var r := RecordLocked(m, n).value;
      var p := Pointed(u, r);
      LeavingKeeps(u, p);
      HaltKeepsContent(p);
      if InScope(u, r.(state := Ready)) {
        PersistKeepsContent(p, r.(state := Ready), Done, Persisted(p, r.(state := Ready)));
        HaltKeepsContent(Persisted(p, r.(state := Ready)));
      }
    }
  }

  lemma DeletingKeepsContent(m: Manager, r: Record, capacity: nat, o: Outcome, v: Manager)
    requires Invariant(m) && m.up && ContentSound(m) && RecordLocked(m, r.Name()) == Some(r)
    requires var deleting := r.(state := Deleting);
      if o == Done then InScope(m, deleting) && v == Enqueued(Persisted(m, deleting), r.Name(), capacity)
      else PersistStep(m, deleting, o, v)
    ensures ContentSound(v)
  {
    var deleting := r.(state := Deleting);
    if o == Done {
      PersistKeepsContent(m, deleting, Done, Persisted(m, deleting));
      EnqueueKeepsContent(Persisted(m, deleting), r.Name(), capacity);
    } else {
      PersistKeepsContent(m, deleting, o, v);
    }
  }

  lemma DeleteKeepsContent(m: Manager, n: Name, capacity: nat, o: Outcome, v: Manager)
    requires Invariant(m) && m.up && ContentSound(m) && DeleteStep(m, n, capacity, o, v)
    ensures ContentSound(v)
  {
    var r := RecordLocked(m, n);
    if v == m {
    } else if r.value.state.Deleting? {
      EnqueueKeepsContent(m, n, capacity);
    } else {
      DeletingKeepsContent(m, r.value, capacity, o, v);
    }
  }

  /** Once the directory is renamed away, the build has no directory, unless its stop is confirmed. */
  lemma MoveKeepsContent(m: Manager, n: Name, o: Outcome, v: Manager)
    requires Invariant(m) && m.up && ContentSound(m) && MoveStep(m, n, o, v)
    ensures ContentSound(v)
  {
    forall k | k in v.disk.dirs ensures Belongs(v, k) { assert Belongs(m, k); }
  }

  lemma EraseKeepsContent(m: Manager, n: Name, o: Outcome, v: Manager)
    requires Invariant(m) && m.up && ContentSound(m) && EraseStep(m, n, o, v)
    ensures ContentSound(v)
  {
    forall k | k in v.disk.dirs ensures Belongs(v, k) { assert Belongs(m, k); }
  }

  /** A clean-up takes directories and records only of a build whose stop is confirmed. */
  lemma EmptyKeepsContent(m: Manager, n: Name, arch: string, left: Option<Directory>, v: Manager)
    requires Invariant(m) && m.up && ContentSound(m) && EmptyStep(m, n, arch, left, v)
    ensures ContentSound(v)
  {
    assert ReservationSound(m, n, m.cleaning[n]);
    forall k | k in v.disk.dirs ensures Belongs(v, k) { if k in m.disk.dirs { assert Belongs(m, k); } }
  }

  lemma UnrecordKeepsContent(m: Manager, n: Name, arch: string, v: Manager)
    requires Invariant(m) && m.up && ContentSound(m) && UnrecordStep(m, n, arch, v)
    ensures ContentSound(v)
  {
    assert ReservationSound(m, n, m.cleaning[n]);
    forall k | k in v.disk.dirs ensures Belongs(v, k) { assert Belongs(m, k); }
  }

  lemma BootKeepsContent(m: Manager, v: Manager)
    requires Invariant(m) && ContentSound(m) && BootStep(m, v)
    ensures ContentSound(v)
  {
    LeavingKeeps(m, v);
  }

  predicate Quiet(step: Step) {
    step.Pop? || step.Conflict? || step.Leave? || step.Stop? || step.Begin? || step.Check? || step.End? || step.Halt?
  }

  /** These steps write neither a record nor a directory. */
  ghost predicate LeavesDisk(m: Manager, v: Manager) {
    v.disk.records == m.disk.records && v.disk.dirs == m.disk.dirs && m.confirmed <= v.confirmed && NoNewErasure(m, v)
  }

  lemma PopLeavesDisk(m: Manager)
    requires |m.queue| > 0
    ensures LeavesDisk(m, Popped(m))
  {
  }

  lemma StopLeavesDisk(m: Manager, p: string, n: Name, repositories: bool, o: Outcome, answer: bool, v: Manager)
    requires StopStep(m, p, n, repositories, o, answer, v)
    ensures LeavesDisk(m, v)
  {
  }

  lemma CleanLeavesDisk(m: Manager, step: Step, v: Manager)
    requires match step
      case Begin(p, n, arches) => BeginStep(m, p, n, arches, v)
      case Check(n, arch) => CheckStep(m, n, arch, v)
      case End(n, done) => EndStep(m, n, done, v)
      case _ => false
    ensures LeavesDisk(m, v)
  {
  }

  lemma QuietLeavesDisk(capacity: nat, m: Manager, step: Step, v: Manager)
    requires Next(capacity, m, step, v) && Quiet(step)
    ensures LeavesDisk(m, v)
  {
    match step
    case Pop => PopLeavesDisk(m);
    case Stop(p, n, repositories, o, answer) => StopLeavesDisk(m, p, n, repositories, o, answer, v);
    case Conflict(n) => assert ConflictStep(m, n, v);
    case Leave(n) => assert v == Left(m, n);
    case Halt => assert v == Halted(m);
    case _ => CleanLeavesDisk(m, step, v);
  }

  lemma QuietKeepsContent(capacity: nat, m: Manager, step: Step, v: Manager)
    requires Next(capacity, m, step, v) && Quiet(step) && ContentSound(m)
    ensures ContentSound(v)
  {
    QuietLeavesDisk(capacity, m, step, v);
    LeavingKeeps(m, v);
  }

  lemma WriteKeepsContent(capacity: nat, m: Manager, step: Step, v: Manager)
    requires Invariant(m) && ContentSound(m) && Next(capacity, m, step, v) && Writes(step)
    ensures ContentSound(v)
  {
    match step
    case Submit(r, ready, o) => SubmitKeepsContent(m, r, ready, capacity, o, v);
    case Finish(n, retryable, o) => FinishKeepsContent(m, n, retryable, o, v);
    case Activate(n, o) => ActivateKeepsContent(m, n, o, v);
    case Delete(n, o) => DeleteKeepsContent(m, n, capacity, o, v);
    case History(n, o) => DeletingKeepsContent(m, m.disk.records[n], capacity, o, v);
    case Boot => BootKeepsContent(m, v);
  }

  lemma ErasureKeepsContent(capacity: nat, m: Manager, step: Step, v: Manager)
    requires Invariant(m) && ContentSound(m) && Next(capacity, m, step, v) && Erases(step)
    ensures ContentSound(v)
  {
    match step
    case Move(n, o) => MoveKeepsContent(m, n, o, v);
    case Erase(n, o) => EraseKeepsContent(m, n, o, v);
    case Empty(n, arch, left) => EmptyKeepsContent(m, n, arch, left, v);
    case Unrecord(n, arch) => UnrecordKeepsContent(m, n, arch, v);
  }

  /** Every step keeps each directory with the record that it was made for. */
  lemma StepKeepsContent(capacity: nat, m: Manager, step: Step, v: Manager)
    requires Invariant(m) && ContentSound(m) && Next(capacity, m, step, v)
    ensures ContentSound(v)
  {
    if Writes(step) {
      WriteKeepsContent(capacity, m, step, v);
    } else if Erases(step) {
      ErasureKeepsContent(capacity, m, step, v);
    } else {
      match step
      case Publish(n, digest) => PublishKeepsContent(m, n, digest, v);
      case Retry(n) => EnqueueKeepsContent(m, n, capacity);
      case _ => QuietKeepsContent(capacity, m, step, v);
    }
  }

  lemma {:induction false} ContentHolds(capacity: nat, run: seq<Manager>, steps: seq<Step>, i: nat)
    requires IsRun(capacity, run, steps) && i < |run|
    ensures ContentSound(run[i])
    decreases i
  {
    if i > 0 {
      ContentHolds(capacity, run, steps, i - 1);
      InvariantHolds(capacity, run, steps, i - 1);
      StepKeepsContent(capacity, run[i - 1], steps[i - 1], run[i]);
    }
  }

  // ----- a start accepts what was published -----

  /** The record is being created, and its directory is in place already. */
  predicate Awaiting(m: Manager, n: Name) {
    n in m.disk.records && m.disk.records[n].state.Creating? && (m.disk.records[n].Target(), n) in m.disk.dirs
  }

  /** The record as accepted: prepared, with the digest of the files that are there. */
  function Accepted(m: Manager, n: Name): Record
    requires Awaiting(m, n)
  {
    var r := m.disk.records[n];
    r.(state := Prepared, digest := Some(m.disk.dirs[(r.Target(), n)].actual))
  }

  /** A start accepts every release whose directory was published before the process stopped: its record
      becomes prepared, and what is left to do for it is to activate it. `current` cannot name it yet. */
  lemma StartAcceptsPublished(capacity: nat, run: seq<Manager>, steps: seq<Step>, i: nat, n: Name)
    requires IsRun(capacity, run, steps) && i < |steps| && steps[i].Boot? && run[i + 1].up && Awaiting(run[i], n)
    ensures n in run[i + 1].disk.records && run[i + 1].disk.records[n] == Accepted(run[i], n)
    ensures Intact(run[i + 1].disk, Accepted(run[i], n))
    ensures RecordLocked(run[i + 1], n) == Some(Accepted(run[i], n)) && JobFor(Accepted(run[i], n)) == Activating
  {
    var m := run[i];
    var r := m.disk.records[n];
    InvariantHolds(capacity, run, steps, i);
    ContentHolds(capacity, run, steps, i);
    assert Belongs(m, (r.Target(), n));
    assert !IsCurrent(m.disk, r.Target(), n);
    assert Next(capacity, m, steps[i], run[i + 1]);
  }

  // ----- the life of a record and of its workers -----

  /** How a step may change the record of a name: every change is one of these. */
  ghost predicate RecordGoes(m: Manager, step: Step, v: Manager, n: Name)
    requires n in m.disk.records
  {
    var r := m.disk.records[n];
    if n !in v.disk.records then
      (step.Erase? && step.n == n && r.state.Deleting?) || (step.Unrecord? && step.n == n && n in m.cleaning)
    else
      v.disk.records[n] == r ||
      match step
      case Submit(request, ready, o) =>
        request == r.request && r.state == Failed(true) && v.disk.records[n] == r.(state := Creating)
      case Finish(k, retryable, o) =>
        k == n && r.state.Creating? && n in m.running && m.running[n].Materialising? &&
        v.disk.records[n] == Completed(r, m.running[n].made, retryable)
      case Activate(k, o) => k == n && r.state.Prepared? && v.disk.records[n] == r.(state := Ready)
      case Delete(k, o) => k == n && v.disk.records[n] == r.(state := Deleting)
      case History(k, o) => k == n && r.state.Ready? && v.disk.records[n] == r.(state := Deleting)
      case Boot => v.disk.records[n] == Rechecked(m.disk, r) || v.disk.records[n] == Recovered(m.disk, r)
      case _ => false
  }

  /** How a step may change what a worker does with a name. */
  ghost predicate WorkerGoes(m: Manager, step: Step, v: Manager, n: Name) {
    n in v.running ==>
      (n in m.running && v.running[n] == m.running[n]) ||
      match step
      case Pop => n in m.records && v.running[n] == JobFor(m.records[n])
      case Publish(k, digest) =>
        k == n && n in m.running && m.running[n].Materialising? &&
        v.running[n] == Materialising(m.running[n].record, Published(digest)) &&
        (m.running[n].record.Target(), n) !in m.disk.dirs
      case Conflict(k) =>
        k == n && n in m.running && m.running[n].Materialising? &&
        v.running[n] == Materialising(m.running[n].record, Conflicting)
      case _ => !v.running[n].Materialising?
  }

  /** The two ways in which a step may change or take a directory. */
  predicate DirectoryGoes(m: Manager, step: Step, v: Manager, k: (Target, Name)) {
    k in m.disk.dirs ==>
      (k in v.disk.dirs && v.disk.dirs[k] == m.disk.dirs[k]) ||
      (step.Move? && step.n == k.1 && k.1 in m.records && m.records[k.1].state.Deleting?) ||
      (step.Empty? && step.n == k.1 && k.1 in m.cleaning && m.cleaning[k.1].project == k.0.project)
  }

  ghost predicate Goes(m: Manager, step: Step, v: Manager, n: Name) {
    (n in m.disk.records ==> RecordGoes(m, step, v, n) && DirectoryGoes(m, step, v, (m.disk.records[n].Target(), n))) &&
    WorkerGoes(m, step, v, n)
  }

  lemma SubmitGoes(m: Manager, r: Request, ready: bool, capacity: nat, o: Outcome, v: Manager, n: Name)
    requires Invariant(m) && m.up && SubmitStep(m, r, ready, capacity, o, v)
    ensures Goes(m, Submit(r, ready, o), v, n)
  {
  }

  lemma FinishGoes(m: Manager, k: Name, retryable: bool, o: Outcome, v: Manager, n: Name)
    requires Invariant(m) && m.up && FinishStep(m, k, retryable, o, v)
    ensures Goes(m, Finish(k, retryable, o), v, n)
  {
    FinishMoves(m, k, retryable, o, v);
    if n in m.disk.records { FinishWritten(m, k, retryable, o, v, n); }
  }

  lemma FinishMoves(m: Manager, k: Name, retryable: bool, o: Outcome, v: Manager)
    requires FinishStep(m, k, retryable, o, v)
    ensures v.disk.dirs == m.disk.dirs
    ensures v.running == m.running - {k} || v.running == map[] || v.running == m.running[k := Activating]
  {
  }

  lemma FinishWritten(m: Manager, k: Name, retryable: bool, o: Outcome, v: Manager, n: Name)
    requires Invariant(m) && m.up && FinishStep(m, k, retryable, o, v) && n in m.disk.records
    ensures RecordGoes(m, Finish(k, retryable, o), v, n)
  {
  }

  lemma ActivateGoes(m: Manager, k: Name, o: Outcome, v: Manager, n: Name)
    requires Invariant(m) && m.up && ActivateStep(m, k, o, v)
    ensures Goes(m, Activate(k, o), v, n)
  {
    ActivateMovesNobody(m, k, o, v);
    if n in m.disk.records { ActivateWrites(m, k, o, v, n); }
  }

  lemma ActivateMovesNobody(m: Manager, k: Name, o: Outcome, v: Manager)
    requires ActivateStep(m, k, o, v)
    ensures v.disk.dirs == m.disk.dirs && (v.running == m.running[k := Leaving] || v.running == map[])
  {
  }

  lemma ActivateWrites(m: Manager, k: Name, o: Outcome, v: Manager, n: Name)
    requires Invariant(m) && m.up && ActivateStep(m, k, o, v) && n in m.disk.records
    ensures RecordGoes(m, Activate(k, o), v, n)
  {
  }

  lemma DeletingGoes(m: Manager, step: Step, r: Record, capacity: nat, o: Outcome, v: Manager, n: Name)
    requires Invariant(m) && m.up && RecordLocked(m, r.Name()) == Some(r)
    requires (step.Delete? && step.n == r.Name()) || (step.History? && step.n == r.Name() && r.state.Ready?)
    requires var deleting := r.(state := Deleting);
      if o == Done then InScope(m, deleting) && v == Enqueued(Persisted(m, deleting), r.Name(), capacity)
      else PersistStep(m, deleting, o, v)
    ensures Goes(m, step, v, n)
  {
    DeletingMovesNobody(m, r.(state := Deleting), capacity, o, v);
    if n in m.disk.records { DeletingWrites(m, step, r, capacity, o, v, n); }
  }

  lemma DeletingMovesNobody(m: Manager, r: Record, capacity: nat, o: Outcome, v: Manager)
    requires if o == Done then v == Enqueued(Persisted(m, r), r.Name(), capacity) else PersistStep(m, r, o, v)
    ensures v.disk.dirs == m.disk.dirs && (v.running == m.running || v.running == map[])
  {
  }

  lemma DeletingWrites(m: Manager, step: Step, r: Record, capacity: nat, o: Outcome, v: Manager, n: Name)
    requires Invariant(m) && m.up && RecordLocked(m, r.Name()) == Some(r) && n in m.disk.records
    requires (step.Delete? && step.n == r.Name()) || (step.History? && step.n == r.Name() && r.state.Ready?)
    requires var deleting := r.(state := Deleting);
      if o == Done then v == Enqueued(Persisted(m, deleting), r.Name(), capacity) else PersistStep(m, deleting, o, v)
    ensures RecordGoes(m, step, v, n)
  {
  }

  lemma DeleteGoes(m: Manager, k: Name, capacity: nat, o: Outcome, v: Manager, n: Name)
    requires Invariant(m) && m.up && DeleteStep(m, k, capacity, o, v)
    ensures Goes(m, Delete(k, o), v, n)
  {
    var r := RecordLocked(m, k);
    if v != m && !r.value.state.Deleting? { DeletingGoes(m, Delete(k, o), r.value, capacity, o, v, n); }
  }

  lemma HistoryGoes(m: Manager, k: Name, capacity: nat, o: Outcome, v: Manager, n: Name)
    requires Invariant(m) && m.up && HistoryStep(m, k, capacity, o, v)
    ensures Goes(m, History(k, o), v, n)
  {
    DeletingGoes(m, History(k, o), m.disk.records[k], capacity, o, v, n);
  }

  lemma MoveGoes(m: Manager, k: Name, o: Outcome, v: Manager, n: Name)
    requires Invariant(m) && m.up && MoveStep(m, k, o, v)
    ensures Goes(m, Move(k, o), v, n)
  {
  }

  lemma EraseGoes(m: Manager, k: Name, o: Outcome, v: Manager, n: Name)
    requires Invariant(m) && m.up && EraseStep(m, k, o, v)
    ensures Goes(m, Erase(k, o), v, n)
  {
  }

  lemma BootGoes(m: Manager, v: Manager, n: Name)
    requires Invariant(m) && BootStep(m, v)
    ensures Goes(m, Boot, v, n)
  {
  }

  lemma PopGoes(m: Manager, n: Name)
    requires m.up && |m.queue| > 0
    ensures Goes(m, Pop, Popped(m), n)
  {
  }

  lemma RenameGoes(m: Manager, step: Step, v: Manager, n: Name)
    requires Invariant(m) && m.up
    requires match step
      case Publish(k, digest) => PublishStep(m, k, digest, v)
      case Conflict(k) => ConflictStep(m, k, v)
      case _ => false
    ensures Goes(m, step, v, n)
  {
  }

  lemma CleanGoes(m: Manager, step: Step, v: Manager, n: Name)
    requires match step
      case Empty(k, arch, left) => EmptyStep(m, k, arch, left, v)
      case Unrecord(k, arch) => UnrecordStep(m, k, arch, v)
      case _ => false
    ensures Goes(m, step, v, n)
  {
  }

  lemma WriteGoes(capacity: nat, m: Manager, step: Step, v: Manager, n: Name)
    requires Invariant(m) && Next(capacity, m, step, v) && Writes(step)
    ensures Goes(m, step, v, n)
  {
    match step
    case Submit(r, ready, o) => SubmitGoes(m, r, ready, capacity, o, v, n);
    case Finish(k, retryable, o) => FinishGoes(m, k, retryable, o, v, n);
    case Activate(k, o) => ActivateGoes(m, k, o, v, n);
    case Delete(k, o) => DeleteGoes(m, k, capacity, o, v, n);
    case History(k, o) => HistoryGoes(m, k, capacity, o, v, n);
    case Boot => BootGoes(m, v, n);
  }

  /** Steps that leave records and directories to the others. */
  lemma QuietGoes(m: Manager, step: Step, v: Manager, n: Name)
    requires LeavesDisk(m, v) && forall k :: k in v.running ==> (k in m.running && v.running[k] == m.running[k])
    ensures Goes(m, step, v, n)
  {
  }

  lemma ControlGoes(capacity: nat, m: Manager, step: Step, v: Manager, n: Name)
    requires Next(capacity, m, step, v) && (step.Retry? || (Quiet(step) && !step.Pop? && !step.Conflict?))
    ensures Goes(m, step, v, n)
  {
    if !step.Retry? { QuietLeavesDisk(capacity, m, step, v); }
    QuietGoes(m, step, v, n);
  }

  lemma ErasureGoes(capacity: nat, m: Manager, step: Step, v: Manager, n: Name)
    requires Invariant(m) && Next(capacity, m, step, v) && Erases(step)
    ensures Goes(m, step, v, n)
  {
    match step
    case Move(k, o) => MoveGoes(m, k, o, v, n);
    case Erase(k, o) => EraseGoes(m, k, o, v, n);
    case _ => CleanGoes(m, step, v, n);
  }

  /** Every change of a record, of its worker and of its directory is one of those listed. */
  lemma StepGoes(capacity: nat, m: Manager, step: Step, v: Manager, n: Name)
    requires Invariant(m) && Next(capacity, m, step, v)
    ensures Goes(m, step, v, n)
  {
    if Writes(step) {
      WriteGoes(capacity, m, step, v, n);
    } else if Erases(step) {
      ErasureGoes(capacity, m, step, v, n);
    } else {
      match step
      case Pop => PopGoes(m, n);
      case Publish(k, digest) => RenameGoes(m, step, v, n);
      case Conflict(k) => RenameGoes(m, step, v, n);
      case _ => ControlGoes(capacity, m, step, v, n);
    }
  }

  // ----- an accepted release is never rebuilt -----

  /** The release is past its making: nobody creates or materialises it. */
  predicate Settled(m: Manager, n: Name) {
    n in m.disk.records && !m.disk.records[n].state.Creating? && m.disk.records[n].state != Failed(true) &&
    !(n in m.running && m.running[n].Materialising?)
  }

  lemma StepKeepsSettled(m: Manager, step: Step, v: Manager, n: Name)
    requires Invariant(m) && Goes(m, step, v, n) && Settled(m, n) && n in v.disk.records
    ensures Settled(v, n)
  {
  }

  /** A release that was accepted, or whose failure is final, is never created or materialised again,
      whatever stops and starts, for as long as its record is there. */
  lemma {:induction false} NeverRebuilt(capacity: nat, run: seq<Manager>, steps: seq<Step>, i: nat, j: nat, n: Name)
    requires IsRun(capacity, run, steps) && i <= j < |run| && Settled(run[i], n)
    requires forall x :: i <= x <= j ==> n in run[x].disk.records
    ensures Settled(run[j], n)
    decreases j
  {
    if i < j {
      NeverRebuilt(capacity, run, steps, i, j - 1, n);
      InvariantHolds(capacity, run, steps, j - 1);
      StepGoes(capacity, run[j - 1], steps[j - 1], run[j], n);
      StepKeepsSettled(run[j - 1], steps[j - 1], run[j], n);
    }
  }

  // ----- without a start, only the worker that published can have the release accepted -----

  /** The worker that put the directory in place has not written its result yet. */
  predicate Publishing(m: Manager, n: Name) {
    n in m.running && m.running[n].Materialising? && m.running[n].made.Published?
  }

  /** What one step makes of a release whose directory is there while its record says that it is being
      created: nothing, an acceptance, a failure, or a deletion. */
  ghost predicate Fate(m: Manager, step: Step, v: Manager, n: Name)
    requires Awaiting(m, n)
  {
    var key := (m.disk.records[n].Target(), n);
    n in v.disk.records && key in v.disk.dirs && v.disk.dirs[key] == m.disk.dirs[key] &&
    (v.disk.records[n] == m.disk.records[n] ||
     (v.disk.records[n] == Accepted(m, n) && (step.Boot? || (step.Finish? && step.n == n && Publishing(m, n)))) ||
     (v.disk.records[n].state.Failed? && step.Finish? && step.n == n && !Publishing(m, n)) ||
     (v.disk.records[n].state.Deleting? && step.Delete? && step.n == n))
  }

  lemma StepFate(m: Manager, step: Step, v: Manager, n: Name)
    requires Invariant(m) && ContentSound(m) && Goes(m, step, v, n) && Awaiting(m, n)
    ensures Fate(m, step, v, n)
  {
    assert Belongs(m, (m.disk.records[n].Target(), n));
    AwaitingIsFree(m, n);
  }

  /** No clean-up has a build with a record that is being created. */
  lemma AwaitingIsFree(m: Manager, n: Name)
    requires Invariant(m) && Awaiting(m, n)
    ensures n !in m.cleaning
  {
  }

  /** A rename never succeeds twice: without the worker that published, no other takes its place. */
  lemma NobodyPublishesAgain(m: Manager, step: Step, v: Manager, n: Name)
    requires Invariant(m) && Goes(m, step, v, n) && Awaiting(m, n) && !Publishing(m, n)
    ensures !Publishing(v, n)
  {
  }

  lemma {:induction false} NobodyPublishes(capacity: nat, run: seq<Manager>, steps: seq<Step>, i: nat, j: nat, n: Name)
    requires IsRun(capacity, run, steps) && i <= j < |run| && !Publishing(run[i], n)
    requires forall x :: i <= x < j ==> Awaiting(run[x], n)
    ensures !Publishing(run[j], n)
    decreases j
  {
    if i < j {
      NobodyPublishes(capacity, run, steps, i, j - 1, n);
      InvariantHolds(capacity, run, steps, j - 1);
      StepGoes(capacity, run[j - 1], steps[j - 1], run[j], n);
      NobodyPublishesAgain(run[j - 1], steps[j - 1], run[j], n);
    }
  }

  lemma FirstFate(capacity: nat, run: seq<Manager>, steps: seq<Step>, j: nat, n: Name)
    requires IsRun(capacity, run, steps) && 0 < j < |run| && Awaiting(run[j - 1], n)
    ensures Fate(run[j - 1], steps[j - 1], run[j], n)
  {
    InvariantHolds(capacity, run, steps, j - 1);
    ContentHolds(capacity, run, steps, j - 1);
    StepGoes(capacity, run[j - 1], steps[j - 1], run[j], n);
    StepFate(run[j - 1], steps[j - 1], run[j], n);
  }

  lemma FateDecides(m: Manager, step: Step, v: Manager, n: Name)
    requires Awaiting(m, n) && Fate(m, step, v, n) && !Awaiting(v, n)
    ensures v.disk.records[n] == Accepted(m, n) <==> step.Boot? || (step.Finish? && step.n == n && Publishing(m, n))
    ensures v.disk.records[n] == Accepted(m, n) || v.disk.records[n].state.Failed? || v.disk.records[n].state.Deleting?
  {
  }

  /** While a release waits, it is the same record and the same directory. */
  lemma {:induction false} WaitsUnchanged(capacity: nat, run: seq<Manager>, steps: seq<Step>, i: nat, j: nat, n: Name)
    requires IsRun(capacity, run, steps) && i <= j < |run| && Awaiting(run[i], n) && Awaiting(run[j], n)
    requires forall x :: i <= x <= j ==> Awaiting(run[x], n)
    ensures run[j].disk.records[n] == run[i].disk.records[n] && Accepted(run[j], n) == Accepted(run[i], n)
    decreases j
  {
    if i < j {
      WaitsUnchanged(capacity, run, steps, i, j - 1, n);
      FirstFate(capacity, run, steps, j, n);
    }
  }

  /** The first step that takes a release out of waiting accepts it exactly when the worker that
      published it writes its result, or the process starts. Once that worker is gone, which is when its
      write has failed, only a start accepts the release. */
  lemma AcceptedExactly(capacity: nat, run: seq<Manager>, steps: seq<Step>, i: nat, j: nat, n: Name)
    requires IsRun(capacity, run, steps) && i < j < |run|
    requires (forall x :: i <= x < j ==> Awaiting(run[x], n)) && !Awaiting(run[j], n)
    ensures n in run[j].disk.records
    ensures run[j].disk.records[n] == Accepted(run[i], n) <==>
      steps[j - 1].Boot? || (steps[j - 1].Finish? && steps[j - 1].n == n && Publishing(run[j - 1], n))
    ensures !Publishing(run[i], n) ==> (run[j].disk.records[n] == Accepted(run[i], n) <==> steps[j - 1].Boot?)
    ensures run[j].disk.records[n] == Accepted(run[i], n) ||
            run[j].disk.records[n].state.Failed? || run[j].disk.records[n].state.Deleting?
  {
    FirstFate(capacity, run, steps, j, n);
    FateDecides(run[j - 1], steps[j - 1], run[j], n);
    WaitsUnchanged(capacity, run, steps, i, j - 1, n);
    if !Publishing(run[i], n) { NobodyPublishes(capacity, run, steps, i, j - 1, n); }
  }

  // ----- a failure that is final -----

  lemma FailedStays(m: Manager, step: Step, v: Manager, n: Name)
    requires Goes(m, step, v, n)
    requires n in m.disk.records && m.disk.records[n].state == Failed(false)
    requires !(step.Delete? && step.n == n) && !(step.Unrecord? && step.n == n)
    ensures n in v.disk.records && v.disk.records[n] == m.disk.records[n]
  {
  }

  /** A release whose failure is final stays failed, also over starts, until it is deleted or its build
      is cleaned up. */
  lemma {:induction false} FailedForGood(capacity: nat, run: seq<Manager>, steps: seq<Step>, i: nat, j: nat, n: Name)
    requires IsRun(capacity, run, steps) && i <= j < |run|
    requires n in run[i].disk.records && run[i].disk.records[n].state == Failed(false)
    requires forall x :: i <= x < j ==>
      !(steps[x].Delete? && steps[x].n == n) && !(steps[x].Unrecord? && steps[x].n == n)
    ensures n in run[j].disk.records && run[j].disk.records[n] == run[i].disk.records[n]
    decreases j
  {
    if i < j {
      FailedForGood(capacity, run, steps, i, j - 1, n);
      InvariantHolds(capacity, run, steps, j - 1);
      StepGoes(capacity, run[j - 1], steps[j - 1], run[j], n);
      FailedStays(run[j - 1], steps[j - 1], run[j], n);
    }
  }

  // ----- the run in which a published release is not accepted -----

  /** The manager with one record and its directory: what the run below goes through. */
  function One(r: Request, state: State, dirs: map<(Target, Name), Directory>, up: bool): Manager {
    var record := Record(r, state, None);
    var disk := Disk(map[r.name := record], dirs, map[], {});
    var m := EMPTY.(disk := disk);
    if up then
      m.(up := true, records := if Active(state) then map[r.name := record] else map[], paths := map[r.name := r.target])
    else m
  }

  function Queued(m: Manager, n: Name): Manager {
    m.(queue := [n], queued := {n})
  }

  function With(m: Manager, n: Name, job: Job): Manager {
    m.(running := map[n := job])
  }

  lemma FirstSteps(capacity: nat, r: Request)
    requires capacity > 0
    ensures BootStep(EMPTY, EMPTY.(up := true))
    ensures SubmitStep(EMPTY.(up := true), r, true, capacity, Done, Queued(One(r, Creating, map[], true), r.name))
  {
    var start := EMPTY.(up := true);
    assert CacheOf(start.disk.records).Keys == {} && PathsOf(start.disk.records).Keys == {};
    var record := Record(r, Creating, None);
    assert SubmitDecision(start, r, true, capacity) == Write(record);
    assert Enqueued(Persisted(start, record), r.name, capacity) == Queued(One(r, Creating, map[], true), r.name);
  }

  /** One attempt: a worker takes the release, and its rename finds a directory or makes one. */
  lemma Attempt(capacity: nat, r: Request, dirs: map<(Target, Name), Directory>, digest: Digest)
    requires capacity > 0 && forall k :: k in dirs ==> k == (r.target, r.name)
    ensures var m, n := One(r, Creating, dirs, true), r.name;
      var job := Materialising(Record(r, Creating, None), Working);
      RetryStep(m, n, capacity, Queued(m, n)) && Popped(Queued(m, n)) == With(m, n, job) &&
      (dirs == map[] ==>
        var made := map[(r.target, n) := Directory(Some(Index(r, digest)), digest)];
        PublishStep(With(m, n, job), n, digest, With(One(r, Creating, made, true), n, job.(made := Published(digest))))) &&
      (dirs != map[] ==> ConflictStep(With(m, n, job), n, With(m, n, job.(made := Conflicting))))
  {
    var m, n := One(r, Creating, dirs, true), r.name;
    var job := Materialising(Record(r, Creating, None), Working);
    assert Enqueued(m, n, capacity) == Queued(m, n);
    assert Popped(Queued(m, n)) == With(m, n, job);
    if dirs == map[] {
      var made := map[(r.target, n) := Directory(Some(Index(r, digest)), digest)];
      assert made == dirs[(r.target, n) := Directory(Some(Index(r, digest)), digest)];
      assert With(m, n, job).running[n := job.(made := Published(digest))] == map[n := job.(made := Published(digest))];
    } else {
      assert (r.target, n) in dirs;
      assert With(m, n, job).running[n := job.(made := Conflicting)] == map[n := job.(made := Conflicting)];
    }
  }

  /** A published result whose write fails leaves the record as it was; a conflict is written as final. */
  lemma LastSteps(r: Request, dirs: map<(Target, Name), Directory>, digest: Digest)
    ensures var m, n := One(r, Creating, dirs, true), r.name;
      var job := Materialising(Record(r, Creating, None), Working);
      FinishStep(With(m, n, job.(made := Published(digest))), n, true, Error, m) &&
      FinishStep(With(m, n, job.(made := Conflicting)), n, true, Done, One(r, Failed(false), dirs, true)) &&
      Halted(One(r, Failed(false), dirs, true)) == One(r, Failed(false), dirs, false) &&
      BootStep(One(r, Failed(false), dirs, false), One(r, Failed(false), dirs, true))
  {
    var m, n := One(r, Creating, dirs, true), r.name;
    var job := Materialising(Record(r, Creating, None), Working);
    assert With(m, n, job.(made := Published(digest))).running - {n} == map[];
    assert With(m, n, job.(made := Conflicting)).running - {n} == map[];
    var failed := Record(r, Failed(false), None);
    assert Persisted(m, failed) == One(r, Failed(false), dirs, true);
    var v := One(r, Failed(false), dirs, true);
    assert v.records == CacheOf(v.disk.records) && v.paths == PathsOf(v.disk.records);
  }

  /** A run with one step more. */
  lemma Extended(capacity: nat, run: seq<Manager>, steps: seq<Step>, step: Step, v: Manager)
      returns (longer: seq<Manager>, done: seq<Step>)
    requires IsRun(capacity, run, steps) && Next(capacity, run[|run| - 1], step, v)
    ensures IsRun(capacity, longer, done) && longer == run + [v] && done == steps + [step]
  {
    longer, done := run + [v], steps + [step];
    forall i | 0 <= i < |done| ensures Next(capacity, longer[i], done[i], longer[i + 1]) {
      if i < |steps| { assert longer[i] == run[i] && longer[i + 1] == run[i + 1] && done[i] == steps[i]; }
    }
  }

  /** A run up to the moment when a worker has taken the submitted release. */
  lemma Taken(capacity: nat, r: Request) returns (run: seq<Manager>, steps: seq<Step>)
    requires capacity > 0
    ensures IsRun(capacity, run, steps) && |steps| == 3
    ensures run[3] == With(One(r, Creating, map[], true), r.name, Materialising(Record(r, Creating, None), Working))
  {
    var submitted := One(r, Creating, map[], true);
    FirstSteps(capacity, r);
    Attempt(capacity, r, map[], Sha256([]));
    run, steps := [EMPTY], [];
    run, steps := Extended(capacity, run, steps, Boot, EMPTY.(up := true));
    run, steps := Extended(capacity, run, steps, Submit(r, true, Done), Queued(submitted, r.name));
    run, steps := Extended(capacity, run, steps, Pop, Popped(Queued(submitted, r.name)));
  }

  /** A run up to the publication whose record cannot be written. */
  lemma WriteFails(capacity: nat, r: Request, digest: Digest) returns (run: seq<Manager>, steps: seq<Step>)
    requires capacity > 0
    ensures IsRun(capacity, run, steps) && |steps| == 5 && steps[4] == Finish(r.name, true, Error)
    ensures run[5] == One(r, Creating, map[(r.target, r.name) := Directory(Some(Index(r, digest)), digest)], true)
    ensures Publishing(run[4], r.name)
  {
    var n := r.name;
    var dirs := map[(r.target, n) := Directory(Some(Index(r, digest)), digest)];
    var made := One(r, Creating, dirs, true);
    run, steps := Taken(capacity, r);
    Attempt(capacity, r, map[], digest);
    LastSteps(r, dirs, digest);
    var job := Materialising(Record(r, Creating, None), Published(digest));
    run, steps := Extended(capacity, run, steps, Publish(n, digest), With(made, n, job));
    run, steps := Extended(capacity, run, steps, Finish(n, true, Error), made);
  }

  /** A retry of a release that is already published ends in a final failure. */
  lemma RetryFails(capacity: nat, r: Request, digest: Digest, run: seq<Manager>, steps: seq<Step>)
      returns (longer: seq<Manager>, done: seq<Step>)
    requires capacity > 0 && IsRun(capacity, run, steps)
    requires run[|steps|] == One(r, Creating, map[(r.target, r.name) := Directory(Some(Index(r, digest)), digest)], true)
    ensures IsRun(capacity, longer, done) && run <= longer && steps <= done && |done| == |steps| + 4
    ensures longer[|done|] == One(r, Failed(false), run[|steps|].disk.dirs, true)
  {
    var n := r.name;
    var made := run[|steps|];
    var job := Materialising(Record(r, Creating, None), Working);
    Attempt(capacity, r, made.disk.dirs, digest);
    LastSteps(r, made.disk.dirs, digest);
    longer, done := Extended(capacity, run, steps, Retry(n), Queued(made, n));
    longer, done := Extended(capacity, longer, done, Pop, With(made, n, job));
    longer, done := Extended(capacity, longer, done, Conflict(n), With(made, n, job.(made := Conflicting)));
    longer, done := Extended(capacity, longer, done, Finish(n, true, Done), One(r, Failed(false), made.disk.dirs, true));
  }

  /** For every request there is a run in which its release is published whole, and still ends as failed
      for good: the write of the result fails, the retry materialises again, and its rename finds the
      directory of the first attempt. A later start does not change that. */
  lemma RebuildFails(capacity: nat, r: Request, digest: Digest) returns (run: seq<Manager>, steps: seq<Step>)
    requires capacity > 0
    ensures IsRun(capacity, run, steps) && |steps| == 11
    ensures steps[4] == Finish(r.name, true, Error) && Publishing(run[4], r.name)
    ensures Awaiting(run[5], r.name) && Accepted(run[5], r.name) == Record(r, Prepared, Some(digest))
    ensures steps[10] == Boot && run[11] == One(r, Failed(false), run[5].disk.dirs, true)
  {
    run, steps := WriteFails(capacity, r, digest);
    var dirs := run[5].disk.dirs;
    LastSteps(r, dirs, digest);
    run, steps := RetryFails(capacity, r, digest, run, steps);
    run, steps := Extended(capacity, run, steps, Halt, One(r, Failed(false), dirs, false));
    run, steps := Extended(capacity, run, steps, Boot, One(r, Failed(false), dirs, true));
  }
}
