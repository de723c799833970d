/** What the release manager gets done when nothing stops or fails: deleted releases go, submitted ones
    become current, and a clean-up leaves nothing of its build. */
module ReleaseWork {
  import opened Core
  import opened Release
  import opened ReleaseContent

  /** The name is at the head of the queue, its record is cached in this state, and no worker has it. */
  predicate AtHead(m: Manager, n: Name, state: State) {
    m.up && |m.queue| > 0 && m.queue[0] == n && n in m.records && m.records[n].state == state && n !in m.running
  }

  /** A worker takes the head of the queue: it removes what is being deleted, activates what is prepared,
      and materialises what is being created. */
  lemma WorkIsTaken(m: Manager, n: Name)
    requires m.up && |m.queue| > 0 && m.queue[0] == n && n in m.records && n !in m.running
    ensures var v, r := Popped(m), m.records[n];
      v.queue == m.queue[1..] && v.records == m.records && v.disk == m.disk &&
      (n in v.running <==> r.state.Creating? || r.state.Prepared? || r.state.Deleting?) &&
      (r.state.Creating? ==> v.running[n] == Materialising(r, Working)) &&
      (r.state.Prepared? ==> v.running[n] == Activating) &&
      (r.state.Deleting? ==> v.running[n] == Removing(false))
  {
  }

  // ----- removal -----

  /** Nothing is left of the name: no record, on disk or cached, no path, and no directory but for builds
      whose stop is confirmed. */
  ghost predicate Gone(m: Manager, n: Name) {
    n !in m.disk.records && n !in m.records && n !in m.paths &&
    forall t: Target :: (t, n) in m.disk.dirs ==> (t.project, n) in m.confirmed
  }

  /** From every reachable state, a worker that takes a release whose record is being deleted removes it. */
  lemma RemovalCompletes(capacity: nat, run: seq<Manager>, steps: seq<Step>, n: Name)
      returns (longer: seq<Manager>, done: seq<Step>)
    requires IsRun(capacity, run, steps) && AtHead(run[|steps|], n, Deleting)
    ensures IsRun(capacity, longer, done) && run <= longer && done == steps + [Pop, Move(n, Done), Erase(n, Done), Leave(n)]
    ensures var m, v := run[|steps|], longer[|done|];
      Gone(v, n) && n !in v.running && (m.records[n].Target(), n) !in v.disk.dirs
  {
    var m := run[|steps|];
    InvariantHolds(capacity, run, steps, |steps|);
    WorkIsTaken(m, n);
    longer, done := Extended(capacity, run, steps, Pop, Popped(m));
    var u := longer[|done|];
    var key := (m.records[n].Target(), n);
    longer, done := Extended(capacity, longer, done, Move(n, Done),
      u.(disk := u.disk.(dirs := u.disk.dirs - {key}), running := u.running[n := Removing(true)]));
    u := longer[|done|];
    var e := u.(disk := u.disk.(records := u.disk.records - {n}), records := u.records - {n}, paths := u.paths - {n},
                running := u.running[n := Leaving]);
    longer, done := Extended(capacity, longer, done, Erase(n, Done), e);
    longer, done := Extended(capacity, longer, done, Leave(n), Left(e, n));
    ContentHolds(capacity, longer, done, |done|);
    NoRecordNoDirectory(longer[|done|], n);
  }

  lemma NoRecordNoDirectory(m: Manager, n: Name)
    requires ContentSound(m) && n !in m.disk.records
    ensures forall t: Target :: (t, n) in m.disk.dirs ==> (t.project, n) in m.confirmed
  {
    forall t: Target | (t, n) in m.disk.dirs ensures (t.project, n) in m.confirmed { assert Belongs(m, (t, n)); }
  }

  // ----- activation -----

  /** The release is ready, its directory is intact, and `current` names it. */
  predicate IsLive(m: Manager, n: Name) {
    n in m.disk.records && m.disk.records[n].Name() == n && m.disk.records[n].state.Ready? &&
    Intact(m.disk, m.disk.records[n]) && IsCurrent(m.disk, m.disk.records[n].Target(), n)
  }

  /** A worker that has come to activate a prepared release of a build that is not stopped makes it live. */
  lemma ActivationCompletes(capacity: nat, run: seq<Manager>, steps: seq<Step>, n: Name)
      returns (longer: seq<Manager>, done: seq<Step>)
    requires IsRun(capacity, run, steps) && run[|steps|].up && n in run[|steps|].running && run[|steps|].running[n].Activating?
    requires n in run[|steps|].records && run[|steps|].records[n].state.Prepared? && !Stopped(run[|steps|].disk, run[|steps|].records[n])
    ensures IsRun(capacity, longer, done) && run <= longer && done == steps + [Activate(n, Done), Leave(n)]
    ensures IsLive(longer[|done|], n) && n !in longer[|done|].running && n !in longer[|done|].records
    ensures longer[|done|].disk.records[n] == run[|steps|].records[n].(state := Ready)
  {
    var m := run[|steps|];
    InvariantHolds(capacity, run, steps, |steps|);
    var r := m.records[n];
    ActiveIsFree(m, n);
    var u := m.(running := m.running[n := Leaving]);
    var v := Persisted(Pointed(u, r), r.(state := Ready));
    longer, done := Extended(capacity, run, steps, Activate(n, Done), v);
    longer, done := Extended(capacity, longer, done, Leave(n), Left(v, n));
  }

  /** A cached record of a build that is not stopped is on disk, and no clean-up has its name. */
  lemma ActiveIsFree(m: Manager, n: Name)
    requires Invariant(m) && m.up && n in m.records && !Stopped(m.disk, m.records[n])
    ensures n !in m.cleaning && n in m.disk.records && m.disk.records[n] == m.records[n]
    ensures m.records[n].Name() == n && InScope(m, m.records[n]) && RecordLocked(m, n) == Some(m.records[n])
    ensures m.records[n].state.Prepared? ==> Intact(m.disk, m.records[n])
  {
  }

  lemma PreparedCompletes(capacity: nat, run: seq<Manager>, steps: seq<Step>, n: Name)
      returns (longer: seq<Manager>, done: seq<Step>)
    requires IsRun(capacity, run, steps) && AtHead(run[|steps|], n, Prepared)
    requires !Stopped(run[|steps|].disk, run[|steps|].records[n])
    ensures IsRun(capacity, longer, done) && run <= longer && done == steps + [Pop] + [Activate(n, Done), Leave(n)]
    ensures IsLive(longer[|done|], n)
  {
    WorkIsTaken(run[|steps|], n);
    longer, done := Extended(capacity, run, steps, Pop, Popped(run[|steps|]));
    longer, done := ActivationCompletes(capacity, longer, done, n);
  }

  // ----- making -----

  /** The first half: the directory is published and the record is prepared; the same worker goes on to
      activate it. */
  lemma MakingPrepares(capacity: nat, run: seq<Manager>, steps: seq<Step>, n: Name, digest: Digest)
      returns (longer: seq<Manager>, done: seq<Step>)
    requires IsRun(capacity, run, steps) && AtHead(run[|steps|], n, Creating)
    requires !Stopped(run[|steps|].disk, run[|steps|].records[n])
    requires (run[|steps|].records[n].Target(), n) !in run[|steps|].disk.dirs
    ensures IsRun(capacity, longer, done) && run <= longer
    ensures done == steps + [Pop, Publish(n, digest), Finish(n, true, Done)]
    ensures var m, v := run[|steps|], longer[|done|];
      v.up && n in v.records && v.records[n] == m.records[n].(state := Prepared, digest := Some(digest)) &&
      n in v.running && v.running[n] == Activating && v.disk.stopped == m.disk.stopped
  {
    var m := run[|steps|];
    InvariantHolds(capacity, run, steps, |steps|);
    ActiveIsFree(m, n);
    WorkIsTaken(m, n);
    var r := m.records[n];
    longer, done := Extended(capacity, run, steps, Pop, Popped(m));
    var u := longer[|done|];
    var dir := Directory(Some(Index(r.request, digest)), digest);
    longer, done := Extended(capacity, longer, done, Publish(n, digest),
      u.(disk := u.disk.(dirs := u.disk.dirs[(r.Target(), n) := dir]), running := u.running[n := Materialising(r, Published(digest))]));
    u := longer[|done|];
    var prepared := r.(state := Prepared, digest := Some(digest));
    longer, done := Extended(capacity, longer, done, Finish(n, true, Done),
      Persisted(u, prepared).(running := u.running[n := Activating]));
  }

  /** From every reachable state, a worker that takes a release that is being created, of a build that is
      not stopped, and without a directory yet, makes it live. */
  lemma MakingCompletes(capacity: nat, run: seq<Manager>, steps: seq<Step>, n: Name, digest: Digest)
      returns (longer: seq<Manager>, done: seq<Step>)
    requires IsRun(capacity, run, steps) && AtHead(run[|steps|], n, Creating)
    requires !Stopped(run[|steps|].disk, run[|steps|].records[n])
    requires (run[|steps|].records[n].Target(), n) !in run[|steps|].disk.dirs
    ensures IsRun(capacity, longer, done) && run <= longer && |done| == |steps| + 5
    ensures IsLive(longer[|done|], n)
    ensures longer[|done|].disk.records[n] == run[|steps|].records[n].(state := Ready, digest := Some(digest))
  {
    longer, done := MakingPrepares(capacity, run, steps, n, digest);
    longer, done := ActivationCompletes(capacity, longer, done, n);
  }

  // ----- a start leaves the rest alone -----

  /** A ready or prepared record has its intact directory, unless the stop of its build is confirmed. */
  predicate Held(m: Manager, r: Record) {
    r.state.Ready? || r.state.Prepared? ==> Intact(m.disk, r) || (r.Target().project, r.Name()) in m.confirmed
  }

  ghost predicate HeldSound(m: Manager) {
    forall n :: n in m.disk.records ==> Held(m, m.disk.records[n])
  }

  /** A directory changes only while its record is being deleted, or in a clean-up of its build. */
  lemma HeldDirectoryStays(m: Manager, step: Step, v: Manager, n: Name)
    requires Invariant(m) && n in m.disk.records && !m.disk.records[n].state.Deleting?
    requires DirectoryGoes(m, step, v, (m.disk.records[n].Target(), n)) && m.confirmed <= v.confirmed
    ensures var key := (m.disk.records[n].Target(), n);
      (key in m.disk.dirs ==> key in v.disk.dirs && v.disk.dirs[key] == m.disk.dirs[key]) || (key.0.project, n) in v.confirmed
  {
    if n in m.cleaning { CleaningIsConfirmed(m, n); }
  }

  lemma CleaningIsConfirmed(m: Manager, n: Name)
    requires Invariant(m) && n in m.cleaning
    ensures (m.cleaning[n].project, n) in m.confirmed
  {
    assert ReservationSound(m, n, m.cleaning[n]);
  }

  lemma StepKeepsHeldAt(m: Manager, step: Step, v: Manager, n: Name)
    requires Invariant(m) && HeldSound(m) && n in m.disk.records && n in v.disk.records
    requires Goes(m, step, v, n) && m.confirmed <= v.confirmed
    ensures Held(v, v.disk.records[n])
  {
    assert Held(m, m.disk.records[n]) && m.disk.records[n].Name() == n;
    if !m.disk.records[n].state.Deleting? {
      HeldDirectoryStays(m, step, v, n);
      ChangedIsHeld(m, step, v, n);
    }
  }

  /** What a record becomes has its directory as things were. */
  lemma ChangedIsHeld(m: Manager, step: Step, v: Manager, n: Name)
    requires Invariant(m) && n in m.disk.records && n in v.disk.records && RecordGoes(m, step, v, n)
    requires Held(m, m.disk.records[n])
    ensures Held(m, v.disk.records[n]) && v.disk.records[n].request == m.disk.records[n].request
  {
    if step.Boot? { RecoveredIsHeld(m, m.disk.records[n]); }
  }

  lemma RecoveredIsHeld(m: Manager, r: Record)
    requires Held(m, r)
    ensures Held(m, Rechecked(m.disk, r)) && Held(m, Recovered(m.disk, r))
  {
  }

  /** A record that was not there is being created, or, when only the cache knew it, deleted. */
  lemma NewIsCreating(capacity: nat, m: Manager, step: Step, v: Manager, n: Name)
    requires Invariant(m) && Next(capacity, m, step, v) && n !in m.disk.records && n in v.disk.records
    ensures v.disk.records[n].state.Creating? || v.disk.records[n].state.Deleting?
  {
    if Writes(step) { WritesNew(capacity, m, step, v, n); } else { OthersMakeNothing(capacity, m, step, v); }
  }

  lemma WritesNew(capacity: nat, m: Manager, step: Step, v: Manager, n: Name)
    requires Invariant(m) && Next(capacity, m, step, v) && Writes(step) && n !in m.disk.records && n in v.disk.records
    ensures v.disk.records[n].state.Creating? || v.disk.records[n].state.Deleting?
  {
    match step
    case Submit(r, ready, o) => SubmitMakesCreating(capacity, m, r, ready, o, v, n);
    case Finish(k, retryable, o) => FinishMakesNothing(m, k, retryable, o, v);
    case Activate(k, o) => ActivateMakesNothing(m, k, o, v);
    case Delete(k, o) => DeleteMakesDeleting(capacity, m, k, o, v, n);
    case History(k, o) => HistoryMakesNothing(capacity, m, k, o, v);
    case Boot => BootMakesNothing(m, v);
  }

  lemma SubmitMakesCreating(capacity: nat, m: Manager, r: Request, ready: bool, o: Outcome, v: Manager, n: Name)
    requires SubmitStep(m, r, ready, capacity, o, v) && n !in m.disk.records && n in v.disk.records
    ensures v.disk.records[n].state.Creating?
  {
  }

  lemma HistoryMakesNothing(capacity: nat, m: Manager, k: Name, o: Outcome, v: Manager)
    requires Invariant(m) && m.up && HistoryStep(m, k, capacity, o, v)
    ensures v.disk.records.Keys <= m.disk.records.Keys
  {
  }

  lemma BootMakesNothing(m: Manager, v: Manager)
    requires BootStep(m, v)
    ensures v.disk.records.Keys <= m.disk.records.Keys
  {
  }

  lemma FinishMakesNothing(m: Manager, k: Name, retryable: bool, o: Outcome, v: Manager)
    requires Invariant(m) && m.up && FinishStep(m, k, retryable, o, v)
    ensures v.disk.records.Keys <= m.disk.records.Keys
  {
  }

  lemma ActivateMakesNothing(m: Manager, k: Name, o: Outcome, v: Manager)
    requires Invariant(m) && m.up && ActivateStep(m, k, o, v)
    ensures v.disk.records.Keys <= m.disk.records.Keys
  {
  }

  lemma DeleteMakesDeleting(capacity: nat, m: Manager, k: Name, o: Outcome, v: Manager, n: Name)
    requires DeleteStep(m, k, capacity, o, v) && n !in m.disk.records && n in v.disk.records
    ensures v.disk.records[n].state.Deleting?
  {
  }

  lemma OthersMakeNothing(capacity: nat, m: Manager, step: Step, v: Manager)
    requires Next(capacity, m, step, v) && !Writes(step)
    ensures v.disk.records.Keys <= m.disk.records.Keys
  {
    match step
    case Move(k, o) => assert MoveStep(m, k, o, v);
    case Erase(k, o) => assert EraseStep(m, k, o, v);
    case Publish(k, digest) =>
    case Retry(k) =>
    case Empty(k, arch, left) =>
    case Unrecord(k, arch) =>
    case _ => QuietLeavesDisk(capacity, m, step, v);
  }

  lemma StepKeepsHeld(capacity: nat, m: Manager, step: Step, v: Manager)
    requires Invariant(m) && ContentSound(m) && HeldSound(m) && Next(capacity, m, step, v)
    ensures HeldSound(v)
  {
    ConfirmedGrows(capacity, m, step, v);
    forall n | n in v.disk.records ensures Held(v, v.disk.records[n]) {
      if n in m.disk.records {
        StepGoes(capacity, m, step, v, n);
        StepKeepsHeldAt(m, step, v, n);
      } else {
        NewIsCreating(capacity, m, step, v, n);
      }
    }
  }

  lemma {:induction false} HeldHolds(capacity: nat, run: seq<Manager>, steps: seq<Step>, i: nat)
    requires IsRun(capacity, run, steps) && i < |run|
    ensures HeldSound(run[i])
    decreases i
  {
    if i > 0 {
      HeldHolds(capacity, run, steps, i - 1);
      InvariantHolds(capacity, run, steps, i - 1);
      ContentHolds(capacity, run, steps, i - 1);
      StepKeepsHeld(capacity, run[i - 1], steps[i - 1], run[i]);
    }
  }

  /** A start changes exactly two kinds of records, but for builds whose stop is confirmed: one that is
      being created and has its directory is accepted, and a prepared one that `current` names, of a build
      without a stop marker, is ready. Every other record stays as it is. */
  lemma StartChangesOnly(capacity: nat, run: seq<Manager>, steps: seq<Step>, i: nat, n: Name)
    requires IsRun(capacity, run, steps) && i < |steps| && steps[i].Boot? && run[i + 1].up && n in run[i].disk.records
    requires (run[i].disk.records[n].Target().project, n) !in run[i].confirmed
    ensures var m, r := run[i], run[i].disk.records[n];
      n in run[i + 1].disk.records &&
      run[i + 1].disk.records[n] ==
        if Awaiting(m, n) then Accepted(m, n)
        else if r.state.Prepared? && IsCurrent(m.disk, r.Target(), n) && !Stopped(m.disk, r) then r.(state := Ready)
        else r
  {
    var m, r := run[i], run[i].disk.records[n];
    InvariantHolds(capacity, run, steps, i);
    HeldHolds(capacity, run, steps, i);
    assert Held(m, r) && r.Name() == n;
    assert Next(capacity, m, steps[i], run[i + 1]);
    if Awaiting(m, n) { StartAcceptsPublished(capacity, run, steps, i, n); }
  }

  // ----- a clean-up leaves nothing -----

  /** Directories and links of a build that is being cleaned up are among its architectures, and those that
      have been taken are gone. */
  ghost predicate Taken(m: Manager, n: Name, c: Cleaning) {
    (forall t: Target :: (t, n) in m.disk.dirs && t.project == c.project ==> t.arch in c.arches && t.arch !in c.emptied) &&
    (forall t :: IsCurrent(m.disk, t, n) && t.project == c.project ==> t.arch in c.arches)
  }

  ghost predicate TakenSound(m: Manager) {
    forall n :: n in m.cleaning ==> Taken(m, n, m.cleaning[n])
  }

  /** A step that makes no directory, no link and no reservation. */
  lemma LeavingKeepsTaken(m: Manager, v: Manager)
    requires TakenSound(m) && (v.cleaning == m.cleaning || v.cleaning == map[])
    requires v.disk.dirs.Keys <= m.disk.dirs.Keys && v.disk.current == m.disk.current
    ensures TakenSound(v)
  {
    forall n | n in v.cleaning ensures Taken(v, n, v.cleaning[n]) { assert Taken(m, n, m.cleaning[n]); }
  }

  predicate Cleans(step: Step) {
    step.Begin? || step.Check? || step.Empty? || step.Unrecord? || step.End?
  }

  lemma ReserveKeepsTaken(m: Manager, step: Step, v: Manager)
    requires TakenSound(m)
    requires match step
      case Begin(p, n, arches) => BeginStep(m, p, n, arches, v)
      case Check(n, arch) => CheckStep(m, n, arch, v)
      case End(n, done) => EndStep(m, n, done, v)
      case _ => false
    ensures TakenSound(v)
  {
    forall n | n in v.cleaning ensures Taken(v, n, v.cleaning[n]) { if n in m.cleaning { assert Taken(m, n, m.cleaning[n]); } }
  }

  lemma EmptyKeepsTaken(m: Manager, n: Name, arch: string, left: Option<Directory>, v: Manager)
    requires TakenSound(m) && EmptyStep(m, n, arch, left, v)
    ensures TakenSound(v)
  {
    forall k | k in v.cleaning ensures Taken(v, k, v.cleaning[k]) { assert Taken(m, k, m.cleaning[k]); }
  }

  lemma UnrecordKeepsTaken(m: Manager, n: Name, arch: string, v: Manager)
    requires TakenSound(m) && UnrecordStep(m, n, arch, v)
    ensures TakenSound(v)
  {
    forall k | k in v.cleaning ensures Taken(v, k, v.cleaning[k]) { assert Taken(m, k, m.cleaning[k]); }
  }

  lemma CleanKeepsTaken(capacity: nat, m: Manager, step: Step, v: Manager)
    requires TakenSound(m) && Next(capacity, m, step, v) && Cleans(step)
    ensures TakenSound(v)
  {
    match step
    case Empty(n, arch, left) => EmptyKeepsTaken(m, n, arch, left, v);
    case Unrecord(n, arch) => UnrecordKeepsTaken(m, n, arch, v);
    case _ => ReserveKeepsTaken(m, step, v);
  }

  /** A directory is published, and `current` pointed, only for builds that nobody cleans up. */
  lemma PublishKeepsTaken(m: Manager, n: Name, digest: Digest, v: Manager)
    requires Invariant(m) && m.up && TakenSound(m) && PublishStep(m, n, digest, v)
    ensures TakenSound(v)
  {
    forall k | k in v.cleaning ensures Taken(v, k, v.cleaning[k]) {
      assert Taken(m, k, m.cleaning[k]);
      assert ReservationSound(m, k, m.cleaning[k]);
    }
  }

  lemma ActivateKeepsTaken(m: Manager, n: Name, o: Outcome, v: Manager)
    requires Invariant(m) && m.up && TakenSound(m) && ActivateStep(m, n, o, v)
    ensures TakenSound(v)
  {
    ActivateMovesOnly(m, n, o, v);
    forall k | k in v.cleaning ensures Taken(v, k, v.cleaning[k]) { assert Taken(m, k, m.cleaning[k]); }
  }

  lemma ActivateMovesOnly(m: Manager, n: Name, o: Outcome, v: Manager)
    requires Invariant(m) && m.up && ActivateStep(m, n, o, v)
    ensures v.disk.dirs == m.disk.dirs && (v.cleaning == m.cleaning || v.cleaning == map[])
    ensures forall t, k :: IsCurrent(v.disk, t, k) ==> IsCurrent(m.disk, t, k) || (k == n && n !in m.cleaning)
  {
    if MayActivate(m, n) { PointKeeps(m, n); }
  }

  lemma WriteKeepsTaken(capacity: nat, m: Manager, step: Step, v: Manager)
    requires Invariant(m) && TakenSound(m) && Next(capacity, m, step, v) && Writes(step)
    ensures TakenSound(v)
  {
    match step
    case Submit(r, ready, o) => SubmitLeavesTaken(capacity, m, r, ready, o, v);
    case Finish(n, retryable, o) => FinishLeavesTaken(m, n, retryable, o, v);
    case Activate(n, o) => ActivateKeepsTaken(m, n, o, v);
    case Delete(n, o) => DeleteLeavesTaken(capacity, m, n, o, v);
    case History(n, o) => HistoryLeavesTaken(capacity, m, n, o, v);
    case Boot => LeavingKeepsTaken(m, v);
  }

  lemma SubmitLeavesTaken(capacity: nat, m: Manager, r: Request, ready: bool, o: Outcome, v: Manager)
    requires TakenSound(m) && SubmitStep(m, r, ready, capacity, o, v)
    ensures TakenSound(v)
  {
    LeavingKeepsTaken(m, v);
  }

  lemma FinishLeavesTaken(m: Manager, n: Name, retryable: bool, o: Outcome, v: Manager)
    requires TakenSound(m) && FinishStep(m, n, retryable, o, v)
    ensures TakenSound(v)
  {
    LeavingKeepsTaken(m, v);
  }

  lemma DeleteLeavesTaken(capacity: nat, m: Manager, n: Name, o: Outcome, v: Manager)
    requires TakenSound(m) && DeleteStep(m, n, capacity, o, v)
    ensures TakenSound(v)
  {
    LeavingKeepsTaken(m, v);
  }

  lemma HistoryLeavesTaken(capacity: nat, m: Manager, n: Name, o: Outcome, v: Manager)
    requires TakenSound(m) && HistoryStep(m, n, capacity, o, v)
    ensures TakenSound(v)
  {
    LeavingKeepsTaken(m, v);
  }

  lemma RemovalKeepsTaken(m: Manager, step: Step, v: Manager)
    requires TakenSound(m)
    requires match step case Move(n, o) => MoveStep(m, n, o, v) case Erase(n, o) => EraseStep(m, n, o, v) case _ => false
    ensures TakenSound(v)
  {
    LeavingKeepsTaken(m, v);
  }

  lemma StopKeepsTaken(m: Manager, p: string, n: Name, repositories: bool, o: Outcome, answer: bool, v: Manager)
    requires TakenSound(m) && StopStep(m, p, n, repositories, o, answer, v)
    ensures TakenSound(v)
  {
    LeavingKeepsTaken(m, v);
  }

  lemma StepKeepsTaken(capacity: nat, m: Manager, step: Step, v: Manager)
    requires Invariant(m) && TakenSound(m) && Next(capacity, m, step, v)
    ensures TakenSound(v)
  {
    if Writes(step) { WriteKeepsTaken(capacity, m, step, v); return; }
    if Cleans(step) { CleanKeepsTaken(capacity, m, step, v); return; }
    match step
    case Publish(n, digest) => PublishKeepsTaken(m, n, digest, v);
    case Move(n, o) => RemovalKeepsTaken(m, step, v);
    case Erase(n, o) => RemovalKeepsTaken(m, step, v);
    case Stop(p, n, repositories, o, answer) => StopKeepsTaken(m, p, n, repositories, o, answer, v);
    case _ => QueueKeepsTaken(capacity, m, step, v);
  }

  lemma QueueKeepsTaken(capacity: nat, m: Manager, step: Step, v: Manager)
    requires TakenSound(m) && Next(capacity, m, step, v)
    requires step.Pop? || step.Conflict? || step.Leave? || step.Retry? || step.Halt?
    ensures TakenSound(v)
  {
    LeavingKeepsTaken(m, v);
  }

  lemma {:induction false} TakenHolds(capacity: nat, run: seq<Manager>, steps: seq<Step>, i: nat)
    requires IsRun(capacity, run, steps) && i < |run|
    ensures TakenSound(run[i])
    decreases i
  {
    if i > 0 {
      TakenHolds(capacity, run, steps, i - 1);
      InvariantHolds(capacity, run, steps, i - 1);
      StepKeepsTaken(capacity, run[i - 1], steps[i - 1], run[i]);
    }
  }

  /** When a build clean-up ends as complete, nothing of the build is left: no record in its project, on
      disk or cached, no release directory, and no `current` link. */
  lemma CleanedBuildIsGone(capacity: nat, run: seq<Manager>, steps: seq<Step>, i: nat, n: Name)
    requires IsRun(capacity, run, steps) && i < |steps| && steps[i] == End(n, true)
    ensures n in run[i].cleaning
    ensures var project, v := run[i].cleaning[n].project, run[i + 1];
      n !in v.records && n !in v.paths && n !in v.cleaning &&
      (n in v.disk.records ==> !v.disk.records[n].In(project)) &&
      (forall t: Target :: t.project == project ==> (t, n) !in v.disk.dirs && !IsCurrent(v.disk, t, n))
  {
    var m := run[i];
    InvariantHolds(capacity, run, steps, i);
    TakenHolds(capacity, run, steps, i);
    assert Next(capacity, m, steps[i], run[i + 1]);
    assert ReservationSound(m, n, m.cleaning[n]) && Taken(m, n, m.cleaning[n]);
  }
}
