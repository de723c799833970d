/** What the content of a ready repository version is. */
module RepositoryContent {
  import opened Core
  import opened Repository
  import opened RepositorySafety

  /** A ready record's content is the one that was published for its request, with its digest; only a
      build whose stop is confirmed may have lost it. */
  predicate Held(m: Manager, r: Record) {
    r.state.Ready? ==>
      r.request.scope.Build() in m.confirmed ||
      (r.digest.Some? && r.Key() in m.disk.dirs && m.disk.dirs[r.Key()] == Published(r.request, r.digest.value))
  }

  ghost predicate ReadySound(m: Manager) {
    forall uid :: uid in m.disk.records ==> Held(m, m.disk.records[uid])
  }

  /** A step that makes nothing ready and leaves the content alone. */
  lemma LeavingKeeps(m: Manager, v: Manager)
    requires ReadySound(m) && v.disk.dirs == m.disk.dirs && m.confirmed <= v.confirmed
    requires forall uid :: uid in v.disk.records && v.disk.records[uid].state.Ready? ==>
      uid in m.disk.records && v.disk.records[uid] == m.disk.records[uid]
    ensures ReadySound(v)
  {
    forall uid | uid in v.disk.records ensures Held(v, v.disk.records[uid]) {
      if v.disk.records[uid].state.Ready? { assert Held(m, m.disk.records[uid]); }
    }
  }

  lemma WriteKeepsReady(m: Manager, r: Record, o: Outcome, v: Manager)
    requires ReadySound(m) && Held(m, r) && PersistStep(m, r, o, v)
    ensures ReadySound(v)
  {
    HaltKeepsReady(m);
    WrittenKeepsReady(m, r);
    HaltKeepsReady(Persisted(m, r));
  }

  lemma HaltKeepsReady(m: Manager)
    requires ReadySound(m)
    ensures ReadySound(Halted(m))
  {
    LeavingKeeps(m, Halted(m));
  }

  lemma WrittenKeepsReady(m: Manager, r: Record)
    requires ReadySound(m) && Held(m, r)
    ensures ReadySound(Persisted(m, r))
  {
    var v := Persisted(m, r);
    forall uid | uid in v.disk.records ensures Held(v, v.disk.records[uid]) {
      if uid == r.Uid() {
        assert v.disk.records[uid] == r;
      } else {
        assert Held(m, m.disk.records[uid]);
      }
    }
  }

  lemma SubmitKeepsReady(m: Manager, r: Request, capacity: nat, o: Outcome, v: Manager)
    requires ReadySound(m) && SubmitStep(m, r, capacity, o, v)
    ensures ReadySound(v)
  {
    match SubmitDecision(m, r, capacity)
    case Write(record) =>
      if o == Done {
        WriteKeepsReady(m, record, Done, Persisted(m, record));
        LeavingKeeps(Persisted(m, record), v);
      } else {
        WriteKeepsReady(m, record, o, v);
      }
    case _ =>
  }

  lemma DeleteKeepsReady(m: Manager, uid: Uid, capacity: nat, o: Outcome, v: Manager)
    requires ReadySound(m) && DeleteStep(m, uid, capacity, o, v)
    ensures ReadySound(v)
  {
    var r := RecordLocked(m, uid);
    if r.None? || r.value.request.scope.Build() in m.cleaning || r.value.state.Deleting? {
      LeavingKeeps(m, v);
    } else {
      var deleting := r.value.(state := Deleting);
      if o == Done {
        WriteKeepsReady(m, deleting, Done, Persisted(m, deleting));
        LeavingKeeps(Persisted(m, deleting), v);
      } else {
        WriteKeepsReady(m, deleting, o, v);
      }
    }
  }

  /** A kept result is ready only with its content in place. */
  lemma CompletionKeepsReady(m: Manager, uid: Uid, o: Outcome, v: Manager)
    requires ReadySound(m) && CompletionStep(m, uid, o, v)
    requires Held(m, m.completions[uid])
    ensures ReadySound(v)
  {
    var r := m.completions[uid];
    if o == Done {
      WriteKeepsReady(m, r, Done, Persisted(m, r));
      LeavingKeeps(Persisted(m, r), v);
    } else {
      WriteKeepsReady(m, r, o, v);
    }
  }

  lemma FinishKeepsReady(m: Manager, w: nat, retryable: bool, o: Outcome, v: Manager)
    requires Invariant(m) && m.up && ReadySound(m) && FinishStep(m, w, retryable, o, v)
    ensures ReadySound(v)
  {
    var uid, u := m.jobs[w].uid, Left(m, w);
    LeavingKeeps(m, u);
    if uid in m.records && m.records[uid].state.Creating? {
      assert JobSound(m.records, m.disk.dirs, m.jobs[w]);
      var kept := u.(completions := m.completions[uid := Completed(m.records[uid], m.jobs[w].task.published, retryable)]);
      LeavingKeeps(u, kept);
      CompletionKeepsReady(kept, uid, o, v);
    }
  }

  lemma RetryKeepsReady(m: Manager, uid: Uid, capacity: nat, o: Outcome, v: Manager)
    requires Invariant(m) && m.up && ReadySound(m) && RetryStep(m, uid, capacity, o, v)
    ensures ReadySound(v)
  {
    if uid in m.completions {
      assert ResultSound(m.records, m.disk.dirs, uid, m.completions[uid]);
      CompletionKeepsReady(m, uid, o, v);
    } else {
      LeavingKeeps(m, v);
    }
  }

  lemma PublishKeepsReady(m: Manager, w: nat, digest: Digest, v: Manager)
    requires ReadySound(m) && PublishStep(m, w, digest, v)
    ensures ReadySound(v)
  {
    forall uid | uid in v.disk.records ensures Held(v, v.disk.records[uid]) { assert Held(m, m.disk.records[uid]); }
  }

  /** Only the content of a version whose record is being deleted is removed. */
  lemma MoveKeepsReady(m: Manager, w: nat, o: Outcome, v: Manager)
    requires Invariant(m) && m.up && ReadySound(m) && MoveStep(m, w, o, v)
    ensures ReadySound(v)
  {
    forall uid | uid in v.disk.records ensures Held(v, v.disk.records[uid]) { assert Held(m, m.disk.records[uid]); }
  }

  lemma EraseKeepsReady(m: Manager, w: nat, o: Outcome, v: Manager)
    requires ReadySound(m) && EraseStep(m, w, o, v)
    ensures ReadySound(v)
  {
    LeavingKeeps(m, v);
  }

  /** A clean-up may take everything, but only of a build whose stop is confirmed. */
  lemma WipeKeepsReady(m: Manager, b: Build, v: Manager)
    requires Invariant(m) && m.up && ReadySound(m) && WipeStep(m, b, v)
    ensures ReadySound(v)
  {
    forall uid | uid in v.disk.records ensures Held(v, v.disk.records[uid]) { assert Held(m, m.disk.records[uid]); }
  }

  lemma BootKeepsReady(m: Manager, v: Manager)
    requires ReadySound(m) && BootStep(m, v)
    ensures ReadySound(v)
  {
    forall uid | uid in v.disk.records ensures Held(v, v.disk.records[uid]) { assert Held(m, m.disk.records[uid]); }
  }

  predicate Quiet(step: Step) {
    step.Pop? || step.Leave? || step.Stop? || step.Begin? || step.End? || step.Halt?
  }

  lemma QuietKeepsReady(capacity: nat, m: Manager, step: Step, v: Manager)
    requires ReadySound(m) && Next(capacity, m, step, v) && Quiet(step)
    ensures ReadySound(v)
  {
    LeavingKeeps(m, v);
  }

  lemma StepKeepsReady(capacity: nat, m: Manager, step: Step, v: Manager)
    requires Invariant(m) && ReadySound(m) && Next(capacity, m, step, v)
    ensures ReadySound(v)
  {
    match step
    case Submit(r, o) => SubmitKeepsReady(m, r, capacity, o, v);
    case Publish(w, digest) => PublishKeepsReady(m, w, digest, v);
    case Finish(w, retryable, o) => FinishKeepsReady(m, w, retryable, o, v);
    case Retry(uid, o) => RetryKeepsReady(m, uid, capacity, o, v);
    case Delete(uid, o) => DeleteKeepsReady(m, uid, capacity, o, v);
    case Move(w, o) => MoveKeepsReady(m, w, o, v);
    case Erase(w, o) => EraseKeepsReady(m, w, o, v);
    case Wipe(b) => WipeKeepsReady(m, b, v);
    case Boot => BootKeepsReady(m, v);
    case _ => QuietKeepsReady(capacity, m, step, v);
  }

  lemma {:induction false} ReadyHolds(capacity: nat, run: seq<Manager>, steps: seq<Step>, i: nat)
    requires IsRun(capacity, run, steps) && i < |run|
    ensures ReadySound(run[i])
    decreases i
  {
    if i > 0 {
      ReadyHolds(capacity, run, steps, i - 1);
      InvariantHolds(capacity, run, steps, i - 1);
      assert Steps(capacity, run, steps, i - 1);
      StepKeepsReady(capacity, run[i - 1], steps[i - 1], run[i]);
    }
  }

  /** A version is reported ready only when its record is ready on disk, and then its content is there:
      exactly what was published for its request, with the recorded digest, unless the build's stop is
      confirmed, after which a clean-up may be under way. */
  lemma ReadyIsDurable(capacity: nat, run: seq<Manager>, steps: seq<Step>, i: nat, uid: Uid)
    requires IsRun(capacity, run, steps) && i < |run| && run[i].up
    requires RecordLocked(run[i], uid).Some? && RecordLocked(run[i], uid).value.state.Ready?
    ensures var m, r := run[i], RecordLocked(run[i], uid).value;
      uid in m.disk.records && m.disk.records[uid] == r && r.Key() in m.disk.dirs && m.disk.dirs[r.Key()].index.Some? &&
      (r.request.scope.Build() !in m.confirmed ==>
        r.digest.Some? && m.disk.dirs[r.Key()] == Published(r.request, r.digest.value))
  {
    InvariantHolds(capacity, run, steps, i);
    ReadyHolds(capacity, run, steps, i);
    assert Held(run[i], run[i].disk.records[uid]);
  }
}
