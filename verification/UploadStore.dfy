/** The upload store for one job: its files, and each lock section as a method that refines a step of
    the transition system. */
module UploadStore {
  import opened Core
  import opened ManifestText
  import opened Uploads

  datatype SealReply = Sealing | Already(manifest: Manifest) | Refusal(code: string) | Stopped

  /** Two artifacts have the same idempotency key. */
  ghost predicate Duplicated(artifacts: Artifacts, key: Text) {
    exists a, b :: a in artifacts && b in artifacts && a != b && artifacts[a].key == key && artifacts[b].key == key
  }

  ghost predicate Settled(artifacts: Artifacts, ids: set<Text>) {
    forall id :: id in ids && id in artifacts && artifacts[id].key != [] ==> !artifacts[id].state.Pending?
  }

  /** What an answer that succeeded has done: a request that is told to send its content is at work on a pending
      artifact of its key and metadata, new or failed before; content that is in place is recorded as
      completed; anything else changes nothing. */
  predicate Began(j: Job, s: nat, key: Text, m: Metadata, known: Option<Text>, id: Text, d: Decision, v: Job) {
    v.files == j.files &&
    if d.Restart? || d.Create? then
      var k := if known.Some? then known.value else id;
      v.sessions == j.sessions[s := Session(k, Artifact(key, m, Pending), Copying)] &&
      v.artifacts == j.artifacts[k := Artifact(key, m, Pending)] &&
      (k in j.artifacts ==> j.artifacts[k] == Artifact(key, m, j.artifacts[k].state) && !j.artifacts[k].state.Pending?)
    else if d.Repair? then
      known == Some(d.id) && v.sessions == j.sessions && v.artifacts == j.artifacts[d.id := Artifact(key, m, Completed)] &&
      Verified(v.files, m)
    else v == j
  }

  /** A start changes nothing but the state of pending uploads. */
  ghost predicate Loading(j: Artifacts, v: Artifacts) {
    j.Keys == v.Keys && forall id :: id in v ==>
      v[id] == j[id] || (j[id].key != [] && j[id].state.Pending? && v[id] == j[id].(state := v[id].state))
  }

  /** The same with the log's artifact, which a start may complete. */
  ghost predicate Starting(log: LogMeta, j: Artifacts, v: Artifacts) {
    j.Keys == v.Keys && forall id :: id in v ==>
      v[id] == j[id] || (j[id].key != [] && j[id].state.Pending? && v[id] == j[id].(state := v[id].state)) ||
      (log == Finalizing(id) && v[id] == j[id].(state := Completed))
  }

  lemma LogStarts(j: Job, o: Outcome, v: Job, start: Artifacts)
    requires LogRecoverStep(j, o, v) && Loading(start, j.artifacts)
    ensures Starting(j.log, start, v.artifacts)
    ensures v.seal == j.seal && v.manifest == j.manifest && v.signed == j.signed && v.accepted == j.accepted
  {
    LogRecoverTouches(j, o, v);
    RecoveredStarts(j, start);
  }

  lemma CompletedStarts(j: Artifacts, start: Artifacts, id: Text)
    requires Loading(start, j) && id in j
    ensures Starting(Finalizing(id), start, j[id := j[id].(state := Completed)])
  {
    var v := j[id := j[id].(state := Completed)];
    assert v.Keys == j.Keys && v[id] == start[id].(state := Completed);
  }

  lemma RecoveredStarts(j: Job, start: Artifacts)
    requires Loading(start, j.artifacts)
    ensures Starting(j.log, start, j.artifacts) && Starting(j.log, start, LogRecovered(j).artifacts)
  {
    LogRecoveredTouches(j);
    if LogRecovered(j).artifacts != j.artifacts { CompletedStarts(j.artifacts, start, j.log.id); }
  }

  lemma LoadingContinues(j: Artifacts, u: Artifacts, v: Artifacts, ids: set<Text>, id: Text)
    requires Loading(j, u) && Loading(u, v) && Settled(u, ids)
    ensures Loading(j, v) && Settled(v, ids)
    ensures Settled(v, {id}) ==> Settled(v, ids + {id})
  {
  }

  /** A series of steps from state to state. */
  ghost predicate Path(c: Config, trace: seq<Job>, steps: seq<Step>) {
    |trace| == |steps| + 1 && forall i: nat :: i < |steps| ==> Follows(c, trace, steps, i)
  }

  ghost predicate Follows(c: Config, trace: seq<Job>, steps: seq<Step>, i: nat)
    requires |trace| == |steps| + 1 && i < |steps|
  {
    Next(c, trace[i], steps[i], trace[i + 1])
  }

  /** The last recovery step had a file operation that failed or was cut short. */
  predicate CutShort(steps: seq<Step>) {
    |steps| > 0 &&
    var last := steps[|steps| - 1];
    (last.Recover? || last.RecoverLog?) && last.o != Done
  }

  ghost predicate Recoveries(steps: seq<Step>) {
    forall i :: 0 <= i < |steps| ==> steps[i].Recover?
  }

  lemma PathContinues(c: Config, trace: seq<Job>, steps: seq<Step>, step: Step, v: Job)
    requires Path(c, trace, steps) && Next(c, trace[|steps|], step, v)
    ensures Path(c, trace + [v], steps + [step])
  {
    var longer, done := trace + [v], steps + [step];
    forall i: nat | i < |done| ensures Follows(c, longer, done, i) {
      if i < |steps| {
        assert Follows(c, trace, steps, i);
        assert longer[i] == trace[i] && longer[i + 1] == trace[i + 1] && done[i] == steps[i];
      }
    }
  }

  lemma RecoverLoads(j: Job, id: Text, o: Outcome, v: Job)
    requires RecoverStep(j, id, o, v)
    ensures Loading(j.artifacts, v.artifacts) && !v.up && v.log == j.log && (o == Done ==> Settled(v.artifacts, {id}))
  {
    var a := j.artifacts[id];
    if Verified(j.files, a.meta) {
      WriteLoads(j, id, a.(state := Completed), o, v);
    } else if WriteStep(j, id, a.(state := Failed), o, v) {
      WriteLoads(j, id, a.(state := Failed), o, v);
    } else {
      WriteLoads(j.(files := j.files - {a.meta.path}), id, a.(state := Failed), o, v);
    }
  }

  lemma WriteLoads(j: Job, id: Text, a: Artifact, o: Outcome, v: Job)
    requires !j.up && id in j.artifacts && j.artifacts[id].key != [] && j.artifacts[id].state.Pending?
    requires a == j.artifacts[id].(state := a.state) && !a.state.Pending? && WriteStep(j, id, a, o, v)
    ensures Loading(j.artifacts, v.artifacts) && !v.up && v.log == j.log && (o == Done ==> Settled(v.artifacts, {id}))
  {
    assert v.artifacts == j.artifacts || v.artifacts == j.artifacts[id := a];
  }

  /** Recovering the log leaves no upload pending. */
  lemma SettledWithLog(j: Job)
    requires Settled(j.artifacts, j.artifacts.Keys)
    ensures Settled(LogRecovered(j).artifacts, LogRecovered(j).artifacts.Keys)
  {
  }

  class JobStore {
    const config: Config
    var up: bool
    var artifacts: map<Text, Artifact>
    var files: map<Text, Bytes>
    var log: LogMeta
    var body: Option<Bytes>
    var seal: Option<Seal>
    var manifest: Option<Manifest>
    var signed: map<Text, Bytes>
    var sessions: map<nat, Session>
    var owner: Option<Owner>
    ghost var accepted: Option<seq<Entry>>

    ghost function View(): Job
      reads this
    {
      Job(up, artifacts, files, log, body, seal, manifest, signed, sessions, owner, accepted)
    }

    constructor (config: Config)
      ensures this.config == config
      ensures View() == Job(false, map[], map[], Open, None, None, None, map[], map[], None, None)
    {
      this.config, up, artifacts, files, log, body := config, false, map[], map[], Open, None;
      seal, manifest, signed, sessions, owner, accepted := None, None, map[], map[], None, None;
    }

    method Halt()
      modifies this
      ensures View() == Halted(old(View()))
    {
      up, sessions, owner := false, map[], None;
    }

    /** Replaces one metadata file. */
    method Persist(id: Text, a: Artifact) returns (o: Outcome)
      modifies this
      ensures WriteStep(old(View()), id, a, o, View())
    {
      o := *;
      if o == Error { return; }
      var written: bool := *;
      if o == Done || written { artifacts := artifacts[id := a]; }
      if o == Crash { Halt(); }
    }

    // ----- uploads -----

    /** Looks for the artifact with an idempotency key. */
    method FindKey(key: Text) returns (unique: bool, known: Option<Text>)
      ensures unique ==> Holds(View(), key, known)
      ensures !unique ==> Duplicated(artifacts, key)
    {
      var rest := artifacts.Keys;
      known := None;
      while rest != {}
        invariant rest <= artifacts.Keys
        invariant known.Some? ==> known.value in artifacts.Keys - rest && artifacts[known.value].key == key
        invariant forall id :: id in artifacts.Keys - rest && artifacts[id].key == key ==> known == Some(id)
        decreases |rest|
      {
        var id :| id in rest;
        rest := rest - {id};
        if artifacts[id].key == key {
          if known.Some? {
            assert known.value != id;
            return false, None;
          }
          known := Some(id);
        }
      }
      return true, known;
    }

    method HasConflict(own: Option<Text>, path: Text) returns (found: bool)
      ensures found <==> Conflict(View(), own, path)
    {
      var rest := artifacts.Keys;
      while rest != {}
        invariant rest <= artifacts.Keys
        invariant forall id :: id in artifacts.Keys - rest && Some(id) != own ==>
          !(Live(artifacts[id]) && artifacts[id].meta.path == path)
        decreases |rest|
      {
        var id :| id in rest;
        rest := rest - {id};
        if Some(id) != own && Live(artifacts[id]) && artifacts[id].meta.path == path { return true; }
      }
      return false;
    }

    /** Starts an upload request, or answers it from what is already there. Whether the quota is used
        up is given. */
    method BeginUpload(s: nat, key: Text, m: Metadata, full: bool, id: Text)
      returns (d: Decision, unique: bool, known: Option<Text>, o: Outcome)
      requires up && key != [] && s !in sessions && id !in artifacts && 0 !in id
      modifies this
      ensures unique ==> Holds(old(View()), key, known) && d == BeginDecision(old(View()), key, m, known, full)
      ensures unique ==> BeginStep(old(View()), s, key, m, known, full, id, o, View())
      ensures unique && o == Done ==> Began(old(View()), s, key, m, known, id, d, View())
      ensures !unique ==> View() == old(View()) && d.Refuse?
      ensures !unique ==> 0 in m.path || Reserved(m.path) || Duplicated(artifacts, key)
    {
      known, o := None, Done;
      if 0 in m.path { return Refuse("invalid relative path"), false, known, o; }
      if Reserved(m.path) { return Refuse("reserved path"), false, known, o; }
      unique, known := FindKey(key);
      if !unique { return Refuse("duplicate idempotency key"), false, known, o; }
      if manifest.Some? || seal.Some? {
        if known.Some? && artifacts[known.value].meta == m && artifacts[known.value].state.Completed? && Verified(files, m) {
          return Replay(known.value), true, known, o;
        }
        if manifest.Some? { return Refuse("ManifestAlreadyCompleted"), true, known, o; }
        return Refuse("ManifestSealing"), true, known, o;
      }
      d, o := BeginOpen(s, key, m, known, full, id);
    }

    /** The rest, for a job that is not sealed. */
    method BeginOpen(s: nat, key: Text, m: Metadata, known: Option<Text>, full: bool, id: Text)
      returns (d: Decision, o: Outcome)
      requires up && !Sealed(View()) && s !in sessions && id !in artifacts && Holds(View(), key, known)
      modifies this
      ensures d == OpenDecision(old(View()), m, known, full)
      ensures match d
        case Repair(k) => WriteStep(old(View()), k, old(artifacts)[k].(state := Completed), o, View())
        case Restart(k) => StartStep(old(View()), s, k, old(artifacts)[k].(state := Pending), o, View())
        case Create => StartStep(old(View()), s, id, Artifact(key, m, Pending), o, View())
        case _ => View() == old(View())
      ensures o == Done ==> Began(old(View()), s, key, m, known, id, d, View())
    {
      o := Done;
      if known.Some? {
        var earlier := artifacts[known.value];
        if earlier.meta != m { return Refuse("IdempotencyConflict"), o; }
        if Verified(files, earlier.meta) {
          o := Persist(known.value, earlier.(state := Completed));
          return Repair(known.value), o;
        }
        if earlier.state.Pending? { return Refuse("UploadInProgress"), o; }
        var taken := HasConflict(known, m.path);
        if taken { return Refuse("ArtifactPathConflict"), o; }
        o := Launch(s, known.value, earlier.(state := Pending));
        return Restart(known.value), o;
      }
      var taken := HasConflict(None, m.path);
      if taken { return Refuse("ArtifactPathConflict"), o; }
      if full { return Refuse("JobQuotaExceeded"), o; }
      o := Launch(s, id, Artifact(key, m, Pending));
      return Create, o;
    }

    method Launch(s: nat, id: Text, a: Artifact) returns (o: Outcome)
      modifies this
      ensures StartStep(old(View()), s, id, a, o, View())
    {
      o := Persist(id, a);
      if o == Done { sessions := sessions[s := Session(id, a, Copying)]; }
    }

    method CompleteUpload(s: nat, content: Bytes) returns (o: Outcome)
      requires up && s in sessions && sessions[s].stage.Copying?
      requires var m := sessions[s].artifact.meta; Matches(content, m.size, m.sum)
      modifies this
      ensures CompleteStep(old(View()), s, content, o, View())
      ensures Sealed(old(View())) ==> o == Error
      ensures var x := old(sessions)[s];
        (o == Done ==>
          sessions == old(sessions) - {s} && files == old(files)[x.artifact.meta.path := content] &&
          artifacts == old(artifacts)[x.id := x.artifact.(state := Completed)]) &&
        (o == Error ==>
          sessions == old(sessions)[s := x.(stage := Refused)] && artifacts == old(artifacts) &&
          (files == old(files) || files == old(files)[x.artifact.meta.path := content]))
    {
      var x := sessions[s];
      if manifest.Some? || seal.Some? {
        sessions := sessions[s := x.(stage := Refused)];
        return Error;
      }
      o := *;   // the rename
      var renamed: bool := *;
      if o == Done || (o == Crash && renamed) { files := files[x.artifact.meta.path := content]; }
      if o == Error { sessions := sessions[s := x.(stage := Refused)]; }
      if o == Crash { Halt(); }
      if o != Done { return; }
      o := Persist(x.id, x.artifact.(state := Completed));
      if o == Done { sessions := sessions - {s}; }
      if o == Error { sessions := sessions[s := x.(stage := Refused)]; }
    }

    method UploadCommitted(s: nat) returns (there: bool)
      requires up && s in sessions && sessions[s].stage.Refused?
      modifies this`sessions
      ensures CommittedStep(old(View()), s, View())
      ensures there <==> Verified(files, old(sessions)[s].artifact.meta)
      ensures there ==> sessions == old(sessions) - {s}
      ensures !there ==> sessions == old(sessions)[s := old(sessions)[s].(stage := Failing)]
    {
      var x := sessions[s];
      there := Verified(files, x.artifact.meta);
      sessions := if there then sessions - {s} else sessions[s := x.(stage := Failing)];
    }

    method FailUpload(s: nat) returns (o: Outcome)
      requires up && s in sessions && !sessions[s].stage.Refused?
      modifies this
      ensures FailStep(old(View()), s, o, View())
      ensures o != Crash ==> sessions == old(sessions) - {s} && files == old(files)
      ensures o == Done ==>
        artifacts == old(artifacts)[old(sessions)[s].id := old(sessions)[s].artifact.(state := Failed)]
      ensures o == Error ==> artifacts == old(artifacts)
    {
      var x := sessions[s];
      o := Persist(x.id, x.artifact.(state := Failed));
      if o != Crash { sessions := sessions - {s}; }
    }

    // ----- the log artifact -----

    method CompletedLogExists() returns (found: bool)
      ensures found <==> exists k :: k in artifacts && artifacts[k].meta.path == LOG_PATH && artifacts[k].state.Completed?
    {
      var rest := artifacts.Keys;
      while rest != {}
        invariant rest <= artifacts.Keys
        invariant forall k :: k in artifacts.Keys - rest ==>
          !(artifacts[k].meta.path == LOG_PATH && artifacts[k].state.Completed?)
        decreases |rest|
      {
        var k :| k in rest;
        rest := rest - {k};
        if artifacts[k].meta.path == LOG_PATH && artifacts[k].state.Completed? { return true; }
      }
      return false;
    }

    /** The file operations of completing an open log whose content the request describes. */
    method CompleteLog(id: Text) returns (refused: bool, o: Outcome, ghost stage: nat)
      requires up && log.Open? && id !in artifacts && 0 !in id
      modifies this
      ensures refused ==> View() == old(View())
      ensures refused <==>
        old(Sealed(View())) ||
        exists k :: k in old(artifacts) && old(artifacts)[k].meta.path == LOG_PATH && old(artifacts)[k].state.Completed?
      ensures !refused ==> LogCompleteStep(old(View()), id, stage, o, View())
    {
      o, stage := Error, 0;
      if manifest.Some? || seal.Some? { return true, o, 0; }
      var found := CompletedLogExists();
      if found { return true, o, 0; }
      o, stage := FinalizeLog(id);
      return false, o, stage;
    }

    /** Records the pending artifact, then the log's new state, then moves the body into place. */
    method FinalizeLog(id: Text) returns (o: Outcome, ghost stage: nat)
      requires up && log.Open?
      modifies this
      ensures match o
        case Done => View() == LogCompleting(old(View()), id, 5)
        case Error => stage < 5 && View() == LogCompleting(old(View()), id, stage)
        case Crash => View() == Halted(LogCompleting(old(View()), id, stage))
    {
      stage := 0;
      ghost var j := View();
      var content := if body.Some? then body.value else [];
      body := Some(content);
      o := Operation();
      if o != Done { return; }
      artifacts, stage := artifacts[id := LogArtifact(content, Pending)], 1;
      o := Operation();
      if o != Done { return; }
      log, stage := Finalizing(id), 2;
      o := Operation();
      if o != Done { return; }
      files, body, stage := files[LOG_PATH := content], None, 3;
      assert View() == LogCompleting(j, id, 3);
      o, stage := RecordLog(id, content, j);
    }

    /** Then records the artifact and the log as completed. */
    method RecordLog(id: Text, content: Bytes, ghost j: Job) returns (o: Outcome, ghost stage: nat)
      requires up && j.log.Open? && View() == LogCompleting(j, id, 3)
      requires content == if j.body.Some? then j.body.value else []
      modifies this
      ensures match o
        case Done => View() == LogCompleting(j, id, 5)
        case Error => stage < 5 && View() == LogCompleting(j, id, stage)
        case Crash => View() == Halted(LogCompleting(j, id, stage))
    {
      stage := 3;
      o := Operation();
      if o != Done { return; }
      assert artifacts[id := LogArtifact(content, Completed)] == j.artifacts[id := LogArtifact(content, Completed)];
      artifacts, stage := artifacts[id := LogArtifact(content, Completed)], 4;
      o := Operation();
      if o != Done { return; }
      log, stage := Finished(id), 5;
    }

    /** Whether the next file operation succeeds; the process may stop before it. */
    method Operation() returns (o: Outcome)
      modifies this`up, this`sessions, this`owner
      ensures View() == if o == Crash then Halted(old(View())) else old(View())
    {
      o := *;
      if o == Crash { up, sessions, owner := false, map[], None; }
    }

    method RecoverLog() returns (o: Outcome)
      modifies this
      ensures LogRecoverStep(old(View()), o, View())
    {
      o := Done;
      match log
      case Finalizing(id) =>
        if id in artifacts && Verified(files, artifacts[id].meta) {
          o := Persist(id, artifacts[id].(state := Completed));
          if o != Done { return; }
          o := Operation();
          if o == Done { log := Finished(id); }
        } else if body.Some? {
          o := Operation();
          if o == Done { log := Open; }
        }
      case Finished(id) =>
        if !(id in artifacts && Verified(files, artifacts[id].meta)) {
          o := Operation();
          if o == Done { log := Broken; }
        }
      case _ =>
    }

    // ----- start-up -----

    /** Completes or fails one upload that an earlier process left pending. */
    method RecoverArtifact(id: Text) returns (o: Outcome)
      requires !up && id in artifacts && artifacts[id].key != [] && artifacts[id].state.Pending?
      modifies this
      ensures RecoverStep(old(View()), id, o, View())
    {
      var a := artifacts[id];
      if Verified(files, a.meta) {
        o := Persist(id, a.(state := Completed));
        return;
      }
      var renamed: bool := *;
      if a.meta.path in files && renamed { files := files - {a.meta.path}; }
      o := Persist(id, a.(state := Failed));
    }

    method RecoverIfPending(id: Text, ghost before: seq<Job>, ghost done: seq<Step>)
        returns (ok: bool, ghost trace: seq<Job>, ghost steps: seq<Step>)
      requires !up && id in artifacts && Path(config, before, done) && before[|done|] == View()
      requires Recoveries(done)
      modifies this
      ensures Loading(old(artifacts), artifacts) && !up && log == old(log) && (ok ==> Settled(artifacts, {id}))
      ensures Path(config, trace, steps) && trace[|steps|] == View() && trace[0] == before[0]
      ensures !ok ==> CutShort(steps)
      ensures Recoveries(steps)
      ensures seal == old(seal) && manifest == old(manifest) && signed == old(signed) && accepted == old(accepted)
    {
      if artifacts[id].key == [] || !artifacts[id].state.Pending? { return true, before, done; }
      ghost var j := View();
      var o := RecoverArtifact(id);
      PathContinues(config, before, done, Recover(id, o), View());
      RecoverLoads(j, id, o, View());
      return o == Done, before + [View()], done + [Recover(id, o)];
    }

    /** A start walks the artifacts and then the log; the store is up only when all could be recovered. */
    method Load() returns (ok: bool, ghost trace: seq<Job>, ghost steps: seq<Step>)
      requires !up
      modifies this
      ensures Path(config, trace, steps) && trace[0] == old(View()) && trace[|steps|] == View()
      ensures forall i :: 0 <= i < |steps| ==> steps[i].Recover? || steps[i].RecoverLog? || steps[i].Boot?
      ensures !ok ==> CutShort(steps)
      ensures up == ok && (ok ==> |steps| >= 2 && steps[|steps| - 2] == Step.RecoverLog(Done))
      ensures ok ==> Settled(artifacts, artifacts.Keys) && log == LogRecovered(trace[|steps| - 2]).log
      ensures Starting(old(log), old(artifacts), artifacts)
      ensures seal == old(seal) && manifest == old(manifest) && signed == old(signed) && accepted == old(accepted)
    {
      ok, trace, steps := LoadArtifacts();
      if !ok { return; }
      ghost var j := View();
      var o := RecoverLog();
      LogStarts(j, o, View(), old(artifacts));
      PathContinues(config, trace, steps, Step.RecoverLog(o), View());
      trace, steps := trace + [View()], steps + [Step.RecoverLog(o)];
      if o != Done { return false, trace, steps; }
      SettledWithLog(j);
      up := true;
      PathContinues(config, trace, steps, Boot, View());
      trace, steps := trace + [View()], steps + [Boot];
      return true, trace, steps;
    }

    /** Recovers every upload that is pending. */
    method LoadArtifacts() returns (ok: bool, ghost trace: seq<Job>, ghost steps: seq<Step>)
      requires !up
      modifies this
      ensures Path(config, trace, steps) && trace[0] == old(View()) && trace[|steps|] == View() && !up
      ensures Recoveries(steps)
      ensures ok ==> Settled(artifacts, artifacts.Keys)
      ensures !ok ==> CutShort(steps)
      ensures Loading(old(artifacts), artifacts) && log == old(log)
      ensures seal == old(seal) && manifest == old(manifest) && signed == old(signed) && accepted == old(accepted)
    {
      trace, steps := [View()], [];
      var rest := artifacts.Keys;
      while rest != {}
        invariant !up && rest <= artifacts.Keys && log == old(log)
        invariant seal == old(seal) && manifest == old(manifest) && signed == old(signed) && accepted == old(accepted)
        invariant Path(config, trace, steps) && trace[0] == old(View()) && trace[|steps|] == View()
        invariant Recoveries(steps)
        invariant Loading(old(artifacts), artifacts) && Settled(artifacts, artifacts.Keys - rest)
        decreases |rest|
      {
        var id :| id in rest;
        rest := rest - {id};
        ghost var before := artifacts;
        ok, trace, steps := RecoverIfPending(id, trace, steps);
        LoadingContinues(old(artifacts), before, artifacts, artifacts.Keys - rest - {id}, id);
        if !ok { return; }
        assert artifacts.Keys - rest == artifacts.Keys - rest - {id} + {id};
      }
      return true, trace, steps;
    }

    // ----- sealing -----

    method AnyPending() returns (found: bool)
      ensures found <==> !NoPending(artifacts)
    {
      var rest := artifacts.Keys;
      while rest != {}
        invariant rest <= artifacts.Keys
        invariant forall id :: id in artifacts.Keys - rest ==> !artifacts[id].state.Pending?
        decreases |rest|
      {
        var id :| id in rest;
        rest := rest - {id};
        if artifacts[id].state.Pending? { return true; }
      }
      return false;
    }

    /** Checks the requested list against the upload receipts. */
    method ValidateSealInput(list: seq<Entry>) returns (code: string, sources: seq<Artifact>)
      ensures code == "" <==> NoPending(artifacts) && ListSound(artifacts, list)
      ensures code == "" ==> sources == Sources(artifacts, list)
      ensures code == "ManifestInProgress" ==> !NoPending(artifacts)
      ensures code == "ArtifactMismatch" ==> exists i :: 0 <= i < |list| && !EntrySound(artifacts, list[i])
    {
      sources := [];
      if |list| == 0 { return "invalid manifest", sources; }
      var pending := AnyPending();
      if pending { return "ManifestInProgress", sources; }
      var seenPaths, seenIds := {}, {};
      for i := 0 to |list|
        invariant forall k :: 0 <= k < i ==> EntrySound(artifacts, list[k])
        invariant forall k, l :: 0 <= k < l < i ==> list[k].path != list[l].path && list[k].id != list[l].id
        invariant forall p :: p in seenPaths <==> exists k :: 0 <= k < i && list[k].path == p
        invariant forall p :: p in seenIds <==> exists k :: 0 <= k < i && list[k].id == p
        invariant |sources| == i && forall k :: 0 <= k < i ==> sources[k] == artifacts[list[k].id]
      {
        var e := list[i];
        if e.path in seenPaths || e.id in seenIds { return "duplicate manifest entry", sources; }
        seenPaths, seenIds := seenPaths + {e.path}, seenIds + {e.id};
        if !EntrySound(artifacts, e) { return "ArtifactMismatch", sources; }
        sources := sources + [artifacts[e.id]];
      }
      return "", sources;
    }

    /** The first lock section of CompleteManifest. */
    method BeginSeal(runner: Text, requested: seq<Entry>) returns (r: SealReply, o: Outcome)
      requires up
      modifies this
      ensures SealStep(old(View()), config, runner, Sorted(requested), o, View())
      ensures r.Sealing? <==> o == Done && MaySeal(old(View()), config, Sorted(requested)) && owner.Some?
      ensures r.Already? <==> old(manifest).Some? && old(manifest).value.uploadDigest == ManifestDigest(requested)
      ensures r.Already? ==> old(manifest) == Some(r.manifest)
    {
      SortedDigest(requested);
      r, o := BeginSorted(runner, Sorted(requested));
    }

    /** The rest of the section, once the list is sorted by path. */
    method BeginSorted(runner: Text, list: seq<Entry>) returns (r: SealReply, o: Outcome)
      requires up
      modifies this
      ensures SealStep(old(View()), config, runner, list, o, View())
      ensures r.Sealing? <==> o == Done && MaySeal(old(View()), config, list) && owner.Some?
      ensures r.Already? <==> old(manifest).Some? && old(manifest).value.uploadDigest == ManifestDigest(list)
      ensures r.Already? ==> old(manifest) == Some(r.manifest)
    {
      o := Done;
      var digest := DigestManifest(list);
      if manifest.Some? {
        if manifest.value.uploadDigest == digest { return Already(manifest.value), o; }
        return Refusal("ManifestConflict"), o;
      }
      if seal.Some? && seal.value.digest != digest { return Refusal("ManifestConflict"), o; }
      if owner.Some? { return Refusal("ManifestInProgress"), o; }
      var code, sources := ValidateSealInput(list);
      if code != "" { return Refusal(code), o; }
      if seal.None? {
        o := *;
        var written: bool := *;
        if o == Done || (o == Crash && written) {
          seal := Some(Seal(runner, list, digest, config.fingerprint, map[]));
          accepted := Some(list);
        }
        if o == Crash {
          Halt();
          return Stopped, o;
        }
        if o == Error { return Refusal("StorageError"), o; }
      }
      if seal.value.fingerprint != config.fingerprint { return Refusal("SigningConfigurationChanged"), o; }
      owner := Some(Owner(seal.value, sources, seal.value.files, {}));
      return Sealing, o;
    }

    /** The first half of a signing task: links the signed copy into place unless one is there. */
    method PublishSigned(i: nat, content: Bytes) returns (ok: bool)
      requires up && Signing(View(), config, i)
      modifies this`signed
      ensures ok ==> owner.value.record.files[i].id in signed
      ensures ok ==> config.identity(signed[owner.value.record.files[i].id]) ==
                     config.identity(files[owner.value.sources[i].meta.path])
      ensures View() == old(View()) || PublishStep(old(View()), config, i, content, View())
      ensures var e := owner.value.record.files[i];
        var identity := config.identity(files[owner.value.sources[i].meta.path]);
        e.id !in owner.value.record.saved ==>
          (ok <==> identity == config.identity(if e.id in old(signed) then old(signed)[e.id] else content)) &&
          signed == if ok && e.id !in old(signed) then old(signed)[e.id := content] else old(signed)
    {
      var w := owner.value;
      var e := w.record.files[i];
      var identity := config.identity(files[w.sources[i].meta.path]);
      if e.id in w.record.saved {
        var saved := w.record.saved[e.id];
        if e.id !in signed || !Matches(signed[e.id], saved.size, saved.sum) { return false; }
      }
      if e.id in signed { return config.identity(signed[e.id]) == identity; }
      if config.identity(content) != identity { return false; }
      signed := signed[e.id := content];
      return true;
    }

    /** The second half: saves the signed file's entry in the seal record. */
    method RecordSigned(i: nat) returns (ok: bool, o: Outcome)
      requires up && Signing(View(), config, i)
      requires var w := owner.value; var e := w.record.files[i];
        e.id in signed && config.identity(signed[e.id]) == config.identity(files[w.sources[i].meta.path])
      modifies this
      ensures RecordStep(old(View()), config, i, o, View())
      ensures ok ==> o == Done && owner.Some? && i in owner.value.recorded
      ensures var w := old(owner).value;
        var e := w.record.files[i];
        ok <==> o == Done && (e.id in w.record.saved ==> w.record.saved[e.id] == EntryOf(e, old(signed)[e.id]))
      ensures ok ==>
        var e := old(owner).value.record.files[i];
        seal.Some? && e.id in seal.value.saved && seal.value.saved[e.id] == EntryOf(e, old(signed)[e.id])
    {
      var w := owner.value;
      var e := w.record.files[i];
      var prepared := EntryOf(e, signed[e.id]);
      if e.id in w.record.saved && w.record.saved[e.id] != prepared { return false, Done; }
      var record := w.record.(saved := w.record.saved[e.id := prepared]);
      w := w.(record := record, final := w.final[i := prepared]);
      owner := Some(w);
      o := *;
      var written: bool := *;
      if o == Done || (o == Crash && written) { seal := Some(record); }
      if o == Crash { Halt(); }
      ok := o == Done;
      if ok { owner := Some(w.(recorded := w.recorded + {i})); }
    }

    /** Reads back every file that is about to be published. */
    method VerifyFinal() returns (ok: bool)
      requires owner.Some? && |owner.value.final| == |owner.value.record.files| == |owner.value.sources|
      requires forall i :: 0 <= i < |owner.value.final| && Signable(config, owner.value.record.files[i]) ==> i in owner.value.recorded
      ensures ok <==> Prepared(View(), config)
    {
      var w := owner.value;
      for i := 0 to |w.final|
        invariant forall k :: 0 <= k < i ==>
          var e := w.final[k];
          if Signable(config, w.record.files[k]) then e.id in signed && Matches(signed[e.id], e.size, e.sum)
          else w.sources[k].meta.path in files && Matches(files[w.sources[k].meta.path], e.size, e.sum)
      {
        var e := w.final[i];
        if Signable(config, w.record.files[i]) {
          if e.id !in signed || !Matches(signed[e.id], e.size, e.sum) { return false; }
        } else {
          var path := w.sources[i].meta.path;
          if path !in files || !Matches(files[path], e.size, e.sum) { return false; }
        }
      }
      return true;
    }

    /** The last lock section: publishes the manifest and removes the seal record. */
    method FinishSeal(done: bool) returns (published: bool, ghost attempted: bool, ghost removed: bool, o: Outcome)
      requires up && owner.Some? && (done ==> Prepared(View(), config))
      modifies this
      ensures EndStep(old(View()), config, attempted, removed, o, View())
      ensures published ==> done && o == Done && manifest == Published(old(View())).manifest
    {
      var w := owner.value;
      o, attempted, removed := Done, false, false;
      if !done || seal.None? || seal.value.digest != w.record.digest || seal.value.fingerprint != config.fingerprint {
        owner := None;
        return false, attempted, removed, o;
      }
      attempted := true;
      var digest := DigestManifest(w.final);
      o := *;
      var written: bool := *;
      var erased: bool := *;
      if o == Done || (o == Crash && written) {
        manifest := Some(Manifest(w.record.runner, w.final, digest, w.record.digest, w.record.fingerprint));
        if erased { seal := None; }
      }
      removed := erased;
      if o == Crash { Halt(); }
      owner := None;
      published := o == Done;
    }
  }
}
