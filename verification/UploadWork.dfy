/** What the uploads and the sealing of a job get done when nothing stops or fails: how an upload request
    is answered, that failed and interrupted uploads can be sent again, and that a sealing publishes. */
module UploadWork {
  import opened Core
  import opened ManifestText
  import opened Uploads
  import opened UploadSafety

  /** A run with one step more. */
  lemma Longer(c: Config, run: seq<Job>, steps: seq<Step>, step: Step, v: Job)
      returns (longer: seq<Job>, done: seq<Step>)
    requires IsRun(c, run, steps) && Next(c, run[|steps|], step, v)
    ensures IsRun(c, longer, done) && longer == run + [v] && done == steps + [step]
  {
    longer, done := run + [v], steps + [step];
    forall i: nat | i < |done| ensures Steps(c, longer, done, i) {
      if i < |steps| {
        assert Steps(c, run, steps, i);
        assert longer[i] == run[i] && longer[i + 1] == run[i + 1] && done[i] == steps[i];
      }
    }
  }

  // ----- how a request is answered -----

  /** No live artifact has the path. */
  ghost predicate IsFree(j: Job, path: Text) {
    forall id :: !LiveAt(j.artifacts, id, path)
  }

  predicate Acceptable(path: Text) {
    0 !in path && !Reserved(path)
  }

  /** A path that no live artifact has holds no file, and no other artifact is in the way; a path that one
      has is taken by another artifact or by the key's own. */
  lemma PathTaken(artifacts: Artifacts, files: Files, j: Job, known: Option<Text>, path: Text)
    requires j.artifacts == artifacts && j.files == files && ContentSound(artifacts, files) && path != LOG_PATH
    ensures IsFree(j, path) ==> path !in files && !Conflict(j, known, path)
    ensures !IsFree(j, path) && !Conflict(j, known, path) ==> known.Some? && LiveAt(artifacts, known.value, path)
  {
    if IsFree(j, path) && Conflict(j, known, path) {
      var id :| id in j.artifacts && Some(id) != known && Live(j.artifacts[id]) && j.artifacts[id].meta.path == path;
      assert LiveAt(j.artifacts, id, path);
    }
    if !IsFree(j, path) && !Conflict(j, known, path) {
      var id :| LiveAt(j.artifacts, id, path);
      assert Some(id) == known;
    }
  }

  /** The artifact that has the key, as far as an answer depends on it. */
  lemma KnownIsSound(artifacts: Artifacts, files: Files, id: Text)
    requires ContentSound(artifacts, files) && id in artifacts && artifacts[id].meta.path != LOG_PATH
    ensures artifacts[id].state.Completed? ==> Verified(files, artifacts[id].meta)
    ensures Live(artifacts[id]) && artifacts[id].meta.path in files ==> Verified(files, artifacts[id].meta)
    ensures Live(artifacts[id]) ==> LiveAt(artifacts, id, artifacts[id].meta.path)
  {
    assert Live(artifacts[id]) ==> LiveAt(artifacts, id, artifacts[id].meta.path);
  }

  lemma AnswersAreSound(c: Config, run: seq<Job>, steps: seq<Step>, i: nat, known: Option<Text>, path: Text)
    requires IsRun(c, run, steps) && i < |run| && (known.Some? ==> known.value in run[i].artifacts) && Acceptable(path)
    ensures var j := run[i];
      (IsFree(j, path) ==> path !in j.files && !Conflict(j, known, path)) &&
      (!IsFree(j, path) && !Conflict(j, known, path) ==> known.Some? && LiveAt(j.artifacts, known.value, path)) &&
      (known.Some? && j.artifacts[known.value].meta.path == path && Live(j.artifacts[known.value]) ==>
        !IsFree(j, path) &&
        (path in j.files || j.artifacts[known.value].state.Completed? ==> Verified(j.files, j.artifacts[known.value].meta)))
  {
    InvariantHolds(c, run, steps, i);
    var j := run[i];
    PathTaken(j.artifacts, j.files, j, known, path);
    if known.Some? && j.artifacts[known.value].meta.path == path {
      KnownIsSound(j.artifacts, j.files, known.value);
    }
  }

  /** In every reachable state, a request is told to send its content exactly when the job is not sealed, no
      live artifact has the path, and the key is new and there is room, or the key's artifact has failed and
      was declared the same. */
  lemma ToldToSend(
      c: Config, run: seq<Job>, steps: seq<Step>, i: nat, key: Text, m: Metadata, known: Option<Text>, full: bool)
    requires IsRun(c, run, steps) && i < |run| && key != [] && Holds(run[i], key, known)
    ensures var j, d := run[i], BeginDecision(run[i], key, m, known, full);
      (d.Restart? || d.Create? <==>
        Acceptable(m.path) && !Sealed(j) && IsFree(j, m.path) &&
        (if known.Some? then j.artifacts[known.value].state.Failed? && j.artifacts[known.value].meta == m else !full)) &&
      (d.Restart? ==> known == Some(d.id)) && (d.Create? ==> known.None?)
  {
    if Acceptable(m.path) { AnswersAreSound(c, run, steps, i, known, m.path); }
  }

  /** It is told that nothing needs to be sent exactly when the key's artifact was declared the same and its
      content is there, and, once the job is sealed, the artifact is completed. */
  lemma ToldItIsThere(
      c: Config, run: seq<Job>, steps: seq<Step>, i: nat, key: Text, m: Metadata, known: Option<Text>, full: bool)
    requires IsRun(c, run, steps) && i < |run| && key != [] && Holds(run[i], key, known)
    ensures var j, d := run[i], BeginDecision(run[i], key, m, known, full);
      (d.Replay? || d.Repair? <==>
        Acceptable(m.path) && known.Some? && j.artifacts[known.value].meta == m && m.path in j.files &&
        (if Sealed(j) then j.artifacts[known.value].state.Completed?
         else Live(j.artifacts[known.value]) || Matches(j.files[m.path], m.size, m.sum))) &&
      (d.Replay? || d.Repair? ==> known == Some(d.id))
  {
    if Acceptable(m.path) { AnswersAreSound(c, run, steps, i, known, m.path); }
  }

  /** Every refusal of an unsealed job says what stands in the way. */
  lemma RefusalSaysWhy(
      c: Config, run: seq<Job>, steps: seq<Step>, i: nat, key: Text, m: Metadata, known: Option<Text>, full: bool)
    requires IsRun(c, run, steps) && i < |run| && key != [] && Holds(run[i], key, known)
    requires Acceptable(m.path) && !Sealed(run[i])
    ensures var j, d := run[i], BeginDecision(run[i], key, m, known, full);
      (d == Refuse("IdempotencyConflict") <==> known.Some? && j.artifacts[known.value].meta != m) &&
      (d == Refuse("UploadInProgress") <==>
        known.Some? && j.artifacts[known.value].meta == m && j.artifacts[known.value].state.Pending? && m.path !in j.files) &&
      (d == Refuse("ArtifactPathConflict") <==>
        !IsFree(j, m.path) && (known.Some? ==>
          j.artifacts[known.value].meta == m && j.artifacts[known.value].state.Failed? && !Verified(j.files, m))) &&
      (d == Refuse("JobQuotaExceeded") <==> known.None? && IsFree(j, m.path) && full)
  {
    AnswersAreSound(c, run, steps, i, known, m.path);
    CodesDiffer();
  }

  /** The codes are different. */
  lemma CodesDiffer()
    ensures |"IdempotencyConflict"| == 19 && |"UploadInProgress"| == 16
    ensures |"ArtifactPathConflict"| == 20 && |"JobQuotaExceeded"| == 16 && "UploadInProgress" != "JobQuotaExceeded"
  {
    assert "UploadInProgress"[0] != "JobQuotaExceeded"[0];
  }

  // ----- uploads are completed -----

  ghost predicate Within(artifacts: Artifacts, paths: iset<Text>) {
    forall id :: id in artifacts && IsUpload(artifacts[id]) ==> artifacts[id].meta.path in paths
  }

  /** Artifacts that keep their metadata stay within the paths if the new ones are. */
  lemma LastingStaysWithin(j: Artifacts, v: Artifacts, paths: iset<Text>)
    requires Within(j, paths) && Lasts(j, v)
    requires forall id :: id in v && id !in j && IsUpload(v[id]) ==> v[id].meta.path in paths
    ensures Within(v, paths)
  {
  }

  /** A request brings at most the artifact that it was told to create. */
  lemma BeginBrings(
      j: Job, s: nat, key: Text, m: Metadata, known: Option<Text>, full: bool, id: Text, o: Outcome, v: Job)
    requires BeginStep(j, s, key, m, known, full, id, o, v)
    ensures v.artifacts.Keys <= j.artifacts.Keys ||
      (BeginDecision(j, key, m, known, full).Create? && v.artifacts == j.artifacts[id := Artifact(key, m, Pending)])
  {
    match BeginDecision(j, key, m, known, full)
    case Repair(k) => WriteBrings(j, s, k, j.artifacts[k].(state := Completed), o, v);
    case Restart(k) => WriteBrings(j, s, k, j.artifacts[k].(state := Pending), o, v);
    case Create => WriteBrings(j, s, id, Artifact(key, m, Pending), o, v);
    case _ =>
  }

  lemma WriteBrings(j: Job, s: nat, id: Text, a: Artifact, o: Outcome, v: Job)
    requires WriteStep(j, id, a, o, v) || StartStep(j, s, id, a, o, v)
    ensures v.artifacts == j.artifacts || v.artifacts == j.artifacts[id := a]
    ensures id in j.artifacts ==> v.artifacts.Keys <= j.artifacts.Keys
  {
  }

  lemma CreatedIsAcceptable(j: Job, key: Text, m: Metadata, known: Option<Text>, full: bool)
    requires (known.Some? ==> known.value in j.artifacts) && BeginDecision(j, key, m, known, full).Create?
    ensures Acceptable(m.path)
  {
  }

  /** The other steps of the store bring at most the log's artifact. */
  lemma StepBrings(c: Config, j: Job, step: Step, v: Job)
    requires SessionsSound(j.artifacts, j.files, j.sessions) && Next(c, j, step, v) && !step.Begin? && !Seals(step)
    ensures forall id :: id in v.artifacts && id !in j.artifacts ==> !IsUpload(v.artifacts[id])
  {
    match step
    case Complete(s, content, o) => RequestBrings(j, step, v);
    case Fail(s, o) => RequestBrings(j, step, v);
    case Recover(id, o) => RecoverBrings(j, id, o, v);
    case RecoverLog(o) =>
      LogRecoverTouches(j, o, v);
      LogRecoveredTouches(j);
    case CompleteLog(id, stage, o) => LogBrings(j, id, stage);
    case _ =>
  }

  lemma RecoverBrings(j: Job, id: Text, o: Outcome, v: Job)
    requires RecoverStep(j, id, o, v)
    ensures v.artifacts.Keys <= j.artifacts.Keys
  {
  }

  lemma RequestBrings(j: Job, step: Step, v: Job)
    requires SessionsSound(j.artifacts, j.files, j.sessions)
    requires (step.Complete? && CompleteStep(j, step.s, step.content, step.o, v)) ||
             (step.Fail? && FailStep(j, step.s, step.o, v))
    ensures v.artifacts.Keys <= j.artifacts.Keys
  {
    assert AtWork(j.artifacts, j.files, j.sessions[step.s]);
  }

  lemma LogBrings(j: Job, id: Text, stage: nat)
    ensures forall k :: k in LogCompleting(j, id, stage).artifacts && k !in j.artifacts ==>
      !IsUpload(LogCompleting(j, id, stage).artifacts[k])
  {
  }

  lemma StepStaysWithin(c: Config, j: Job, step: Step, v: Job, paths: iset<Text>)
    requires Invariant(c, j) && Next(c, j, step, v) && Within(j.artifacts, paths)
    requires forall path :: Acceptable(path) ==> path in paths
    ensures Within(v.artifacts, paths)
  {
    StepPreserves(c, j, step, v);
    if Seals(step) {
      SealStepLeavesStore(c, j, step, v);
    } else if step.Begin? {
      BeginBrings(j, step.s, step.key, step.meta, step.known, step.full, step.id, step.o, v);
      if BeginDecision(j, step.key, step.meta, step.known, step.full).Create? {
        CreatedIsAcceptable(j, step.key, step.meta, step.known, step.full);
      }
      LastingStaysWithin(j.artifacts, v.artifacts, paths);
    } else {
      StepBrings(c, j, step, v);
      LastingStaysWithin(j.artifacts, v.artifacts, paths);
    }
  }

  lemma {:induction false} UploadsStayWithin(c: Config, run: seq<Job>, steps: seq<Step>, i: nat, paths: iset<Text>)
    requires IsRun(c, run, steps) && i < |run|
    requires forall path :: Acceptable(path) ==> path in paths
    ensures Within(run[i].artifacts, paths)
    decreases i
  {
    if i > 0 {
      UploadsStayWithin(c, run, steps, i - 1, paths);
      InvariantHolds(c, run, steps, i - 1);
      assert Steps(c, run, steps, i - 1);
      StepStaysWithin(c, run[i - 1], steps[i - 1], run[i], paths);
    }
  }

  /** No upload ever has a path that the store keeps for itself. */
  lemma UploadsAreUnreserved(c: Config, run: seq<Job>, steps: seq<Step>, i: nat)
    requires IsRun(c, run, steps) && i < |run|
    ensures forall id :: id in run[i].artifacts && IsUpload(run[i].artifacts[id]) ==> Acceptable(run[i].artifacts[id].meta.path)
  {
    UploadsStayWithin(c, run, steps, i, iset path | Acceptable(path));
  }

  /** The upload is completed with this content, and request s is over. */
  predicate Uploaded(j: Job, s: nat, id: Text, key: Text, m: Metadata, content: Bytes) {
    s !in j.sessions && id in j.artifacts && j.artifacts[id] == Artifact(key, m, Completed) &&
    m.path in j.files && j.files[m.path] == content
  }

  /** From every reachable state, a request that is told to send, and sends what it declared, completes its
      upload. */
  lemma TakenUploadCompletes(
      c: Config, run: seq<Job>, steps: seq<Step>,
      s: nat, key: Text, m: Metadata, known: Option<Text>, full: bool, id: Text, content: Bytes)
      returns (longer: seq<Job>, done: seq<Step>)
    requires IsRun(c, run, steps) && run[|steps|].up && s !in run[|steps|].sessions
    requires key != [] && Holds(run[|steps|], key, known) && id !in run[|steps|].artifacts && 0 !in id
    requires Acceptable(m.path) && !Sealed(run[|steps|]) && IsFree(run[|steps|], m.path)
    requires known.Some? ==> run[|steps|].artifacts[known.value] == Artifact(key, m, Failed)
    requires known.None? ==> !full
    requires Matches(content, m.size, m.sum)
    ensures IsRun(c, longer, done) && run <= longer
    ensures done == steps + [Begin(s, key, m, known, full, id, Done), Complete(s, content, Done)]
    ensures Uploaded(longer[|done|], s, (if known.Some? then known.value else id), key, m, content)
  {
    var j := run[|steps|];
    ToldToSend(c, run, steps, |steps|, key, m, known, full);
    var k := (if known.Some? then known.value else id);
    var a := Artifact(key, m, Pending);
    var u := Wrote(j, k, a).(sessions := j.sessions[s := Session(k, a, Copying)]);
    assert BeginStep(j, s, key, m, known, full, id, Done, u);
    longer, done := Longer(c, run, steps, Begin(s, key, m, known, full, id, Done), u);
    var v := Gone(Wrote(Placed(u, m.path, content), k, a.(state := Completed)), s);
    longer, done := Longer(c, longer, done, Complete(s, content, Done), v);
  }

  /** What is known of a request's artifact. */
  lemma RequestIsSound(c: Config, run: seq<Job>, steps: seq<Step>, i: nat, s: nat)
    requires IsRun(c, run, steps) && i < |run| && s in run[i].sessions
    ensures var j, x := run[i], run[i].sessions[s];
      j.up && x.id in j.artifacts && x.artifact == j.artifacts[x.id].(state := Pending) && IsUpload(x.artifact) &&
      Live(j.artifacts[x.id]) && Acceptable(x.artifact.meta.path) && Holds(j, x.artifact.key, Some(x.id)) &&
      (x.artifact.meta.path in j.files ==> Verified(j.files, x.artifact.meta)) &&
      (x.artifact.meta.path !in j.files ==> j.artifacts[x.id].state.Pending? && !Sealed(j)) &&
      (!x.stage.Refused? ==> x.artifact.meta.path !in j.files)
  {
    InvariantHolds(c, run, steps, i);
    UploadsAreUnreserved(c, run, steps, i);
    assert AtWork(run[i].artifacts, run[i].files, run[i].sessions[s]);
  }

  /** While its content is missing, a pending artifact has its path to itself. */
  lemma FailedIsFree(c: Config, j: Job, id: Text, v: Job)
    requires Invariant(c, j) && id in j.artifacts && Live(j.artifacts[id]) && j.artifacts[id].meta.path !in j.files
    requires j.artifacts[id].meta.path != LOG_PATH && v.artifacts == j.artifacts[id := j.artifacts[id].(state := Failed)]
    ensures IsFree(v, j.artifacts[id].meta.path)
  {
    var path := j.artifacts[id].meta.path;
    assert LiveAt(j.artifacts, id, path);
    forall k ensures !LiveAt(v.artifacts, k, path) {
      if LiveAt(v.artifacts, k, path) { assert LiveAt(j.artifacts, k, path); }
    }
  }

  /** A request at work may report a failure; then its artifact has failed and its path is free. */
  lemma FailureIsRecorded(c: Config, run: seq<Job>, steps: seq<Step>, s: nat)
      returns (longer: seq<Job>, done: seq<Step>)
    requires IsRun(c, run, steps) && s in run[|steps|].sessions && !run[|steps|].sessions[s].stage.Refused?
    ensures IsRun(c, longer, done) && longer == run + [longer[|done|]] && done == steps + [Fail(s, Done)]
    ensures var j, v := run[|steps|], longer[|done|];
      var x := j.sessions[s];
      v == j.(artifacts := j.artifacts[x.id := x.artifact.(state := Failed)], sessions := j.sessions - {s}) &&
      v.up && !Sealed(v) && IsFree(v, x.artifact.meta.path) && Acceptable(x.artifact.meta.path) &&
      Holds(v, x.artifact.key, Some(x.id)) && x.artifact.key != [] && x.id in j.artifacts
  {
    var j := run[|steps|];
    var x := j.sessions[s];
    RequestIsSound(c, run, steps, |steps|, s);
    InvariantHolds(c, run, steps, |steps|);
    var v := Gone(Wrote(j, x.id, x.artifact.(state := Failed)), s);
    longer, done := Longer(c, run, steps, Fail(s, Done), v);
    FailedIsFree(c, j, x.id, v);
  }

  /** From every reachable state, an upload whose request reports a failure can be sent again with the same
      key and metadata, and then completes. */
  lemma FailedUploadIsRetried(
      c: Config, run: seq<Job>, steps: seq<Step>, s: nat, t: nat, full: bool, id: Text, content: Bytes)
      returns (longer: seq<Job>, done: seq<Step>)
    requires IsRun(c, run, steps) && s in run[|steps|].sessions && !run[|steps|].sessions[s].stage.Refused?
    requires t !in run[|steps|].sessions && id !in run[|steps|].artifacts && 0 !in id
    requires var m := run[|steps|].sessions[s].artifact.meta; Matches(content, m.size, m.sum)
    ensures IsRun(c, longer, done) && run <= longer
    ensures var x := run[|steps|].sessions[s];
      done == steps + [Fail(s, Done), Begin(t, x.artifact.key, x.artifact.meta, Some(x.id), full, id, Done), Complete(t, content, Done)] &&
      Uploaded(longer[|done|], t, x.id, x.artifact.key, x.artifact.meta, content)
  {
    var x := run[|steps|].sessions[s];
    longer, done := FailureIsRecorded(c, run, steps, s);
    longer, done := TakenUploadCompletes(
      c, longer, done, t, x.artifact.key, x.artifact.meta, Some(x.id), full, id, content);
  }

  /** From every reachable state, a request that was told that completing failed, though its content is in
      place, is over when it asks; and when it is sent again, nothing has to be sent and the artifact is
      completed. */
  lemma StrandedContentIsFound(
      c: Config, run: seq<Job>, steps: seq<Step>, s: nat, t: nat, full: bool, id: Text)
      returns (longer: seq<Job>, done: seq<Step>)
    requires IsRun(c, run, steps) && s in run[|steps|].sessions && run[|steps|].sessions[s].stage.Refused?
    requires run[|steps|].sessions[s].artifact.meta.path in run[|steps|].files
    requires t !in run[|steps|].sessions && id !in run[|steps|].artifacts && 0 !in id
    ensures IsRun(c, longer, done) && run <= longer
    ensures var j, x := run[|steps|], run[|steps|].sessions[s];
      done == steps + [AskCommitted(s), Begin(t, x.artifact.key, x.artifact.meta, Some(x.id), full, id, Done)] &&
      var v := longer[|done|];
      v.sessions == j.sessions - {s} && v.files == j.files &&
      v.artifacts == j.artifacts[x.id := x.artifact.(state := Completed)] && Verified(v.files, x.artifact.meta)
  {
    var j := run[|steps|];
    var x := j.sessions[s];
    RequestIsSound(c, run, steps, |steps|, s);
    longer, done := Longer(c, run, steps, AskCommitted(s), Gone(j, s));
    longer, done := ThereIsAnswered(c, longer, done, t, x.artifact.key, x.artifact.meta, x.id, full, id);
  }

  /** A request for content that is in place is answered without sending, and completes the artifact. */
  lemma ThereIsAnswered(
      c: Config, run: seq<Job>, steps: seq<Step>,
      t: nat, key: Text, m: Metadata, k: Text, full: bool, id: Text)
      returns (longer: seq<Job>, done: seq<Step>)
    requires IsRun(c, run, steps) && run[|steps|].up && t !in run[|steps|].sessions
    requires key != [] && Holds(run[|steps|], key, Some(k)) && id !in run[|steps|].artifacts && 0 !in id
    requires Acceptable(m.path) && Verified(run[|steps|].files, m)
    requires run[|steps|].artifacts[k].meta == m && Live(run[|steps|].artifacts[k])
    ensures IsRun(c, longer, done) && longer == run + [longer[|done|]]
    ensures done == steps + [Begin(t, key, m, Some(k), full, id, Done)]
    ensures longer[|done|] == Wrote(run[|steps|], k, Artifact(key, m, Completed))
  {
    var j := run[|steps|];
    if Sealed(j) {
      InvariantHolds(c, run, steps, |steps|);
      SealedHasList(c, j);
      assert j.artifacts[k] == Artifact(key, m, Completed);
    }
    ThereIsStep(j, t, key, m, k, full, id);
    longer, done := Longer(c, run, steps, Begin(t, key, m, Some(k), full, id, Done), Wrote(j, k, Artifact(key, m, Completed)));
  }

  lemma ThereIsStep(j: Job, t: nat, key: Text, m: Metadata, k: Text, full: bool, id: Text)
    requires t !in j.sessions && key != [] && Holds(j, key, Some(k)) && id !in j.artifacts && 0 !in id
    requires Acceptable(m.path) && Verified(j.files, m) && j.artifacts[k].meta == m
    requires Sealed(j) ==> j.artifacts[k].state.Completed?
    ensures BeginStep(j, t, key, m, Some(k), full, id, Done, Wrote(j, k, Artifact(key, m, Completed)))
  {
    var v := Wrote(j, k, Artifact(key, m, Completed));
    if Sealed(j) {
      assert j.artifacts[k] == Artifact(key, m, Completed);
      assert v.artifacts == j.artifacts;
    }
  }

  // ----- starts -----

  function PendingUploads(artifacts: Artifacts): set<Text> {
    set id | id in artifacts && IsUpload(artifacts[id]) && artifacts[id].state.Pending?
  }

  /** A start completes the pending uploads whose content is in place, fails the others, and changes nothing
      else. */
  predicate StartedFrom(j: Job, v: Job) {
    v.files == j.files && v.artifacts.Keys == j.artifacts.Keys &&
    forall id :: id in j.artifacts ==>
      v.artifacts[id] ==
        if !IsUpload(j.artifacts[id]) || !j.artifacts[id].state.Pending? then j.artifacts[id]
        else j.artifacts[id].(state := if Verified(j.files, j.artifacts[id].meta) then Completed else Failed)
  }

  /** From every reachable state of a stopped process, recovering its pending uploads one by one brings the
      store up. */
  lemma {:induction false} StartComesUp(c: Config, run: seq<Job>, steps: seq<Step>)
      returns (longer: seq<Job>, done: seq<Step>)
    requires IsRun(c, run, steps) && !run[|steps|].up
    ensures IsRun(c, longer, done) && run <= longer && steps <= done
    ensures longer[|done|].up && StartedFrom(run[|steps|], longer[|done|])
    decreases |PendingUploads(run[|steps|].artifacts)|
  {
    var j := run[|steps|];
    var pending := PendingUploads(j.artifacts);
    if pending == {} {
      assert forall id :: id in j.artifacts && j.artifacts[id].key != [] && j.artifacts[id].state.Pending? ==> id in pending;
      longer, done := Longer(c, run, steps, Boot, j.(up := true));
    } else {
      var id :| id in pending;
      var a := j.artifacts[id].(state := if Verified(j.files, j.artifacts[id].meta) then Completed else Failed);
      longer, done := Longer(c, run, steps, Recover(id, Done), Wrote(j, id, a));
      assert PendingUploads(Wrote(j, id, a).artifacts) == pending - {id};
      longer, done := StartComesUp(c, longer, done);
    }
  }

  // ----- sealing -----

  /** The copies that the signing tasks make, one for each file of the list: of a package, a copy that rpm
      reports as the uploaded package. */
  predicate GoodCopies(c: Config, files: Files, list: seq<Entry>, copies: seq<Bytes>) {
    |copies| == |list| &&
    forall i :: 0 <= i < |list| && Signable(c, list[i]) ==>
      list[i].path in files && c.identity(files[list[i].path]).Some? &&
      c.identity(copies[i]) == c.identity(files[list[i].path])
  }

  /** The sealing request has had the packages among its first n files signed. */
  ghost predicate SignedUpTo(c: Config, j: Job, runner: Text, list: seq<Entry>, n: nat) {
    j.owner.Some? && j.owner.value.record.files == list && j.owner.value.record.runner == runner && n <= |list| &&
    forall i: nat :: i < n && Signable(c, list[i]) ==> i in j.owner.value.recorded
  }

  /** The uploads of the list are intact. */
  lemma ListedIsIntact(c: Config, j: Job, i: nat)
    requires Invariant(c, j) && j.owner.Some? && i < |j.owner.value.record.files|
    ensures var w := j.owner.value;
      i < |w.sources| && i < |w.final| && w.sources[i].meta.path == w.record.files[i].path &&
      w.sources[i].meta.path in j.files &&
      Matches(j.files[w.sources[i].meta.path], w.record.files[i].size, w.record.files[i].sum)
  {
    assert EntrySound(j.artifacts, j.accepted.value[i]);
  }

  /** An entry that is saved is this file's, with its signed file there. */
  lemma SavedIsThis(c: Config, j: Job, i: nat)
    requires OwnerSound(c, j) && j.owner.Some? && i < |j.owner.value.record.files|
    requires forall k, l :: 0 <= k < l < |j.owner.value.record.files| ==>
      j.owner.value.record.files[k].id != j.owner.value.record.files[l].id
    ensures var w := j.owner.value;
      var e := w.record.files[i];
      e.id in w.record.saved ==> e.id in j.signed && w.record.saved[e.id] == EntryOf(e, j.signed[e.id])
  {
    var w := j.owner.value;
    var e := w.record.files[i];
    if e.id in w.record.saved { assert SavedAt(c, w.record.files, j.signed, e.id, w.record.saved[e.id]); }
  }

  /** A signed file that is there is this package's. */
  lemma SignedIsThis(c: Config, j: Job, list: seq<Entry>, i: nat)
    requires SealSound(c, j) && j.accepted == Some(list) && i < |list|
    ensures list[i].id in j.signed ==>
      list[i].path in j.files && c.identity(j.signed[list[i].id]) == c.identity(j.files[list[i].path])
  {
    if list[i].id in j.signed { assert SignedAt(c, j.files, list, list[i].id, j.signed[list[i].id]); }
  }

  /** One signing task: it publishes its copy, unless one is there, and records it. */
  lemma TaskCompletes(c: Config, run: seq<Job>, steps: seq<Step>, i: nat, content: Bytes)
      returns (longer: seq<Job>, done: seq<Step>)
    requires IsRun(c, run, steps) && run[|steps|].owner.Some? && i < |run[|steps|].owner.value.record.files|
    requires var e := run[|steps|].owner.value.record.files[i];
      Signable(c, e) && e.path in run[|steps|].files && c.identity(run[|steps|].files[e.path]).Some? &&
      c.identity(content) == c.identity(run[|steps|].files[e.path])
    ensures IsRun(c, longer, done) && run <= longer && steps <= done && HasRecorded(run[|steps|], i, longer[|done|])
  {
    var j := run[|steps|];
    var e := j.owner.value.record.files[i];
    TaskMayRun(c, run, steps, i);
    longer, done := run, steps;
    if e.id !in j.signed {
      longer, done := Longer(c, longer, done, Publish(i, content), j.(signed := j.signed[e.id := content]));
    }
    longer, done := TaskRecords(c, longer, done, i);
  }

  /** Task i is recorded; the list, the artifacts and their files are as before. */
  predicate HasRecorded(j: Job, i: nat, v: Job) {
    j.owner.Some? && v.owner.Some? && v.artifacts == j.artifacts && v.files == j.files &&
    v.owner.value.record.files == j.owner.value.record.files && v.owner.value.record.runner == j.owner.value.record.runner &&
    v.owner.value.recorded == j.owner.value.recorded + {i}
  }

  lemma TaskMayRun(c: Config, run: seq<Job>, steps: seq<Step>, i: nat)
    requires IsRun(c, run, steps) && run[|steps|].owner.Some? && i < |run[|steps|].owner.value.record.files|
    requires var e := run[|steps|].owner.value.record.files[i];
      Signable(c, e) && e.path in run[|steps|].files && c.identity(run[|steps|].files[e.path]).Some?
    ensures var j := run[|steps|];
      var w := j.owner.value;
      var e := w.record.files[i];
      j.up && Signing(j, c, i) && w.sources[i].meta.path == e.path &&
      (e.id in w.record.saved ==> e.id in j.signed && w.record.saved[e.id] == EntryOf(e, j.signed[e.id])) &&
      (e.id in j.signed ==> c.identity(j.signed[e.id]) == c.identity(j.files[e.path]))
  {
    InvariantHolds(c, run, steps, |steps|);
    ListedIsIntact(c, run[|steps|], i);
    SavedIsThis(c, run[|steps|], i);
    SignedIsThis(c, run[|steps|], run[|steps|].owner.value.record.files, i);
  }

  lemma TaskRecords(c: Config, run: seq<Job>, steps: seq<Step>, i: nat)
      returns (longer: seq<Job>, done: seq<Step>)
    requires IsRun(c, run, steps) && Signing(run[|steps|], c, i)
    requires run[|steps|].owner.value.record.files[i].id in run[|steps|].signed
    requires run[|steps|].owner.value.sources[i].meta.path == run[|steps|].owner.value.record.files[i].path
    ensures IsRun(c, longer, done) && run <= longer && steps <= done && HasRecorded(run[|steps|], i, longer[|done|])
  {
    var j := run[|steps|];
    TaskMayRun(c, run, steps, i);
    var v := Recorded(j, i);
    assert RecordStep(j, c, i, Done, v);
    longer, done := Longer(c, run, steps, Record(i, Done), v);
  }

  /** The job after task i has saved its entry. */
  function Recorded(j: Job, i: nat): Job
    requires j.owner.Some? && i < |j.owner.value.record.files| && i < |j.owner.value.final|
    requires j.owner.value.record.files[i].id in j.signed
  {
    var w := j.owner.value;
    var e := w.record.files[i];
    var record := w.record.(saved := w.record.saved[e.id := EntryOf(e, j.signed[e.id])]);
    j.(seal := Some(record),
       owner := Some(w.(record := record, final := w.final[i := EntryOf(e, j.signed[e.id])], recorded := w.recorded + {i})))
  }

  /** The tasks of all packages, one after the other. */
  lemma {:induction false} TasksComplete(
      c: Config, run: seq<Job>, steps: seq<Step>, runner: Text, list: seq<Entry>, copies: seq<Bytes>, n: nat)
      returns (longer: seq<Job>, done: seq<Step>)
    requires IsRun(c, run, steps) && SignedUpTo(c, run[|steps|], runner, list, n)
    requires GoodCopies(c, run[|steps|].files, list, copies)
    ensures IsRun(c, longer, done) && run <= longer && steps <= done
    ensures SignedUpTo(c, longer[|done|], runner, list, |list|)
    decreases |list| - n
  {
    longer, done := run, steps;
    if n < |list| {
      if Signable(c, list[n]) { longer, done := TaskCompletes(c, longer, done, n, copies[n]); }
      longer, done := TasksComplete(c, longer, done, runner, list, copies, n + 1);
    }
  }

  /** When every package has been signed, every file to be published reads back. */
  lemma SignedIsPrepared(c: Config, j: Job)
    requires Invariant(c, j) && j.owner.Some?
    requires forall i: nat :: i < |j.owner.value.record.files| && Signable(c, j.owner.value.record.files[i]) ==>
      i in j.owner.value.recorded
    ensures Prepared(j, c)
  {
    var w := j.owner.value;
    forall i: nat | i < |w.final|
      ensures var e := w.final[i];
        if Signable(c, w.record.files[i]) then e.id in j.signed && Matches(j.signed[e.id], e.size, e.sum)
        else w.sources[i].meta.path in j.files && Matches(j.files[w.sources[i].meta.path], e.size, e.sum)
    {
      ListedIsIntact(c, j, i);
      if i in w.recorded { assert FinalAt(c, j.signed, w.record.files[i], w.final[i]); }
    }
  }

  /** From every reachable state in which a request is sealing the job, also one that continues after an
      interruption, signing what is left and ending publishes the manifest of its list and takes the seal
      record away. */
  lemma SealingPublishes(c: Config, run: seq<Job>, steps: seq<Step>, copies: seq<Bytes>)
      returns (longer: seq<Job>, done: seq<Step>)
    requires IsRun(c, run, steps) && run[|steps|].owner.Some?
    requires GoodCopies(c, run[|steps|].files, run[|steps|].owner.value.record.files, copies)
    ensures IsRun(c, longer, done) && run <= longer && steps <= done
    ensures var w, v := run[|steps|].owner.value, longer[|done|];
      v.owner.None? && v.seal.None? && v.manifest.Some? && v.manifest.value.runner == w.record.runner &&
      v.manifest.value.uploadDigest == ManifestDigest(w.record.files)
  {
    var w := run[|steps|].owner.value;
    longer, done := TasksComplete(c, run, steps, w.record.runner, w.record.files, copies, 0);
    InvariantHolds(c, longer, done, |done|);
    var j := longer[|done|];
    SignedIsPrepared(c, j);
    longer, done := Longer(c, longer, done, EndSeal(true, true, Done), Published(j).(owner := None, seal := None));
  }

  /** From every reachable state of a job that is not sealed and has nothing pending, a request that lists
      completed artifacts, none twice, seals the job; and when its packages are signed, the job has a
      manifest of this runner with the digest of this list. */
  lemma JobIsPublished(
      c: Config, run: seq<Job>, steps: seq<Step>, runner: Text, files: seq<Entry>, copies: seq<Bytes>)
      returns (longer: seq<Job>, done: seq<Step>)
    requires IsRun(c, run, steps) && run[|steps|].up && !Sealed(run[|steps|])
    requires NoPending(run[|steps|].artifacts) && ListSound(run[|steps|].artifacts, Sorted(files))
    requires GoodCopies(c, run[|steps|].files, Sorted(files), copies)
    ensures IsRun(c, longer, done) && run <= longer && steps + [BeginSeal(runner, files, Done)] <= done
    ensures var v := longer[|done|];
      v.owner.None? && v.seal.None? && v.manifest.Some? && v.manifest.value.runner == runner &&
      v.manifest.value.uploadDigest == ManifestDigest(files)
  {
    var j := run[|steps|];
    var list := Sorted(files);
    InvariantHolds(c, run, steps, |steps|);
    SortedDigest(files);
    forall i | 0 <= i < |list| ensures list[i].id in j.artifacts { assert EntrySound(j.artifacts, list[i]); }
    var record := Seal(runner, list, ManifestDigest(list), c.fingerprint, map[]);
    var v := j.(seal := Some(record), accepted := Some(list), owner := Some(Owner(record, Sources(j.artifacts, list), list, {})));
    longer, done := Longer(c, run, steps, BeginSeal(runner, files, Done), v);
    longer, done := SealingPublishes(c, longer, done, copies);
  }
}
