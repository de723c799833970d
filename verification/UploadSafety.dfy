/** What every step of a job's uploads and sealing keeps, and what follows for every run. */
module UploadSafety {
  import opened Core
  import opened ManifestText
  import opened Uploads

  type Files = map<Text, Bytes>
  type Sessions = map<nat, Session>

  // ----- the invariant -----

  predicate IsUpload(a: Artifact) {
    a.key != []
  }

  ghost predicate NamesSound(artifacts: Artifacts) {
    (forall id :: id in artifacts ==>
      0 !in id && 0 !in artifacts[id].meta.path && (IsUpload(artifacts[id]) <==> artifacts[id].meta.path != LOG_PATH)) &&
    forall id, k :: id in artifacts && k in artifacts && id != k ==>
      !IsUpload(artifacts[id]) || artifacts[id].key != artifacts[k].key
  }

  predicate LiveAt(artifacts: Artifacts, id: Text, path: Text) {
    id in artifacts && Live(artifacts[id]) && artifacts[id].meta.path == path
  }

  /** Completed content is there. A file under an upload's path is what every live artifact of that
      path declared, and some live artifact declared it; while the file is missing, at most one
      artifact of the path is live. */
  ghost predicate ContentSound(artifacts: Artifacts, files: Files) {
    (forall id :: id in artifacts && artifacts[id].state.Completed? ==> Verified(files, artifacts[id].meta)) &&
    (forall id, path :: LiveAt(artifacts, id, path) && path != LOG_PATH && path in files ==>
      Verified(files, artifacts[id].meta)) &&
    (forall id, k, path :: LiveAt(artifacts, id, path) && LiveAt(artifacts, k, path) && path != LOG_PATH && id != k ==>
      path in files) &&
    forall path :: path in files && path != LOG_PATH ==> exists id :: LiveAt(artifacts, id, path)
  }

  /** A request at work has its artifact to itself: pending, without content. A refused request may
      also find its content committed. */
  predicate AtWork(artifacts: Artifacts, files: Files, x: Session) {
    x.id in artifacts && IsUpload(x.artifact) && x.artifact == artifacts[x.id].(state := Pending) &&
    var a := artifacts[x.id];
    (a.state.Pending? && a.meta.path !in files) || (x.stage.Refused? && Live(a) && Verified(files, a.meta))
  }

  ghost predicate SessionsSound(artifacts: Artifacts, files: Files, sessions: Sessions) {
    (forall s :: s in sessions ==> AtWork(artifacts, files, sessions[s])) &&
    forall s, t :: s in sessions && t in sessions && s != t ==> sessions[s].id != sessions[t].id
  }

  ghost predicate OnlyFinal(artifacts: Artifacts, id: Option<Text>) {
    forall k :: k in artifacts && !IsUpload(artifacts[k]) && Some(k) != id ==> artifacts[k].state.Pending?
  }

  ghost predicate LogSound(artifacts: Artifacts, files: Files, log: LogMeta, body: Option<Bytes>) {
    match log
    case Open => LOG_PATH !in files && OnlyFinal(artifacts, None)
    case Finalizing(id) =>
      OnlyFinal(artifacts, Some(id)) && id in artifacts && !IsUpload(artifacts[id]) && Live(artifacts[id]) &&
      if LOG_PATH in files then Verified(files, artifacts[id].meta)
      else artifacts[id].state.Pending? && body.Some? && Matches(body.value, artifacts[id].meta.size, artifacts[id].meta.sum)
    case Finished(id) =>
      OnlyFinal(artifacts, Some(id)) && id in artifacts && !IsUpload(artifacts[id]) && artifacts[id].state.Completed?
    case Broken => false
  }

  ghost predicate StoreSound(j: Job) {
    NamesSound(j.artifacts) && ContentSound(j.artifacts, j.files) &&
    SessionsSound(j.artifacts, j.files, j.sessions) && LogSound(j.artifacts, j.files, j.log, j.body)
  }

  /** Every signed file is the package of one listed upload. */
  ghost predicate SignedAt(c: Config, files: Files, list: seq<Entry>, id: Text, content: Bytes) {
    exists i :: 0 <= i < |list| && list[i].id == id && Signable(c, list[i]) && list[i].path in files &&
      c.identity(content) == c.identity(files[list[i].path])
  }

  /** A saved entry is the signed file's, for one listed upload. */
  ghost predicate SavedAt(c: Config, list: seq<Entry>, signed: Files, id: Text, e: Entry) {
    id in signed &&
    exists i :: 0 <= i < |list| && list[i].id == id && Signable(c, list[i]) && e == EntryOf(list[i], signed[id])
  }

  ghost predicate SavedSound(c: Config, signed: Files, record: Seal) {
    forall id :: id in record.saved ==> SavedAt(c, record.files, signed, id, record.saved[id])
  }

  /** What the manifest of a list says of each file: packages as signed, everything else as uploaded. */
  predicate FinalAt(c: Config, signed: Files, e: Entry, f: Entry) {
    if Signable(c, e) then e.id in signed && f == EntryOf(e, signed[e.id]) else f == e
  }

  ghost predicate ManifestSound(c: Config, signed: Files, list: seq<Entry>, m: Manifest) {
    m.uploadDigest == ManifestDigest(list) && m.digest == ManifestDigest(m.files) && m.fingerprint == c.fingerprint &&
    |m.files| == |list| && forall i :: 0 <= i < |list| ==> FinalAt(c, signed, list[i], m.files[i])
  }

  ghost predicate RecordSound(c: Config, signed: Files, list: seq<Entry>, record: Seal) {
    record.files == list && record.digest == ManifestDigest(list) && record.fingerprint == c.fingerprint &&
    SavedSound(c, signed, record)
  }

  ghost predicate SealSound(c: Config, j: Job) {
    match j.accepted
    case None => !Sealed(j) && j.signed == map[]
    case Some(list) =>
      Sealed(j) && NoPending(j.artifacts) && ListSound(j.artifacts, list) &&
      (forall id :: id in j.signed ==> SignedAt(c, j.files, list, id, j.signed[id])) &&
      (j.seal.Some? ==> RecordSound(c, j.signed, list, j.seal.value)) &&
      (j.manifest.Some? ==> ManifestSound(c, j.signed, list, j.manifest.value))
  }

  /** What the sealing request has in memory. A task that has succeeded has saved its entry. */
  ghost predicate OwnerAt(c: Config, artifacts: Artifacts, signed: Files, w: Owner, seal: Seal) {
    w.record == seal.(saved := w.record.saved) && SavedSound(c, signed, w.record) &&
    (forall id :: id in seal.saved ==> id in w.record.saved && w.record.saved[id] == seal.saved[id]) &&
    |w.final| == |w.record.files| == |w.sources| &&
    (forall i :: 0 <= i < |w.sources| ==>
      w.record.files[i].id in artifacts && w.sources[i] == artifacts[w.record.files[i].id]) &&
    forall i :: 0 <= i < |w.final| ==>
      if i in w.recorded then FinalAt(c, signed, w.record.files[i], w.final[i])
      else !Signable(c, w.record.files[i]) ==> w.final[i] == w.record.files[i]
  }

  ghost predicate OwnerSound(c: Config, j: Job) {
    j.owner.Some? ==>
      j.up && j.manifest.None? && j.seal.Some? && OwnerAt(c, j.artifacts, j.signed, j.owner.value, j.seal.value)
  }

  ghost predicate OrderSound(accepted: Option<seq<Entry>>) {
    accepted.Some? ==> Ordered(accepted.value)
  }

  ghost predicate Invariant(c: Config, j: Job) {
    StoreSound(j) && SealSound(c, j) && OrderSound(j.accepted) && OwnerSound(c, j) && (!j.up ==> j.sessions == map[] && j.owner.None?)
  }

  const EMPTY := Job(false, map[], map[], Open, None, None, None, map[], map[], None, None)

  // ----- single writes -----

  /** Content that is in place may be recorded as completed. */
  lemma CompletingKeeps(artifacts: Artifacts, files: Files, sessions: Sessions, id: Text)
    requires NamesSound(artifacts) && ContentSound(artifacts, files) && SessionsSound(artifacts, files, sessions)
    requires id in artifacts && IsUpload(artifacts[id]) && Verified(files, artifacts[id].meta)
    ensures var w := artifacts[id := artifacts[id].(state := Completed)];
            NamesSound(w) && ContentSound(w, files) && SessionsSound(w, files, sessions)
  {
    var w := artifacts[id := artifacts[id].(state := Completed)];
    CompletingKeepsContent(artifacts, files, id);
    forall s | s in sessions ensures AtWork(w, files, sessions[s]) { assert AtWork(artifacts, files, sessions[s]); }
  }

  lemma CompletingKeepsContent(artifacts: Artifacts, files: Files, id: Text)
    requires ContentSound(artifacts, files) && id in artifacts && Verified(files, artifacts[id].meta)
    ensures ContentSound(artifacts[id := artifacts[id].(state := Completed)], files)
  {
    var w := artifacts[id := artifacts[id].(state := Completed)];
    forall path | path in files && path != LOG_PATH ensures exists k :: LiveAt(w, k, path) {
      var k :| LiveAt(artifacts, k, path);
      assert LiveAt(w, k, path);
    }
    forall a, path | LiveAt(w, a, path) && path != LOG_PATH && a != id ensures LiveAt(artifacts, a, path) {}
  }

  /** A pending artifact without content may be marked failed, and so may one that nobody works on. */
  lemma FailingKeepsContent(artifacts: Artifacts, files: Files, id: Text)
    requires ContentSound(artifacts, files) && id in artifacts && artifacts[id].meta.path !in files
    ensures ContentSound(artifacts[id := artifacts[id].(state := Failed)], files)
  {
    var w := artifacts[id := artifacts[id].(state := Failed)];
    forall path | path in files && path != LOG_PATH ensures exists k :: LiveAt(w, k, path) {
      var k :| LiveAt(artifacts, k, path);
      assert LiveAt(w, k, path);
    }
    forall a, path | LiveAt(w, a, path) ensures LiveAt(artifacts, a, path) {}
  }

  /** An artifact may become pending at a path without another live artifact and without content. */
  lemma StartingKeepsContent(artifacts: Artifacts, files: Files, id: Text, a: Artifact)
    requires ContentSound(artifacts, files) && a.state.Pending? && a.meta.path !in files
    requires id in artifacts ==> artifacts[id].meta == a.meta
    requires forall k :: k != id ==> !LiveAt(artifacts, k, a.meta.path)
    ensures ContentSound(artifacts[id := a], files)
  {
    var w := artifacts[id := a];
    forall path | path in files && path != LOG_PATH ensures exists k :: LiveAt(w, k, path) {
      var k :| LiveAt(artifacts, k, path);
      assert LiveAt(w, k, path);
    }
    forall k, path | LiveAt(w, k, path) && k != id ensures LiveAt(artifacts, k, path) {}
  }

  /** A declared file may be put in place of nothing. */
  lemma PlacingKeepsContent(artifacts: Artifacts, files: Files, id: Text, content: Bytes)
    requires ContentSound(artifacts, files) && id in artifacts && artifacts[id].state.Pending?
    requires var m := artifacts[id].meta; m.path !in files && m.path != LOG_PATH && Matches(content, m.size, m.sum)
    ensures ContentSound(artifacts, files[artifacts[id].meta.path := content])
  {
    var p := artifacts[id].meta.path;
    var g := files[p := content];
    assert LiveAt(artifacts, id, p);
    forall k, path | LiveAt(artifacts, k, path) && path != LOG_PATH && path in g ensures Verified(g, artifacts[k].meta) {
      if path == p { assert k == id; }
    }
    forall k | k in artifacts && artifacts[k].state.Completed? ensures Verified(g, artifacts[k].meta) {
      assert Verified(files, artifacts[k].meta);
    }
  }

  /** Uploads are no business of the log's. */
  lemma UploadKeepsLog(artifacts: Artifacts, files: Files, log: LogMeta, body: Option<Bytes>, id: Text, a: Artifact)
    requires LogSound(artifacts, files, log, body) && IsUpload(a) && (id in artifacts ==> IsUpload(artifacts[id]))
    ensures LogSound(artifacts[id := a], files, log, body)
  {
  }

  lemma PlacingKeepsLog(
      artifacts: Artifacts, files: Files, log: LogMeta, body: Option<Bytes>, path: Text, content: Bytes)
    requires NamesSound(artifacts) && LogSound(artifacts, files, log, body) && path != LOG_PATH
    ensures LogSound(artifacts, files[path := content], log, body)
  {
  }

  // ----- upload steps -----

  lemma RepairKeepsStore(j: Job, id: Text)
    requires StoreSound(j) && id in j.artifacts && IsUpload(j.artifacts[id]) && Verified(j.files, j.artifacts[id].meta)
    ensures StoreSound(Wrote(j, id, j.artifacts[id].(state := Completed)))
  {
    CompletingKeeps(j.artifacts, j.files, j.sessions, id);
    UploadKeepsLog(j.artifacts, j.files, j.log, j.body, id, j.artifacts[id].(state := Completed));
  }

  /** An artifact that may start: its own earlier attempt has failed, its path is free, and its key and
      name are its own. */
  ghost predicate MayStart(j: Job, id: Text, a: Artifact) {
    a.state.Pending? && IsUpload(a) && 0 !in id && 0 !in a.meta.path && a.meta.path != LOG_PATH &&
    (forall k :: k in j.artifacts && k != id ==> j.artifacts[k].key != a.key) &&
    (forall k :: k != id ==> !LiveAt(j.artifacts, k, a.meta.path)) &&
    (id in j.artifacts ==> j.artifacts[id].(state := Pending) == a && j.artifacts[id].state.Failed?)
  }

  lemma StartKeepsSessions(j: Job, s: nat, id: Text, a: Artifact)
    requires StoreSound(j) && MayStart(j, id, a) && a.meta.path !in j.files && s !in j.sessions
    ensures SessionsSound(j.artifacts[id := a], j.files, j.sessions)
    ensures SessionsSound(j.artifacts[id := a], j.files, j.sessions[s := Session(id, a, Copying)])
  {
    forall t | t in j.sessions ensures j.sessions[t].id != id && AtWork(j.artifacts[id := a], j.files, j.sessions[t]) {
      assert AtWork(j.artifacts, j.files, j.sessions[t]);
    }
  }

  lemma StartKeepsStore(j: Job, s: nat, id: Text, a: Artifact)
    requires StoreSound(j) && MayStart(j, id, a) && s !in j.sessions
    ensures StoreSound(Wrote(j, id, a)) && StoreSound(Wrote(j, id, a).(sessions := j.sessions[s := Session(id, a, Copying)]))
  {
    assert forall k :: !LiveAt(j.artifacts, k, a.meta.path);
    assert a.meta.path !in j.files;
    assert NamesSound(j.artifacts[id := a]);
    StartingKeepsContent(j.artifacts, j.files, id, a);
    UploadKeepsLog(j.artifacts, j.files, j.log, j.body, id, a);
    StartKeepsSessions(j, s, id, a);
  }

  lemma HaltKeepsStore(j: Job)
    requires StoreSound(j)
    ensures StoreSound(Halted(j))
  {
  }

  lemma StartStepKeepsStore(j: Job, s: nat, id: Text, a: Artifact, o: Outcome, v: Job)
    requires StoreSound(j) && MayStart(j, id, a) && s !in j.sessions && StartStep(j, s, id, a, o, v)
    ensures StoreSound(v)
  {
    StartKeepsStore(j, s, id, a);
    HaltKeepsStore(j);
    HaltKeepsStore(Wrote(j, id, a));
  }

  lemma RepairStepKeepsStore(j: Job, id: Text, o: Outcome, v: Job)
    requires StoreSound(j) && id in j.artifacts && IsUpload(j.artifacts[id]) && Verified(j.files, j.artifacts[id].meta)
    requires WriteStep(j, id, j.artifacts[id].(state := Completed), o, v)
    ensures StoreSound(v)
  {
    RepairKeepsStore(j, id);
    HaltKeepsStore(j);
    HaltKeepsStore(Wrote(j, id, j.artifacts[id].(state := Completed)));
  }

  lemma RestartMayStart(j: Job, key: Text, m: Metadata, k: Text, full: bool)
    requires NamesSound(j.artifacts) && ContentSound(j.artifacts, j.files) && key != [] && Holds(j, key, Some(k))
    requires BeginDecision(j, key, m, Some(k), full) == Restart(k)
    ensures MayStart(j, k, j.artifacts[k].(state := Pending))
  {
    assert forall i :: i != k && LiveAt(j.artifacts, i, m.path) ==> Conflict(j, Some(k), m.path);
  }

  lemma CreateMayStart(j: Job, key: Text, m: Metadata, id: Text, full: bool)
    requires key != [] && Holds(j, key, None) && id !in j.artifacts && 0 !in id
    requires BeginDecision(j, key, m, None, full) == Create
    ensures MayStart(j, id, Artifact(key, m, Pending))
  {
    assert forall i :: LiveAt(j.artifacts, i, m.path) ==> Conflict(j, None, m.path);
  }

  lemma BeginKeepsStore(
      j: Job, s: nat, key: Text, m: Metadata, known: Option<Text>, full: bool, id: Text, o: Outcome, v: Job)
    requires StoreSound(j) && BeginStep(j, s, key, m, known, full, id, o, v)
    ensures StoreSound(v)
  {
    DecisionIsSound(j, key, m, known, full, id);
    match BeginDecision(j, key, m, known, full)
    case Repair(k) => RepairStepKeepsStore(j, k, o, v);
    case Restart(k) => StartStepKeepsStore(j, s, k, j.artifacts[k].(state := Pending), o, v);
    case Create => StartStepKeepsStore(j, s, id, Artifact(key, m, Pending), o, v);
    case _ =>
  }

  /** Only what is committed is repaired, and only what may start is started. */
  lemma DecisionIsSound(j: Job, key: Text, m: Metadata, known: Option<Text>, full: bool, id: Text)
    requires StoreSound(j) && key != [] && Holds(j, key, known) && id !in j.artifacts && 0 !in id
    ensures match BeginDecision(j, key, m, known, full)
      case Repair(k) => k in j.artifacts && IsUpload(j.artifacts[k]) && Verified(j.files, j.artifacts[k].meta)
      case Restart(k) => k in j.artifacts && MayStart(j, k, j.artifacts[k].(state := Pending))
      case Create => MayStart(j, id, Artifact(key, m, Pending))
      case _ => true
  {
    match BeginDecision(j, key, m, known, full)
    case Restart(k) => RestartMayStart(j, key, m, k, full);
    case Create => CreateMayStart(j, key, m, id, full);
    case _ =>
  }

  /** Placing a received body leaves every other request alone. */
  lemma PlaceKeepsSessions(j: Job, s: nat, content: Bytes)
    requires StoreSound(j) && s in j.sessions && !j.sessions[s].stage.Refused?
    requires var m := j.sessions[s].artifact.meta; Matches(content, m.size, m.sum)
    ensures var g := j.files[j.sessions[s].artifact.meta.path := content];
      forall t :: t in j.sessions && t != s ==> AtWork(j.artifacts, g, j.sessions[t])
  {
    var x := j.sessions[s];
    assert AtWork(j.artifacts, j.files, x);
    assert LiveAt(j.artifacts, x.id, x.artifact.meta.path);
    forall t | t in j.sessions && t != s
      ensures AtWork(j.artifacts, j.files[x.artifact.meta.path := content], j.sessions[t])
    {
      assert AtWork(j.artifacts, j.files, j.sessions[t]);
      assert Live(j.artifacts[j.sessions[t].id]) ==> LiveAt(j.artifacts, j.sessions[t].id, j.sessions[t].artifact.meta.path);
    }
  }

  lemma PlaceKeepsStore(j: Job, s: nat, content: Bytes)
    requires StoreSound(j) && s in j.sessions && !j.sessions[s].stage.Refused?
    requires var m := j.sessions[s].artifact.meta; Matches(content, m.size, m.sum)
    ensures var p := Placed(j, j.sessions[s].artifact.meta.path, content);
      var w := Wrote(p, j.sessions[s].id, j.sessions[s].artifact.(state := Completed));
      StoreSound(Staged(p, s, Refused)) && StoreSound(Halted(p)) && StoreSound(Gone(w, s)) && StoreSound(Halted(w))
  {
    var x := j.sessions[s];
    var p := Placed(j, x.artifact.meta.path, content);
    assert AtWork(j.artifacts, j.files, x);
    PlacingKeepsContent(j.artifacts, j.files, x.id, content);
    PlacingKeepsLog(j.artifacts, j.files, j.log, j.body, x.artifact.meta.path, content);
    PlaceKeepsSessions(j, s, content);
    assert SessionsSound(p.artifacts, p.files, Staged(p, s, Refused).sessions);
    HaltKeepsStore(Staged(p, s, Refused));
    assert x.artifact.(state := Completed) == j.artifacts[x.id].(state := Completed);
    RepairKeepsStore(Gone(p, s), x.id);
    HaltKeepsStore(Gone(Wrote(p, x.id, x.artifact.(state := Completed)), s));
  }

  lemma CompleteKeepsStore(j: Job, s: nat, content: Bytes, o: Outcome, v: Job)
    requires StoreSound(j) && CompleteStep(j, s, content, o, v)
    ensures StoreSound(v)
  {
    PlaceKeepsStore(j, s, content);
    RefuseKeepsStore(j, s);
    HaltKeepsStore(j);
  }

  lemma StageKeepsSessions(artifacts: Artifacts, files: Files, sessions: Sessions, s: nat, x: Session)
    requires SessionsSound(artifacts, files, sessions) && s in sessions && x.id == sessions[s].id
    ensures AtWork(artifacts, files, x) ==> SessionsSound(artifacts, files, sessions[s := x])
    ensures SessionsSound(artifacts, files, sessions - {s})
  {
  }

  lemma RefuseKeepsStore(j: Job, s: nat)
    requires StoreSound(j) && s in j.sessions
    ensures StoreSound(Staged(j, s, Refused)) && StoreSound(Gone(j, s))
  {
    assert AtWork(j.artifacts, j.files, j.sessions[s]);
    StageKeepsSessions(j.artifacts, j.files, j.sessions, s, j.sessions[s].(stage := Refused));
  }

  lemma CommittedKeepsStore(j: Job, s: nat, v: Job)
    requires StoreSound(j) && CommittedStep(j, s, v)
    ensures StoreSound(v)
  {
    var x := j.sessions[s];
    assert AtWork(j.artifacts, j.files, x);
    StageKeepsSessions(j.artifacts, j.files, j.sessions, s, x.(stage := Failing));
  }

  /** A late failure report only ever reaches an artifact that is pending and has no content. */
  lemma FailKeepsStore(j: Job, s: nat, o: Outcome, v: Job)
    requires StoreSound(j) && FailStep(j, s, o, v)
    ensures StoreSound(v)
    ensures var x := j.sessions[s];
      x.id in j.artifacts && j.artifacts[x.id] == x.artifact && x.artifact.state.Pending? && x.artifact.meta.path !in j.files
  {
    var x := j.sessions[s];
    assert AtWork(j.artifacts, j.files, x);
    assert x.artifact.(state := Failed) == j.artifacts[x.id].(state := Failed);
    RefuseKeepsStore(j, s);
    var w := Wrote(Gone(j, s), x.id, x.artifact.(state := Failed));
    MarkFailedKeepsStore(Gone(j, s), x.id);
    HaltKeepsStore(j);
    HaltKeepsStore(w);
    assert o == Done ==> v == w;
    assert Halted(w) == Halted(Wrote(j, x.id, x.artifact.(state := Failed)));
  }

  lemma MarkFailedKeepsStore(j: Job, id: Text)
    requires StoreSound(j) && id in j.artifacts && IsUpload(j.artifacts[id]) && j.artifacts[id].meta.path !in j.files
    requires forall t :: t in j.sessions ==> j.sessions[t].id != id
    ensures StoreSound(Wrote(j, id, j.artifacts[id].(state := Failed)))
  {
    var w := j.artifacts[id := j.artifacts[id].(state := Failed)];
    FailingKeepsContent(j.artifacts, j.files, id);
    UploadKeepsLog(j.artifacts, j.files, j.log, j.body, id, j.artifacts[id].(state := Failed));
    forall t | t in j.sessions ensures AtWork(w, j.files, j.sessions[t]) {
      assert AtWork(j.artifacts, j.files, j.sessions[t]);
    }
  }

  lemma MarkStepKeepsStore(j: Job, id: Text, o: Outcome, v: Job)
    requires StoreSound(j) && id in j.artifacts && IsUpload(j.artifacts[id]) && j.artifacts[id].meta.path !in j.files
    requires j.sessions == map[] && WriteStep(j, id, j.artifacts[id].(state := Failed), o, v)
    ensures StoreSound(v)
  {
    MarkFailedKeepsStore(j, id);
    HaltKeepsStore(j);
    HaltKeepsStore(Wrote(j, id, j.artifacts[id].(state := Failed)));
  }

  /** A pending upload's path has its content or nothing. */
  lemma PendingIsWhole(j: Job, id: Text)
    requires StoreSound(j) && id in j.artifacts && j.artifacts[id].key != [] && j.artifacts[id].state.Pending?
    ensures var m := j.artifacts[id].meta;
      IsUpload(j.artifacts[id]) && !Verified(j.files, m) ==> m.path !in j.files && j.files - {m.path} == j.files
  {
    assert LiveAt(j.artifacts, id, j.artifacts[id].meta.path);
  }

  /** Recovery never finds content that has to be set aside. */
  lemma RecoverKeepsStore(j: Job, id: Text, o: Outcome, v: Job)
    requires StoreSound(j) && j.sessions == map[] && RecoverStep(j, id, o, v)
    ensures StoreSound(v) && v.files == j.files
  {
    var a := j.artifacts[id];
    PendingIsWhole(j, id);
    if Verified(j.files, a.meta) {
      RepairStepKeepsStore(j, id, o, v);
    } else {
      assert j.(files := j.files - {a.meta.path}) == j;
      MarkStepKeepsStore(j, id, o, v);
    }
  }

  // ----- log steps -----

  lemma LogArtifactKeeps(j: Job, id: Text, a: Artifact)
    requires NamesSound(j.artifacts) && ContentSound(j.artifacts, j.files) && SessionsSound(j.artifacts, j.files, j.sessions)
    requires a.key == [] && a.meta.path == LOG_PATH && 0 !in id && (id in j.artifacts ==> !IsUpload(j.artifacts[id]))
    requires a.state.Completed? ==> Verified(j.files, a.meta)
    ensures var w := j.artifacts[id := a];
            NamesSound(w) && ContentSound(w, j.files) && SessionsSound(w, j.files, j.sessions)
  {
    var w := j.artifacts[id := a];
    forall s | s in j.sessions ensures AtWork(w, j.files, j.sessions[s]) {
      assert AtWork(j.artifacts, j.files, j.sessions[s]);
    }
    LogArtifactKeepsContent(j.artifacts, j.files, id, a);
  }

  lemma LogArtifactKeepsContent(artifacts: Artifacts, files: Files, id: Text, a: Artifact)
    requires NamesSound(artifacts) && ContentSound(artifacts, files)
    requires a.key == [] && a.meta.path == LOG_PATH && (id in artifacts ==> !IsUpload(artifacts[id]))
    requires a.state.Completed? ==> Verified(files, a.meta)
    ensures ContentSound(artifacts[id := a], files)
  {
    var w := artifacts[id := a];
    forall path | path in files && path != LOG_PATH ensures exists k :: LiveAt(w, k, path) {
      var k :| LiveAt(artifacts, k, path);
      assert LiveAt(w, k, path);
    }
    forall k, path | LiveAt(w, k, path) && path != LOG_PATH ensures LiveAt(artifacts, k, path) {}
  }

  lemma LogFileKeeps(j: Job, content: Bytes)
    requires NamesSound(j.artifacts) && ContentSound(j.artifacts, j.files) && SessionsSound(j.artifacts, j.files, j.sessions)
    requires forall k :: k in j.artifacts && !IsUpload(j.artifacts[k]) ==> !j.artifacts[k].state.Completed?
    ensures var g := j.files[LOG_PATH := content];
            ContentSound(j.artifacts, g) && SessionsSound(j.artifacts, g, j.sessions)
  {
    var g := j.files[LOG_PATH := content];
    forall s | s in j.sessions ensures AtWork(j.artifacts, g, j.sessions[s]) {
      assert AtWork(j.artifacts, j.files, j.sessions[s]);
    }
    forall path | path in g && path != LOG_PATH ensures exists k :: LiveAt(j.artifacts, k, path) {
      assert path in j.files;
    }
  }

  lemma LogPlaceKeeps(j: Job, id: Text, content: Bytes)
    requires StoreSound(j) && j.log == Finalizing(id) && LOG_PATH !in j.files && j.body == Some(content)
    ensures StoreSound(j.(files := j.files[LOG_PATH := content], body := None))
  {
    LogFileKeeps(j, content);
    assert Verified(j.files[LOG_PATH := content], j.artifacts[id].meta);
  }

  lemma LogRecordKeeps(j: Job, id: Text)
    requires StoreSound(j) && j.log == Finalizing(id) && Verified(j.files, j.artifacts[id].meta)
    ensures var w := Wrote(j, id, j.artifacts[id].(state := Completed));
            StoreSound(w) && StoreSound(w.(log := Finished(id)))
  {
    LogArtifactKeeps(j, id, j.artifacts[id].(state := Completed));
    assert LOG_PATH in j.files;
  }

  lemma LogPendingKeeps(j: Job, id: Text)
    requires StoreSound(j) && j.log.Open? && id !in j.artifacts && 0 !in id
    ensures StoreSound(LogCompleting(j, id, 0)) && StoreSound(LogCompleting(j, id, 1)) && StoreSound(LogCompleting(j, id, 2))
  {
    var content := if j.body.Some? then j.body.value else [];
    LogArtifactKeeps(j, id, LogArtifact(content, Pending));
    assert OnlyFinal(LogCompleting(j, id, 2).artifacts, Some(id));
  }

  lemma LogPlacedKeeps(j: Job, id: Text)
    requires StoreSound(j) && j.log.Open? && id !in j.artifacts && 0 !in id
    ensures StoreSound(LogCompleting(j, id, 3))
  {
    LogPendingKeeps(j, id);
    var j2 := LogCompleting(j, id, 2);
    LogPlaceKeeps(j2, id, j2.body.value);
  }

  lemma LogStages(j: Job, id: Text)
    ensures var j3, j4 := LogCompleting(j, id, 3), LogCompleting(j, id, 4);
      j3.log == Finalizing(id) && id in j3.artifacts && Verified(j3.files, j3.artifacts[id].meta) &&
      j4 == Wrote(j3, id, j3.artifacts[id].(state := Completed)) && LogCompleting(j, id, 5) == j4.(log := Finished(id))
  {
    var j3, j4 := LogCompleting(j, id, 3), LogCompleting(j, id, 4);
    assert j3.artifacts[id := j4.artifacts[id]] == j4.artifacts;
  }

  lemma LogRecordedKeeps(j: Job, id: Text)
    requires StoreSound(j) && j.log.Open? && id !in j.artifacts && 0 !in id
    ensures StoreSound(LogCompleting(j, id, 4)) && StoreSound(LogCompleting(j, id, 5))
  {
    LogPlacedKeeps(j, id);
    LogStages(j, id);
    LogRecordKeeps(LogCompleting(j, id, 3), id);
  }

  /** Completing the log, cut off after any file operation, leaves a sound store. */
  lemma LogCompletingKeeps(j: Job, id: Text, stage: nat)
    requires StoreSound(j) && j.log.Open? && id !in j.artifacts && 0 !in id
    ensures StoreSound(LogCompleting(j, id, stage))
  {
    if stage <= 2 {
      LogPendingKeeps(j, id);
    } else if stage == 3 {
      LogPlacedKeeps(j, id);
    } else {
      LogRecordedKeeps(j, id);
      assert stage > 4 ==> LogCompleting(j, id, stage) == LogCompleting(j, id, 5);
    }
  }

  lemma LogCompleteKeepsStore(j: Job, id: Text, stage: nat, o: Outcome, v: Job)
    requires StoreSound(j) && LogCompleteStep(j, id, stage, o, v)
    ensures StoreSound(v)
  {
    LogCompletingKeeps(j, id, stage);
    LogCompletingKeeps(j, id, 5);
    HaltKeepsStore(LogCompleting(j, id, stage));
    HaltKeepsStore(j);
  }

  /** Recovery of a sound log never declares it broken. */
  lemma LogRecoverKeepsStore(j: Job, o: Outcome, v: Job)
    requires StoreSound(j) && LogRecoverStep(j, o, v)
    ensures StoreSound(v)
  {
    var w := LogRecovered(j);
    HaltKeepsStore(j);
    LogRecoveredIsSound(j);
    HaltKeepsStore(w);
    HaltKeepsStore(j.(artifacts := w.artifacts));
  }

  lemma LogRecoveredIsSound(j: Job)
    requires StoreSound(j)
    ensures StoreSound(LogRecovered(j)) && StoreSound(j.(artifacts := LogRecovered(j).artifacts))
  {
    if j.log.Finalizing? {
      if Verified(j.files, j.artifacts[j.log.id].meta) {
        LogRecordKeeps(j, j.log.id);
      } else {
        assert LOG_PATH !in j.files;
        assert j.(artifacts := j.artifacts) == j;
      }
    } else {
      assert LogRecovered(j) == j && j.(artifacts := j.artifacts) == j;
    }
  }

  // ----- sealing freezes the store -----

  predicate Seals(step: Step) {
    step.BeginSeal? || step.Publish? || step.Record? || step.EndSeal?
  }

  /** Nothing but sealing touches the seal record, the signed files and the manifest; the sealing
      request ends at the latest when the process stops. */
  ghost predicate LeavesSeal(j: Job, v: Job) {
    v.seal == j.seal && v.manifest == j.manifest && v.signed == j.signed && v.accepted == j.accepted &&
    (v.owner.None? || (v.owner == j.owner && v.up == j.up)) &&
    (!v.up ==> (j.up || (v.sessions == j.sessions && v.owner == j.owner) || (v.sessions == map[] && v.owner.None?))) &&
    (j.up && !v.up ==> v.sessions == map[] && v.owner.None?)
  }

  /** A step that changes no artifact and no file once the job is sealed. */
  predicate Freezes(j: Job, v: Job) {
    Sealed(j) ==> v.artifacts == j.artifacts && v.files == j.files
  }

  lemma BeginFreezes(
      j: Job, s: nat, key: Text, m: Metadata, known: Option<Text>, full: bool, id: Text, o: Outcome, v: Job)
    requires j.up && BeginStep(j, s, key, m, known, full, id, o, v)
    ensures Freezes(j, v) && LeavesSeal(j, v)
  {
    match BeginDecision(j, key, m, known, full)
    case Repair(k) => StartLeavesSeal(j, s, k, j.artifacts[k].(state := Completed), o, v);
    case Restart(k) => StartLeavesSeal(j, s, k, j.artifacts[k].(state := Pending), o, v);
    case Create => StartLeavesSeal(j, s, id, Artifact(key, m, Pending), o, v);
    case _ =>
  }

  lemma StartLeavesSeal(j: Job, s: nat, id: Text, a: Artifact, o: Outcome, v: Job)
    requires j.up && (StartStep(j, s, id, a, o, v) || WriteStep(j, id, a, o, v))
    ensures LeavesSeal(j, v)
  {
  }

  lemma CompleteFreezes(j: Job, s: nat, content: Bytes, o: Outcome, v: Job)
    requires j.up && CompleteStep(j, s, content, o, v)
    ensures Freezes(j, v) && LeavesSeal(j, v)
  {
  }

  lemma FailFreezes(j: Job, s: nat, o: Outcome, v: Job)
    requires SessionsSound(j.artifacts, j.files, j.sessions) && (Sealed(j) ==> NoPending(j.artifacts))
    requires j.up && FailStep(j, s, o, v)
    ensures Freezes(j, v) && LeavesSeal(j, v)
  {
    assert AtWork(j.artifacts, j.files, j.sessions[s]);
  }

  lemma LogRecoveredFreezes(j: Job)
    requires LogSound(j.artifacts, j.files, j.log, j.body) && NoPending(j.artifacts)
    ensures LogRecovered(j).artifacts == j.artifacts
  {
    if j.log.Finalizing? {
      var a := j.artifacts[j.log.id];
      assert a.(state := Completed) == a;
      assert j.artifacts[j.log.id := a] == j.artifacts;
    }
  }

  lemma LogRecoverFreezes(j: Job, o: Outcome, v: Job)
    requires LogSound(j.artifacts, j.files, j.log, j.body) && (Sealed(j) ==> NoPending(j.artifacts))
    requires (j.up || (j.sessions == map[] && j.owner.None?)) && LogRecoverStep(j, o, v)
    ensures Freezes(j, v) && LeavesSeal(j, v)
  {
    LogRecoveredTouches(j);
    if Sealed(j) { LogRecoveredFreezes(j); }
  }

  lemma RecoverFreezes(j: Job, id: Text, o: Outcome, v: Job)
    requires (Sealed(j) ==> NoPending(j.artifacts)) && RecoverStep(j, id, o, v)
    ensures Freezes(j, v) && LeavesSeal(j, v)
  {
  }

  lemma LogCompleteFreezes(j: Job, id: Text, stage: nat, o: Outcome, v: Job)
    requires j.up && LogCompleteStep(j, id, stage, o, v)
    ensures Freezes(j, v) && LeavesSeal(j, v)
  {
  }

  /** A step of an upload request. */
  predicate Sends(step: Step) {
    step.Begin? || step.Complete? || step.AskCommitted? || step.Fail?
  }

  lemma SendFreezes(c: Config, j: Job, step: Step, v: Job)
    requires SessionsSound(j.artifacts, j.files, j.sessions) && (Sealed(j) ==> NoPending(j.artifacts))
    requires Next(c, j, step, v) && Sends(step)
    ensures Freezes(j, v) && LeavesSeal(j, v)
  {
    match step
    case Begin(s, key, m, known, full, id, o) => BeginFreezes(j, s, key, m, known, full, id, o, v);
    case Complete(s, content, o) => CompleteFreezes(j, s, content, o, v);
    case AskCommitted(s) =>
    case Fail(s, o) => FailFreezes(j, s, o, v);
  }

  lemma StoreStepFreezes(c: Config, j: Job, step: Step, v: Job)
    requires Invariant(c, j) && Next(c, j, step, v) && !Seals(step)
    ensures Freezes(j, v) && LeavesSeal(j, v)
  {
    if Sends(step) { SendFreezes(c, j, step, v); return; }
    match step
    case CompleteLog(id, stage, o) => LogCompleteFreezes(j, id, stage, o, v);
    case RecoverLog(o) => LogRecoverFreezes(j, o, v);
    case Recover(id, o) => RecoverFreezes(j, id, o, v);
    case _ =>
  }

  lemma StoreStepKeepsStore(c: Config, j: Job, step: Step, v: Job)
    requires Invariant(c, j) && Next(c, j, step, v) && !Seals(step)
    ensures StoreSound(v)
  {
    match step
    case Begin(s, key, m, known, full, id, o) => BeginKeepsStore(j, s, key, m, known, full, id, o, v);
    case Complete(s, content, o) => CompleteKeepsStore(j, s, content, o, v);
    case AskCommitted(s) => CommittedKeepsStore(j, s, v);
    case Fail(s, o) => FailKeepsStore(j, s, o, v);
    case CompleteLog(id, stage, o) => LogCompleteKeepsStore(j, id, stage, o, v);
    case RecoverLog(o) => LogRecoverKeepsStore(j, o, v);
    case Recover(id, o) => RecoverKeepsStore(j, id, o, v);
    case Halt => HaltKeepsStore(j);
    case _ =>
  }

  // ----- sealing steps -----

  lemma SealKeeps(c: Config, j: Job, runner: Text, files: seq<Entry>, o: Outcome, v: Job)
    requires Invariant(c, j) && j.up && SealStep(j, c, runner, files, o, v) && Ordered(files)
    ensures Invariant(c, v)
  {
    if v == j {
    } else if j.seal.Some? {
      TakeOverKeeps(c, j, files);
    } else {
      NewSealKeeps(c, j, Seal(runner, files, ManifestDigest(files), c.fingerprint, map[]));
      HaltKeepsStore(j);
    }
  }

  lemma TakeOverKeeps(c: Config, j: Job, files: seq<Entry>)
    requires Invariant(c, j) && j.up && j.seal.Some? && MaySeal(j, c, files) && Ordered(files)
    ensures Invariant(c, j.(owner := Some(Owner(j.seal.value, Sources(j.artifacts, files), j.seal.value.files, {}))))
  {
    TakesSameList(c, j, files);
    FreshOwner(c, j.artifacts, j.signed, j.seal.value);
    OwningKeeps(c, j, Owner(j.seal.value, Sources(j.artifacts, files), files, {}));
  }

  lemma TakesSameList(c: Config, j: Job, files: seq<Entry>)
    requires Invariant(c, j) && j.seal.Some? && MaySeal(j, c, files) && Ordered(files)
    ensures files == j.seal.value.files && SavedSound(c, j.signed, j.seal.value)
    ensures forall i :: 0 <= i < |files| ==> files[i].id in j.artifacts
  {
    SameList(j, files, j.seal.value.files);
    forall i | 0 <= i < |files| ensures files[i].id in j.artifacts { assert EntrySound(j.artifacts, files[i]); }
  }

  lemma OwningKeeps(c: Config, j: Job, w: Owner)
    requires Invariant(c, j) && j.up && j.seal.Some? && j.manifest.None? && OwnerAt(c, j.artifacts, j.signed, w, j.seal.value)
    ensures Invariant(c, j.(owner := Some(w)))
  {
  }

  lemma FreshOwner(c: Config, artifacts: Artifacts, signed: Files, record: Seal)
    requires SavedSound(c, signed, record) && forall i :: 0 <= i < |record.files| ==> record.files[i].id in artifacts
    ensures OwnerAt(c, artifacts, signed, Owner(record, Sources(artifacts, record.files), record.files, {}), record)
  {
  }

  lemma NewSealKeeps(c: Config, j: Job, record: Seal)
    requires Invariant(c, j) && j.up && MaySeal(j, c, record.files) && j.seal.None? && Ordered(record.files)
    requires record.saved == map[] && record.digest == ManifestDigest(record.files) && record.fingerprint == c.fingerprint
    ensures var w := j.(seal := Some(record), accepted := Some(record.files));
      Invariant(c, Halted(w)) &&
      Invariant(c, w.(owner := Some(Owner(record, Sources(j.artifacts, record.files), record.files, {}))))
  {
    var w := j.(seal := Some(record), accepted := Some(record.files));
    assert SealSound(c, w);
    HaltKeepsStore(w);
  }

  /** A request that continues an interrupted sealing has brought the list of the seal record. */
  lemma SameList(j: Job, a: seq<Entry>, b: seq<Entry>)
    requires NamesSound(j.artifacts) && ListSound(j.artifacts, a) && ListSound(j.artifacts, b)
    requires Ordered(a) && Ordered(b) && ManifestDigest(a) == ManifestDigest(b)
    ensures a == b
  {
    forall e | e in a || e in b ensures Nameable(e) {
      if e in a {
        var i :| 0 <= i < |a| && a[i] == e;
        assert EntrySound(j.artifacts, a[i]);
      } else {
        var i :| 0 <= i < |b| && b[i] == e;
        assert EntrySound(j.artifacts, b[i]);
      }
    }
    ManifestDigestUnique(a, b);
    SortedFixes(a);
    SortedFixes(b);
  }

  /** A signed file that is added leaves what is said of the others. */
  lemma SignedGrows(c: Config, list: seq<Entry>, signed: Files, id: Text, content: Bytes)
    requires id !in signed
    ensures forall k, e :: SavedAt(c, list, signed, k, e) ==> SavedAt(c, list, signed[id := content], k, e)
    ensures forall e, f :: FinalAt(c, signed, e, f) ==> FinalAt(c, signed[id := content], e, f)
  {
  }

  lemma PublishKeepsOwner(
      c: Config, artifacts: Artifacts, signed: Files, w: Owner, seal: Seal, id: Text, content: Bytes)
    requires OwnerAt(c, artifacts, signed, w, seal) && id !in signed
    ensures OwnerAt(c, artifacts, signed[id := content], w, seal)
  {
    SignedGrows(c, w.record.files, signed, id, content);
  }

  lemma PublishKeepsSeal(c: Config, j: Job, id: Text, content: Bytes)
    requires SealSound(c, j) && j.accepted.Some? && id !in j.signed && SignedAt(c, j.files, j.accepted.value, id, content)
    ensures SealSound(c, j.(signed := j.signed[id := content]))
  {
    var list, grown := j.accepted.value, j.signed[id := content];
    if j.seal.Some? { RecordGrows(c, list, j.signed, id, content, j.seal.value); }
    if j.manifest.Some? { ManifestGrows(c, list, j.signed, id, content, j.manifest.value); }
    assert forall k :: k in grown ==> SignedAt(c, j.files, list, k, grown[k]);
  }

  lemma RecordGrows(c: Config, list: seq<Entry>, signed: Files, id: Text, content: Bytes, record: Seal)
    requires RecordSound(c, signed, list, record) && id !in signed
    ensures RecordSound(c, signed[id := content], list, record)
  {
    SignedGrows(c, list, signed, id, content);
  }

  lemma ManifestGrows(c: Config, list: seq<Entry>, signed: Files, id: Text, content: Bytes, m: Manifest)
    requires ManifestSound(c, signed, list, m) && id !in signed
    ensures ManifestSound(c, signed[id := content], list, m)
  {
    SignedGrows(c, list, signed, id, content);
  }

  lemma PublishKeeps(c: Config, j: Job, i: nat, content: Bytes, v: Job)
    requires Invariant(c, j) && j.up && PublishStep(j, c, i, content, v)
    ensures Invariant(c, v)
  {
    var w := j.owner.value;
    var e := w.record.files[i];
    assert EntrySound(j.artifacts, e);
    assert SignedAt(c, j.files, w.record.files, e.id, content);
    PublishKeepsSeal(c, j, e.id, content);
    PublishKeepsOwner(c, j.artifacts, j.signed, w, j.seal.value, e.id, content);
  }

  /** A saved entry is added for a listed package whose signed file is there. */
  lemma SavingKeeps(c: Config, signed: Files, record: Seal, i: nat)
    requires SavedSound(c, signed, record) && i < |record.files|
    requires record.files[i].id in signed && Signable(c, record.files[i])
    ensures var e := record.files[i];
            SavedSound(c, signed, record.(saved := record.saved[e.id := EntryOf(e, signed[e.id])]))
  {
    var e := record.files[i];
    assert SavedAt(c, record.files, signed, e.id, EntryOf(e, signed[e.id]));
  }

  /** The sealing request's memory after a task has prepared its entry, before and after the entry is
      saved on disk. */
  lemma RecordKeepsOwner(c: Config, artifacts: Artifacts, signed: Files, w: Owner, seal: Seal, i: nat)
    requires OwnerAt(c, artifacts, signed, w, seal) && i < |w.final|
    requires Signable(c, w.record.files[i]) && w.record.files[i].id in signed
    requires var e := w.record.files[i];
      e.id in w.record.saved ==> w.record.saved[e.id] == EntryOf(e, signed[e.id])
    ensures var e := w.record.files[i];
      var prepared := EntryOf(e, signed[e.id]);
      var u := w.(record := w.record.(saved := w.record.saved[e.id := prepared]), final := w.final[i := prepared]);
      OwnerAt(c, artifacts, signed, u, seal) &&
      OwnerAt(c, artifacts, signed, u.(recorded := u.recorded + {i}), u.record)
  {
    SavingKeeps(c, signed, w.record, i);
  }

  lemma RecordKeepsSeal(c: Config, j: Job, record: Seal)
    requires SealSound(c, j) && j.seal.Some? && RecordSound(c, j.signed, j.seal.value.files, record)
    ensures SealSound(c, j.(seal := Some(record)))
  {
  }

  lemma RecordKeeps(c: Config, j: Job, i: nat, o: Outcome, v: Job)
    requires Invariant(c, j) && j.up && RecordStep(j, c, i, o, v)
    ensures Invariant(c, v)
  {
    if v != j { SavedKeeps(c, j, i, o, v); }
  }

  /** What a task has prepared is sound in the request's memory, and in the seal record once it is saved. */
  lemma SavedIsSound(c: Config, j: Job, i: nat)
    requires SealSound(c, j) && OwnerSound(c, j) && Signing(j, c, i)
    requires var w := j.owner.value;
      var e := w.record.files[i];
      e.id in j.signed && (e.id in w.record.saved ==> w.record.saved[e.id] == EntryOf(e, j.signed[e.id]))
    ensures var w := j.owner.value;
      var e := w.record.files[i];
      var record := w.record.(saved := w.record.saved[e.id := EntryOf(e, j.signed[e.id])]);
      var u := w.(record := record, final := w.final[i := EntryOf(e, j.signed[e.id])]);
      OwnerAt(c, j.artifacts, j.signed, u, j.seal.value) &&
      OwnerAt(c, j.artifacts, j.signed, u.(recorded := u.recorded + {i}), record) &&
      SealSound(c, j.(seal := Some(record)))
  {
    var w := j.owner.value;
    var e := w.record.files[i];
    var record := w.record.(saved := w.record.saved[e.id := EntryOf(e, j.signed[e.id])]);
    RecordKeepsOwner(c, j.artifacts, j.signed, w, j.seal.value, i);
    assert RecordSound(c, j.signed, j.seal.value.files, record);
    RecordKeepsSeal(c, j, record);
  }

  /** The seal record and the request's memory may change to sound ones. */
  lemma SealingKeeps(c: Config, j: Job, record: Seal, w: Owner)
    requires Invariant(c, j) && j.up && j.owner.Some? && SealSound(c, j.(seal := Some(record)))
    requires OwnerAt(c, j.artifacts, j.signed, w, record)
    ensures Invariant(c, j.(seal := Some(record), owner := Some(w)))
  {
  }

  lemma SealingHalts(c: Config, j: Job, record: Seal)
    requires Invariant(c, j) && SealSound(c, j.(seal := Some(record)))
    ensures Invariant(c, Halted(j.(seal := Some(record))))
  {
    HaltKeepsStore(j);
  }

  lemma SavedKeeps(c: Config, j: Job, i: nat, o: Outcome, v: Job)
    requires Invariant(c, j) && j.up && RecordStep(j, c, i, o, v) && v != j
    ensures Invariant(c, v)
  {
    var w := j.owner.value;
    var e := w.record.files[i];
    var record := w.record.(saved := w.record.saved[e.id := EntryOf(e, j.signed[e.id])]);
    var u := w.(record := record, final := w.final[i := EntryOf(e, j.signed[e.id])]);
    SavedIsSound(c, j, i);
    match o
    case Done => SealingKeeps(c, j, record, u.(recorded := u.recorded + {i}));
    case Error =>
      assert j.(seal := Some(j.seal.value)) == j;
      SealingKeeps(c, j, j.seal.value, u);
    case Crash =>
      assert j.(seal := Some(j.seal.value)) == j;
      SealingHalts(c, j, j.seal.value);
      SealingHalts(c, j, record);
  }

  lemma PublishedKeeps(c: Config, j: Job)
    requires Invariant(c, j) && Prepared(j, c) && j.seal.Some?
    ensures SealSound(c, Published(j)) && SealSound(c, Published(j).(seal := None))
  {
    PublishedIsSound(c, j);
    assert j.accepted == Some(j.owner.value.record.files);
  }

  lemma PublishedIsSound(c: Config, j: Job)
    requires SealSound(c, j) && OwnerSound(c, j) && Prepared(j, c) && j.seal.Some?
    ensures ManifestSound(c, j.signed, j.owner.value.record.files, Published(j).manifest.value)
  {
    var w := j.owner.value;
    forall i | 0 <= i < |w.final| ensures FinalAt(c, j.signed, w.record.files[i], w.final[i]) {
      assert i in w.recorded || !Signable(c, w.record.files[i]);
    }
  }

  lemma EndKeeps(c: Config, j: Job, done: bool, removed: bool, o: Outcome, v: Job)
    requires Invariant(c, j) && j.up && EndStep(j, c, done, removed, o, v)
    ensures Invariant(c, v)
  {
    HaltKeepsStore(j);
    if done {
      PublishedKeeps(c, j);
      EndLeavesStore(c, j, removed, o, v);
    }
  }

  lemma EndLeavesStore(c: Config, j: Job, removed: bool, o: Outcome, v: Job)
    requires j.up && EndStep(j, c, true, removed, o, v)
    ensures v.owner == None && (v.up ==> v.sessions == j.sessions) && (!v.up ==> v.sessions == map[])
    ensures v.artifacts == j.artifacts && v.files == j.files && v.log == j.log && v.body == j.body
    ensures v.accepted == j.accepted && v.signed == j.signed
    ensures (v.manifest, v.seal) == (j.manifest, j.seal) ||
            (v.manifest == Published(j).manifest && (v.seal == j.seal || v.seal.None?))
  {
  }

  lemma StoreStepKeeps(c: Config, j: Job, step: Step, v: Job)
    requires Invariant(c, j) && Next(c, j, step, v) && !Seals(step)
    ensures Invariant(c, v)
  {
    StoreStepKeepsStore(c, j, step, v);
    StoreStepFreezes(c, j, step, v);
  }

  lemma SealStepKeeps(c: Config, j: Job, step: Step, v: Job)
    requires Invariant(c, j) && Next(c, j, step, v) && Seals(step)
    ensures Invariant(c, v)
  {
    match step
    case BeginSeal(runner, files, o) =>
      SortedIsOrdered(files);
      SealKeeps(c, j, runner, Sorted(files), o, v);
    case Publish(i, content) => PublishKeeps(c, j, i, content, v);
    case Record(i, o) => RecordKeeps(c, j, i, o, v);
    case EndSeal(done, removed, o) => EndKeeps(c, j, done, removed, o, v);
  }

  lemma StepKeeps(c: Config, j: Job, step: Step, v: Job)
    requires Invariant(c, j) && Next(c, j, step, v)
    ensures Invariant(c, v)
  {
    if Seals(step) {
      SealStepKeeps(c, j, step, v);
    } else {
      StoreStepKeeps(c, j, step, v);
    }
  }

  // ----- nothing committed is ever lost or changed -----

  /** Artifacts keep their declared metadata, and completed ones stay completed. */
  ghost predicate Lasts(j: Artifacts, v: Artifacts) {
    forall id :: id in j ==>
      id in v && v[id].meta == j[id].meta && v[id].key == j[id].key && (j[id].state.Completed? ==> v[id].state.Completed?)
  }

  /** Files stay as they are. */
  ghost predicate Remain(j: Files, v: Files) {
    forall path :: path in j ==> path in v && v[path] == j[path]
  }

  lemma BeginPreserves(
      j: Job, s: nat, key: Text, m: Metadata, known: Option<Text>, full: bool, id: Text, o: Outcome, v: Job)
    requires ContentSound(j.artifacts, j.files) && BeginStep(j, s, key, m, known, full, id, o, v)
    ensures v.files == j.files && Lasts(j.artifacts, v.artifacts)
  {
    match BeginDecision(j, key, m, known, full)
    case Repair(k) => WritePreserves(j, k, j.artifacts[k].(state := Completed), o, v);
    case Restart(k) => StartPreserves(j, s, k, j.artifacts[k].(state := Pending), o, v);
    case Create => StartPreserves(j, s, id, Artifact(key, m, Pending), o, v);
    case _ =>
  }

  lemma WritePreserves(j: Job, id: Text, a: Artifact, o: Outcome, v: Job)
    requires WriteStep(j, id, a, o, v)
    requires id in j.artifacts ==>
      a.meta == j.artifacts[id].meta && a.key == j.artifacts[id].key &&
      (j.artifacts[id].state.Completed? ==> a.state.Completed?)
    ensures v.files == j.files && Lasts(j.artifacts, v.artifacts)
  {
  }

  lemma StartPreserves(j: Job, s: nat, id: Text, a: Artifact, o: Outcome, v: Job)
    requires StartStep(j, s, id, a, o, v)
    requires id in j.artifacts ==>
      a.meta == j.artifacts[id].meta && a.key == j.artifacts[id].key && !j.artifacts[id].state.Completed?
    ensures v.files == j.files && Lasts(j.artifacts, v.artifacts)
  {
    if o != Done { WritePreserves(j, id, a, o, v); }
  }

  lemma CompletePreserves(j: Job, s: nat, content: Bytes, o: Outcome, v: Job)
    requires SessionsSound(j.artifacts, j.files, j.sessions) && CompleteStep(j, s, content, o, v)
    ensures Remain(j.files, v.files) && Lasts(j.artifacts, v.artifacts)
  {
    var x := j.sessions[s];
    assert AtWork(j.artifacts, j.files, x);
    assert Remain(j.files, j.files[x.artifact.meta.path := content]);
    assert Lasts(j.artifacts, j.artifacts[x.id := x.artifact.(state := Completed)]);
  }

  lemma FailPreserves(j: Job, s: nat, o: Outcome, v: Job)
    requires SessionsSound(j.artifacts, j.files, j.sessions) && FailStep(j, s, o, v)
    ensures v.files == j.files && Lasts(j.artifacts, v.artifacts)
  {
    assert AtWork(j.artifacts, j.files, j.sessions[s]);
  }

  lemma LogCompletePreserves(j: Job, id: Text, stage: nat, o: Outcome, v: Job)
    requires LogSound(j.artifacts, j.files, j.log, j.body) && LogCompleteStep(j, id, stage, o, v)
    ensures Remain(j.files, v.files) && Lasts(j.artifacts, v.artifacts)
  {
  }

  lemma RecoverPreserves(j: Job, id: Text, o: Outcome, v: Job)
    requires NamesSound(j.artifacts) && ContentSound(j.artifacts, j.files) && RecoverStep(j, id, o, v)
    ensures v.files == j.files && Lasts(j.artifacts, v.artifacts)
  {
    var a := j.artifacts[id];
    assert LiveAt(j.artifacts, id, a.meta.path);
    if Verified(j.files, a.meta) {
      WritePreserves(j, id, a.(state := Completed), o, v);
    } else {
      assert j.(files := j.files - {a.meta.path}) == j;
      WritePreserves(j, id, a.(state := Failed), o, v);
    }
  }

  lemma SealStaysSealed(c: Config, j: Job, runner: Text, files: seq<Entry>, o: Outcome, v: Job)
    requires SealStep(j, c, runner, files, o, v)
    ensures (Sealed(j) ==> v.accepted == j.accepted) && v.signed == j.signed && v.manifest == j.manifest
    ensures v.artifacts == j.artifacts && v.files == j.files
  {
  }

  lemma PublishStaysSealed(c: Config, j: Job, i: nat, content: Bytes, v: Job)
    requires PublishStep(j, c, i, content, v)
    ensures v.accepted == j.accepted && Remain(j.signed, v.signed) && v.manifest == j.manifest
    ensures v.artifacts == j.artifacts && v.files == j.files
  {
  }

  lemma RecordStaysSealed(c: Config, j: Job, i: nat, o: Outcome, v: Job)
    requires RecordStep(j, c, i, o, v)
    ensures v.accepted == j.accepted && v.signed == j.signed && v.manifest == j.manifest
    ensures v.artifacts == j.artifacts && v.files == j.files
  {
  }

  lemma EndStaysSealed(c: Config, j: Job, done: bool, removed: bool, o: Outcome, v: Job)
    requires EndStep(j, c, done, removed, o, v)
    ensures v.accepted == j.accepted && v.signed == j.signed && (v.manifest == j.manifest || j.owner.Some?)
    ensures v.artifacts == j.artifacts && v.files == j.files
  {
  }

  lemma SealStepLeavesStore(c: Config, j: Job, step: Step, v: Job)
    requires Next(c, j, step, v) && Seals(step)
    ensures v.files == j.files && v.artifacts == j.artifacts
  {
    match step
    case BeginSeal(runner, files, o) => SealStaysSealed(c, j, runner, Sorted(files), o, v);
    case Publish(i, content) => PublishStaysSealed(c, j, i, content, v);
    case Record(i, o) => RecordStaysSealed(c, j, i, o, v);
    case EndSeal(done, removed, o) => EndStaysSealed(c, j, done, removed, o, v);
  }

  lemma LogRecoverPreserves(j: Job, o: Outcome, v: Job)
    requires LogRecoverStep(j, o, v)
    ensures v.files == j.files && Lasts(j.artifacts, v.artifacts)
  {
    LogRecoverTouches(j, o, v);
    LogRecoveredTouches(j);
  }

  lemma SendPreserves(c: Config, j: Job, step: Step, v: Job)
    requires StoreSound(j) && Next(c, j, step, v) && Sends(step)
    ensures Remain(j.files, v.files) && Lasts(j.artifacts, v.artifacts)
  {
    match step
    case Begin(s, key, m, known, full, id, o) => BeginPreserves(j, s, key, m, known, full, id, o, v);
    case Complete(s, content, o) => CompletePreserves(j, s, content, o, v);
    case AskCommitted(s) =>
    case Fail(s, o) => FailPreserves(j, s, o, v);
  }

  lemma StoreStepPreserves(c: Config, j: Job, step: Step, v: Job)
    requires StoreSound(j) && Next(c, j, step, v) && !Seals(step)
    ensures Remain(j.files, v.files) && Lasts(j.artifacts, v.artifacts)
  {
    if Sends(step) { SendPreserves(c, j, step, v); return; }
    match step
    case CompleteLog(id, stage, o) => LogCompletePreserves(j, id, stage, o, v);
    case Recover(id, o) => RecoverPreserves(j, id, o, v);
    case RecoverLog(o) => LogRecoverPreserves(j, o, v);
    case _ =>
  }

  lemma StepPreserves(c: Config, j: Job, step: Step, v: Job)
    requires StoreSound(j) && Next(c, j, step, v)
    ensures Remain(j.files, v.files) && Lasts(j.artifacts, v.artifacts)
  {
    if Seals(step) {
      SealStepLeavesStore(c, j, step, v);
    } else {
      StoreStepPreserves(c, j, step, v);
    }
  }

  /** A sealed job stays as it is, keeps its list, its signed files and, once written, its manifest. */
  ghost predicate StaysSealed(j: Job, v: Job) {
    Sealed(v) && v.artifacts == j.artifacts && v.files == j.files && v.accepted == j.accepted && Remain(j.signed, v.signed) &&
    (j.manifest.Some? ==> v.manifest == j.manifest)
  }

  lemma SealStepStaysSealed(c: Config, j: Job, step: Step, v: Job)
    requires Sealed(j) && (j.owner.Some? ==> j.manifest.None?) && Next(c, j, step, v) && Seals(step)
    ensures v.accepted == j.accepted && Remain(j.signed, v.signed) && (j.manifest.Some? ==> v.manifest == j.manifest)
  {
    match step
    case BeginSeal(runner, files, o) => SealStaysSealed(c, j, runner, Sorted(files), o, v);
    case Publish(i, content) => PublishStaysSealed(c, j, i, content, v);
    case Record(i, o) => RecordStaysSealed(c, j, i, o, v);
    case EndSeal(done, removed, o) => EndStaysSealed(c, j, done, removed, o, v);
  }

  lemma StepStaysSealed(c: Config, j: Job, step: Step, v: Job)
    requires Invariant(c, j) && Sealed(j) && Next(c, j, step, v)
    ensures StaysSealed(j, v) && NoPending(v.artifacts)
  {
    StepKeeps(c, j, step, v);
    if Seals(step) {
      SealStepLeavesStore(c, j, step, v);
      SealStepStaysSealed(c, j, step, v);
    } else {
      StoreStepFreezes(c, j, step, v);
    }
  }

  lemma SealedHasList(c: Config, j: Job)
    requires Invariant(c, j) && Sealed(j)
    ensures j.accepted.Some? && NoPending(j.artifacts)
  {
  }

  // ----- the promises, over every run -----

  ghost predicate Steps(c: Config, run: seq<Job>, steps: seq<Step>, i: nat)
    requires |run| == |steps| + 1 && i < |steps|
  {
    Next(c, run[i], steps[i], run[i + 1])
  }

  ghost predicate IsRun(c: Config, run: seq<Job>, steps: seq<Step>) {
    |run| == |steps| + 1 && run[0] == EMPTY && forall i: nat :: i < |steps| ==> Steps(c, run, steps, i)
  }

  lemma {:induction false} InvariantHolds(c: Config, run: seq<Job>, steps: seq<Step>, i: nat)
    requires IsRun(c, run, steps) && i < |run|
    ensures Invariant(c, run[i])
    decreases i
  {
    if i > 0 {
      InvariantHolds(c, run, steps, i - 1);
      assert Steps(c, run, steps, i - 1);
      StepKeeps(c, run[i - 1], steps[i - 1], run[i]);
    }
  }

  lemma CompletedIsThere(c: Config, j: Job, id: Text)
    requires Invariant(c, j) && id in j.artifacts && j.artifacts[id].state.Completed?
    ensures Verified(j.files, j.artifacts[id].meta)
  {
  }

  lemma StepKeepsCompleted(c: Config, j: Job, step: Step, v: Job, id: Text)
    requires Invariant(c, j) && Next(c, j, step, v) && id in j.artifacts && j.artifacts[id].state.Completed?
    ensures id in v.artifacts && v.artifacts[id] == j.artifacts[id] && Verified(v.files, j.artifacts[id].meta)
  {
    StepKeeps(c, j, step, v);
    StepPreserves(c, j, step, v);
    CompletedIsThere(c, v, id);
  }

  /** Completed artifacts keep their path, size and hash, and their content is there, for ever: before
      and after sealing, whatever retries, late failure reports, process stops and starts happen. */
  lemma {:induction false} CompletedForEver(c: Config, run: seq<Job>, steps: seq<Step>, i: nat, j: nat, id: Text)
    requires IsRun(c, run, steps) && i <= j < |run|
    requires id in run[i].artifacts && run[i].artifacts[id].state.Completed?
    ensures id in run[j].artifacts && run[j].artifacts[id] == run[i].artifacts[id]
    ensures Verified(run[j].files, run[i].artifacts[id].meta)
    decreases j
  {
    if i == j {
      InvariantHolds(c, run, steps, i);
      CompletedIsThere(c, run[i], id);
    } else {
      CompletedForEver(c, run, steps, i, j - 1, id);
      InvariantHolds(c, run, steps, j - 1);
      assert Steps(c, run, steps, j - 1);
      StepKeepsCompleted(c, run[j - 1], steps[j - 1], run[j], id);
    }
  }

  /** Freeze: from the moment the seal record is written, nothing of the job is pending, and no artifact
      and no file is added, changed or removed. */
  lemma {:induction false} SealedForEver(c: Config, run: seq<Job>, steps: seq<Step>, i: nat, j: nat)
    requires IsRun(c, run, steps) && i <= j < |run| && Sealed(run[i])
    ensures StaysSealed(run[i], run[j]) && NoPending(run[j].artifacts)
    decreases j
  {
    if i == j {
      InvariantHolds(c, run, steps, j);
      SealedHasList(c, run[j]);
    } else {
      SealedForEver(c, run, steps, i, j - 1);
      InvariantHolds(c, run, steps, j - 1);
      assert Steps(c, run, steps, j - 1);
      StepStaysSealed(c, run[j - 1], steps[j - 1], run[j]);
    }
  }

  /** Every file of the accepted list stays a completed artifact with that path, size and hash. */
  lemma ListedStaysCompleted(c: Config, run: seq<Job>, steps: seq<Step>, i: nat, j: nat, e: Entry)
    requires IsRun(c, run, steps) && i <= j < |run| && run[i].seal.Some? && e in run[i].seal.value.files
    ensures EntrySound(run[j].artifacts, e) && e.path in run[j].files && Matches(run[j].files[e.path], e.size, e.sum)
  {
    InvariantHolds(c, run, steps, i);
    SealedForEver(c, run, steps, i, j);
    assert EntrySound(run[i].artifacts, e);
    CompletedForEver(c, run, steps, i, j, e.id);
  }

  /** A job gets at most one manifest, and its upload digest is that of the first accepted list. */
  lemma OneManifest(c: Config, run: seq<Job>, steps: seq<Step>, i: nat, j: nat)
    requires IsRun(c, run, steps) && i <= j < |run| && Sealed(run[i]) && run[j].manifest.Some?
    ensures run[i].seal.Some? ==>
      run[j].manifest.value.uploadDigest == run[i].seal.value.digest == ManifestDigest(run[i].seal.value.files)
    ensures run[i].manifest.Some? ==> run[j].manifest == run[i].manifest
  {
    InvariantHolds(c, run, steps, i);
    InvariantHolds(c, run, steps, j);
    SealedForEver(c, run, steps, i, j);
  }

  /** Once a job is sealed, a request gets the digest of its seal, or its manifest, exactly when it brings
      the entries of the accepted list, in whatever order. */
  lemma SameEntriesSameManifest(c: Config, run: seq<Job>, steps: seq<Step>, i: nat, files: seq<Entry>)
    requires IsRun(c, run, steps) && i < |run| && run[i].accepted.Some?
    requires forall e :: e in files ==> Nameable(e)
    ensures run[i].seal.Some? ==>
      (run[i].seal.value.digest == ManifestDigest(files) <==> multiset(files) == multiset(run[i].accepted.value))
    ensures run[i].manifest.Some? ==>
      (run[i].manifest.value.uploadDigest == ManifestDigest(files) <==> multiset(files) == multiset(run[i].accepted.value))
  {
    InvariantHolds(c, run, steps, i);
    var list := run[i].accepted.value;
    forall e | e in list ensures Nameable(e) {
      var k :| 0 <= k < |list| && list[k] == e;
      assert EntrySound(run[i].artifacts, list[k]);
    }
    ManifestDigestExact(list, files);
  }

  /** Every signed entry saved in the seal record appears unchanged in the manifest. */
  lemma SavedEntriesArePublished(c: Config, run: seq<Job>, steps: seq<Step>, i: nat, j: nat, id: Text)
    requires IsRun(c, run, steps) && i <= j < |run| && run[j].manifest.Some?
    requires run[i].seal.Some? && id in run[i].seal.value.saved
    ensures run[i].seal.value.saved[id] in run[j].manifest.value.files
  {
    InvariantHolds(c, run, steps, i);
    InvariantHolds(c, run, steps, j);
    SealedForEver(c, run, steps, i, j);
    var list, e := run[i].accepted.value, run[i].seal.value.saved[id];
    assert SavedAt(c, list, run[i].signed, id, e);
    var k :| 0 <= k < |list| && list[k].id == id && Signable(c, list[k]) && e == EntryOf(list[k], run[i].signed[id]);
    assert FinalAt(c, run[j].signed, list[k], run[j].manifest.value.files[k]);
  }

  /** What is served for file number k of the manifest: the signed package or the upload. */
  function Served(c: Config, j: Job, e: Entry): Option<Bytes> {
    if Signable(c, e) then (if e.id in j.signed then Some(j.signed[e.id]) else None)
    else if e.path in j.files then Some(j.files[e.path]) else None
  }

  /** The manifest describes the served content exactly, and a signed package is the uploaded one. */
  lemma ManifestDescribesContent(c: Config, run: seq<Job>, steps: seq<Step>, i: nat, k: nat)
    requires IsRun(c, run, steps) && i < |run| && run[i].manifest.Some? && k < |run[i].manifest.value.files|
    ensures var e := run[i].manifest.value.files[k];
      Served(c, run[i], e).Some? && Matches(Served(c, run[i], e).value, e.size, e.sum) &&
      e.path in run[i].files && (Signable(c, e) ==> c.identity(Served(c, run[i], e).value) == c.identity(run[i].files[e.path]))
  {
    InvariantHolds(c, run, steps, i);
    var list := run[i].accepted.value;
    assert EntrySound(run[i].artifacts, list[k]);
    assert FinalAt(c, run[i].signed, list[k], run[i].manifest.value.files[k]);
    if Signable(c, list[k]) {
      var n :| 0 <= n < |list| && list[n].id == list[k].id && list[n].path in run[i].files &&
               c.identity(run[i].signed[list[k].id]) == c.identity(run[i].files[list[n].path]);
      assert n == k;
    }
  }

  /** Two requests never work for the same artifact, and a request that may still report a failure has
      an artifact that is pending and without content. */
  lemma RequestsAreAlone(c: Config, run: seq<Job>, steps: seq<Step>, i: nat, s: nat, t: nat)
    requires IsRun(c, run, steps) && i < |run| && s in run[i].sessions && t in run[i].sessions
    ensures run[i].sessions[s].id == run[i].sessions[t].id ==> s == t
    ensures !run[i].sessions[s].stage.Refused? ==>
      var id := run[i].sessions[s].id;
      id in run[i].artifacts && run[i].artifacts[id].state.Pending? && run[i].artifacts[id].meta.path !in run[i].files
  {
    InvariantHolds(c, run, steps, i);
    assert AtWork(run[i].artifacts, run[i].files, run[i].sessions[s]);
  }
}
