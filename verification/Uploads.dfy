/** The uploads of one job and their sealing as a transition system: each step is one lock section, one
    file operation, a process stop, or a step of a process start. */
module Uploads {
  import opened Core
  import opened ManifestText

  datatype Metadata = Metadata(
    category: Category, fileName: Text, path: Text, contentType: Text, size: int, sum: Digest)

  datatype State = Pending | Completed | Failed

  /** An artifact's metadata file. The log artifact has no idempotency key. */
  datatype Artifact = Artifact(key: Text, meta: Metadata, state: State)

  /** The live log's metadata file, as far as it concerns artifacts. */
  datatype LogMeta = Open | Finalizing(id: Text) | Finished(id: Text) | Broken

  datatype Seal = Seal(runner: Text, files: seq<Entry>, digest: Digest, fingerprint: Text, saved: map<Text, Entry>)

  datatype Manifest = Manifest(
    runner: Text, files: seq<Entry>, digest: Digest, uploadDigest: Digest, fingerprint: Text)

  /** Where an upload request is: receiving its body, told by the store that completing failed, or
      told that its content was not committed. */
  datatype Stage = Copying | Refused | Failing

  /** An upload request holds its own copy of the artifact's metadata. */
  datatype Session = Session(id: Text, artifact: Artifact, stage: Stage)

  /** The request that is sealing the job: its seal record, the artifacts it validated, the list it is
      preparing, and the signing tasks that have succeeded. */
  datatype Owner = Owner(record: Seal, sources: seq<Artifact>, final: seq<Entry>, recorded: set<nat>)

  datatype Job = Job(
    up: bool,
    artifacts: map<Text, Artifact>, files: map<Text, Bytes>, log: LogMeta, body: Option<Bytes>,
    seal: Option<Seal>, manifest: Option<Manifest>, signed: map<Text, Bytes>,
    sessions: map<nat, Session>, owner: Option<Owner>,
    accepted: Option<seq<Entry>>)   // bookkeeping of the proof: the list of the first seal record

  /** The signing key, and what rpm reports of a package apart from its signature. */
  datatype Config = Config(fingerprint: Text, identity: Bytes -> Option<Text>)

  const LOG_PATH: Text := Ascii("logs/container.log")

  function Under(name: string): Text { Ascii(name) + [47] }

  /** Paths that the store keeps for itself. */
  predicate Reserved(path: Text) {
    path in {Ascii(".artifacts"), Ascii(".manifest.json"), Ascii(".seal.json"), Ascii(".uploads"),
             Ascii(".quarantine"), Ascii(".signed"), Ascii(".signing"), Ascii("logs"), LOG_PATH,
             Ascii("logs/combined.log"), Ascii("logs/.combined.json"), Ascii("logs/.combined.index.jsonl")} ||
    Under(".artifacts") <= path || Under(".manifest.json") <= path || Ascii(".manifest.json.tmp-") <= path ||
    Under(".seal.json") <= path || Ascii(".seal.json.tmp-") <= path || Under(".uploads") <= path ||
    Under(".quarantine") <= path || Under(".signed") <= path || Under(".signing") <= path ||
    Under("logs/combined.log") <= path || Ascii("logs/combined.log.tmp-") <= path ||
    Under("logs/container.log") <= path || Ascii("logs/container.log.tmp-") <= path ||
    Under("logs/.combined.json") <= path || Ascii("logs/.combined.json.tmp-") <= path ||
    Under("logs/.combined.index.jsonl") <= path || Ascii("logs/.combined.index.jsonl.tmp-") <= path
  }

  predicate EndsWithRpm(path: Text) {
    |path| >= 4 &&
    var n := |path| - 4;
    path[n] == 46 && Lower(path[n + 1]) == 114 && Lower(path[n + 2]) == 112 && Lower(path[n + 3]) == 109
  }

  /** Only packages are signed, and only when a key is configured. */
  predicate Signable(c: Config, e: Entry) {
    c.fingerprint != [] && e.category.ArtifactFile? && Ascii("packages/") <= e.path && EndsWithRpm(e.path)
  }

  predicate Live(a: Artifact) {
    a.state.Pending? || a.state.Completed?
  }

  predicate Matches(content: Bytes, size: int, sum: Digest) {
    |content| == size && Sha256(content) == sum
  }

  /** The committed file is there with the declared size and hash. */
  predicate Verified(files: map<Text, Bytes>, m: Metadata) {
    m.path in files && Matches(files[m.path], m.size, m.sum)
  }

  predicate Sealed(j: Job) {
    j.seal.Some? || j.manifest.Some?
  }

  /** The entry of a signed package: the upload's, with the signed file's size and hash. */
  function EntryOf(e: Entry, content: Bytes): Entry {
    e.(size := |content|, sum := Sha256(content))
  }

  function Halted(j: Job): Job {
    j.(up := false, sessions := map[], owner := None)
  }

  // ----- uploads -----

  function Wrote(j: Job, id: Text, a: Artifact): Job {
    j.(artifacts := j.artifacts[id := a])
  }

  predicate WriteStep(j: Job, id: Text, a: Artifact, o: Outcome, v: Job) {
    match o
    case Done => v == Wrote(j, id, a)
    case Error => v == j
    case Crash => v == Halted(j) || v == Halted(Wrote(j, id, a))
  }

  /** The artifact that has the idempotency key; two of them are an error. */
  ghost predicate Holds(j: Job, key: Text, known: Option<Text>) {
    (known.Some? ==> known.value in j.artifacts && j.artifacts[known.value].key == key) &&
    forall id :: id in j.artifacts && j.artifacts[id].key == key ==> known == Some(id)
  }

  /** Another live artifact has the path. */
  ghost predicate Conflict(j: Job, own: Option<Text>, path: Text) {
    exists id :: id in j.artifacts && Some(id) != own && Live(j.artifacts[id]) && j.artifacts[id].meta.path == path
  }

  datatype Decision = Refuse(code: string) | Replay(id: Text) | Repair(id: Text) | Restart(id: Text) | Create

  ghost function BeginDecision(j: Job, key: Text, m: Metadata, known: Option<Text>, full: bool): Decision
    requires known.Some? ==> known.value in j.artifacts
  {
    if 0 in m.path then Refuse("invalid relative path")
    else if Reserved(m.path) then Refuse("reserved path")
    else if Sealed(j) then
      if known.Some? && j.artifacts[known.value].meta == m && j.artifacts[known.value].state.Completed? && Verified(j.files, m)
      then Replay(known.value)
      else Refuse(if j.manifest.Some? then "ManifestAlreadyCompleted" else "ManifestSealing")
    else OpenDecision(j, m, known, full)
  }

  /** The answer while the job is not sealed. */
  ghost function OpenDecision(j: Job, m: Metadata, known: Option<Text>, full: bool): Decision
    requires known.Some? ==> known.value in j.artifacts
  {
    if known.Some? then
      if j.artifacts[known.value].meta != m then Refuse("IdempotencyConflict")
      else if Verified(j.files, m) then Repair(known.value)
      else if j.artifacts[known.value].state.Pending? then Refuse("UploadInProgress")
      else if Conflict(j, known, m.path) then Refuse("ArtifactPathConflict")
      else Restart(known.value)
    else if Conflict(j, None, m.path) then Refuse("ArtifactPathConflict")
    else if full then Refuse("JobQuotaExceeded")
    else Create
  }

  /** A request that is told to send its content. */
  predicate StartStep(j: Job, s: nat, id: Text, a: Artifact, o: Outcome, v: Job) {
    if o == Done then v == Wrote(j, id, a).(sessions := j.sessions[s := Session(id, a, Copying)])
    else WriteStep(j, id, a, o, v)
  }

  ghost predicate BeginStep(
      j: Job, s: nat, key: Text, m: Metadata, known: Option<Text>, full: bool, id: Text, o: Outcome, v: Job) {
    key != [] && Holds(j, key, known) && s !in j.sessions && id !in j.artifacts && 0 !in id &&
    match BeginDecision(j, key, m, known, full)
    case Repair(k) => WriteStep(j, k, j.artifacts[k].(state := Completed), o, v)
    case Restart(k) => StartStep(j, s, k, j.artifacts[k].(state := Pending), o, v)
    case Create => StartStep(j, s, id, Artifact(key, m, Pending), o, v)
    case _ => v == j
  }

  function Staged(j: Job, s: nat, stage: Stage): Job
    requires s in j.sessions
  {
    j.(sessions := j.sessions[s := j.sessions[s].(stage := stage)])
  }

  function Gone(j: Job, s: nat): Job {
    j.(sessions := j.sessions - {s})
  }

  function Placed(j: Job, path: Text, content: Bytes): Job {
    j.(files := j.files[path := content])
  }

  /** A received body is renamed into place, then the artifact is recorded as completed. */
  predicate CompleteStep(j: Job, s: nat, content: Bytes, o: Outcome, v: Job) {
    s in j.sessions && j.sessions[s].stage.Copying? &&
    var id, a := j.sessions[s].id, j.sessions[s].artifact;
    Matches(content, a.meta.size, a.meta.sum) &&
    if Sealed(j) then v == Staged(j, s, Refused)
    else
      var p := Placed(j, a.meta.path, content);
      match o
      case Done => v == Gone(Wrote(p, id, a.(state := Completed)), s)
      case Error => v == Staged(j, s, Refused) || v == Staged(p, s, Refused)
      case Crash => v == Halted(j) || v == Halted(p) || v == Halted(Wrote(p, id, a.(state := Completed)))
  }

  /** A refused request asks whether its content is there after all. */
  predicate CommittedStep(j: Job, s: nat, v: Job) {
    s in j.sessions && j.sessions[s].stage.Refused? &&
    v == if Verified(j.files, j.sessions[s].artifact.meta) then Gone(j, s) else Staged(j, s, Failing)
  }

  /** A failed request marks its artifact failed, whatever has happened to it since. */
  predicate FailStep(j: Job, s: nat, o: Outcome, v: Job) {
    s in j.sessions && !j.sessions[s].stage.Refused? &&
    var id, a := j.sessions[s].id, j.sessions[s].artifact.(state := Failed);
    match o
    case Done => v == Gone(Wrote(j, id, a), s)
    case Error => v == Gone(j, s)
    case Crash => v == Halted(j) || v == Halted(Wrote(j, id, a))
  }

  // ----- the log artifact -----

  function LogArtifact(content: Bytes, state: State): Artifact {
    Artifact([], Metadata(LogFile, Ascii("container.log"), LOG_PATH, Ascii("text/plain"), |content|, Sha256(content)), state)
  }

  predicate LogGrows(j: Job, data: Bytes, v: Job) {
    j.log.Open? && v == j.(body := Some((if j.body.Some? then j.body.value else []) + data))
  }

  /** The job after the first `stage` file operations of completing the log. */
  function LogCompleting(j: Job, id: Text, stage: nat): Job {
    var content := if j.body.Some? then j.body.value else [];
    j.(artifacts := if stage < 1 then j.artifacts
                    else j.artifacts[id := LogArtifact(content, if stage < 4 then Pending else Completed)],
       log := if stage < 2 then j.log else if stage < 5 then Finalizing(id) else Finished(id),
       files := if stage < 3 then j.files else j.files[LOG_PATH := content],
       body := if stage < 3 then Some(content) else None)
  }

  ghost predicate LogCompleteStep(j: Job, id: Text, stage: nat, o: Outcome, v: Job) {
    j.log.Open? && !Sealed(j) && id !in j.artifacts && 0 !in id &&
    (forall k :: k in j.artifacts && j.artifacts[k].meta.path == LOG_PATH ==> !j.artifacts[k].state.Completed?) &&
    match o
    case Done => v == LogCompleting(j, id, 5)
    case Error => stage < 5 && (v == j || v == LogCompleting(j, id, stage))
    case Crash => v == Halted(LogCompleting(j, id, stage)) || v == Halted(j)
  }

  /** Recovery of the log's metadata, at a start or when the log is next used. */
  function LogRecovered(j: Job): Job {
    match j.log
    case Finalizing(id) =>
      if id in j.artifacts && Verified(j.files, j.artifacts[id].meta) then
        Wrote(j, id, j.artifacts[id].(state := Completed)).(log := Finished(id))
      else if j.body.Some? then j.(log := Open) else j
    case Finished(id) =>
      if id in j.artifacts && Verified(j.files, j.artifacts[id].meta) then j else j.(log := Broken)
    case _ => j
  }

  predicate LogRecoverStep(j: Job, o: Outcome, v: Job) {
    var w := LogRecovered(j);
    match o
    case Done => v == w
    case Error => v == j || v == j.(artifacts := w.artifacts)
    case Crash => v == Halted(j) || v == Halted(j.(artifacts := w.artifacts)) || v == Halted(w)
  }

  lemma LogRecoveredTouches(j: Job)
    ensures var w := LogRecovered(j);
      w == j.(artifacts := w.artifacts, log := w.log) &&
      (w.artifacts == j.artifacts ||
       (j.log.Finalizing? && j.log.id in j.artifacts &&
        w.artifacts == j.artifacts[j.log.id := j.artifacts[j.log.id].(state := Completed)]))
  {
  }

  /** Wherever recovery of the log stops, the artifacts are as before or as recovered. */
  lemma LogRecoverTouches(j: Job, o: Outcome, v: Job)
    requires LogRecoverStep(j, o, v)
    ensures v.files == j.files && (v.artifacts == j.artifacts || v.artifacts == LogRecovered(j).artifacts)
    ensures v.seal == j.seal && v.manifest == j.manifest && v.signed == j.signed && v.accepted == j.accepted
  {
    LogRecoveredTouches(j);
  }

  // ----- start-up -----

  /** Recovery of one pending upload. Content that does not match is set aside. */
  predicate RecoverStep(j: Job, id: Text, o: Outcome, v: Job) {
    !j.up && id in j.artifacts && j.artifacts[id].key != [] && j.artifacts[id].state.Pending? &&
    var a := j.artifacts[id];
    if Verified(j.files, a.meta) then WriteStep(j, id, a.(state := Completed), o, v)
    else
      WriteStep(j, id, a.(state := Failed), o, v) ||
      WriteStep(j.(files := j.files - {a.meta.path}), id, a.(state := Failed), o, v)
  }

  ghost predicate BootStep(j: Job, v: Job) {
    !j.up && v == j.(up := true) &&
    forall id :: id in j.artifacts && j.artifacts[id].key != [] ==> !j.artifacts[id].state.Pending?
  }

  // ----- sealing -----

  type Artifacts = map<Text, Artifact>

  ghost predicate NoPending(artifacts: Artifacts) {
    forall id :: id in artifacts ==> !artifacts[id].state.Pending?
  }

  predicate EntrySound(artifacts: Artifacts, e: Entry) {
    e.id in artifacts &&
    var a := artifacts[e.id];
    a.state.Completed? && a.meta.path == e.path && a.meta.category == e.category &&
    a.meta.size == e.size && a.meta.sum == e.sum
  }

  /** The list names completed artifacts of the job, no path and no artifact twice. */
  predicate ListSound(artifacts: Artifacts, files: seq<Entry>) {
    |files| > 0 &&
    (forall i :: 0 <= i < |files| ==> EntrySound(artifacts, files[i])) &&
    (forall i, k :: 0 <= i < k < |files| ==> files[i].path != files[k].path && files[i].id != files[k].id)
  }

  function Sources(artifacts: Artifacts, files: seq<Entry>): seq<Artifact>
    requires forall i :: 0 <= i < |files| ==> files[i].id in artifacts
  {
    seq(|files|, i requires 0 <= i < |files| => artifacts[files[i].id])
  }

  ghost predicate MaySeal(j: Job, c: Config, files: seq<Entry>) {
    j.manifest.None? && (j.seal.Some? ==> j.seal.value.digest == ManifestDigest(files)) && j.owner.None? &&
    NoPending(j.artifacts) && ListSound(j.artifacts, files)
  }

  /** The first valid request writes the seal record; a later one with the same list takes it over. The
      list is given sorted by path. */
  ghost predicate SealStep(j: Job, c: Config, runner: Text, files: seq<Entry>, o: Outcome, v: Job) {
    if !MaySeal(j, c, files) then v == j
    else if j.seal.None? then
      var record := Seal(runner, files, ManifestDigest(files), c.fingerprint, map[]);
      var w := j.(seal := Some(record), accepted := Some(files));
      match o
      case Done => v == w.(owner := Some(Owner(record, Sources(j.artifacts, files), files, {})))
      case Error => v == j
      case Crash => v == Halted(j) || v == Halted(w)
    else if j.seal.value.fingerprint != c.fingerprint then v == j
    else v == j.(owner := Some(Owner(j.seal.value, Sources(j.artifacts, files), j.seal.value.files, {})))
  }

  /** The request is sealing, and its file number i is a package whose upload is intact. */
  predicate Signing(j: Job, c: Config, i: nat) {
    j.owner.Some? &&
    var w := j.owner.value;
    i < |w.record.files| && i < |w.sources| && i < |w.final| && Signable(c, w.record.files[i]) &&
    var e := w.record.files[i];
    w.sources[i].meta.path in j.files && Matches(j.files[w.sources[i].meta.path], e.size, e.sum) &&
    c.identity(j.files[w.sources[i].meta.path]).Some?
  }

  /** A signed copy of the same package is linked into place; a link never replaces a file. */
  predicate PublishStep(j: Job, c: Config, i: nat, content: Bytes, v: Job) {
    Signing(j, c, i) &&
    var e := j.owner.value.record.files[i];
    e.id !in j.signed && e.id !in j.owner.value.record.saved &&
    c.identity(content) == c.identity(j.files[j.owner.value.sources[i].meta.path]) &&
    v == j.(signed := j.signed[e.id := content])
  }

  /** The signed file's entry is saved in the seal record. */
  predicate RecordStep(j: Job, c: Config, i: nat, o: Outcome, v: Job) {
    Signing(j, c, i) &&
    var w := j.owner.value;
    var e := w.record.files[i];
    e.id in j.signed && c.identity(j.signed[e.id]) == c.identity(j.files[w.sources[i].meta.path]) &&
    var prepared := EntryOf(e, j.signed[e.id]);
    if e.id in w.record.saved && w.record.saved[e.id] != prepared then v == j
    else
      var record := w.record.(saved := w.record.saved[e.id := prepared]);
      var u := w.(record := record, final := w.final[i := prepared]);
      match o
      case Done => v == j.(seal := Some(record), owner := Some(u.(recorded := u.recorded + {i})))
      case Error => v == j.(owner := Some(u))
      case Crash => v == Halted(j) || v == Halted(j.(seal := Some(record)))
  }

  /** Every package task has succeeded and every file to be published has been read back. */
  ghost predicate Prepared(j: Job, c: Config) {
    j.owner.Some? &&
    var w := j.owner.value;
    |w.final| == |w.record.files| == |w.sources| &&
    (forall i :: 0 <= i < |w.final| && Signable(c, w.record.files[i]) ==> i in w.recorded) &&
    (forall i :: 0 <= i < |w.final| ==>
      var e := w.final[i];
      if Signable(c, w.record.files[i]) then e.id in j.signed && Matches(j.signed[e.id], e.size, e.sum)
      else w.sources[i].meta.path in j.files && Matches(j.files[w.sources[i].meta.path], e.size, e.sum))
  }

  function Published(j: Job): Job
    requires j.owner.Some?
  {
    var w := j.owner.value;
    j.(manifest := Some(Manifest(w.record.runner, w.final, ManifestDigest(w.final), w.record.digest, w.record.fingerprint)))
  }

  /** The sealing request ends: it publishes the manifest and removes the seal record, or gives up. */
  ghost predicate EndStep(j: Job, c: Config, done: bool, removed: bool, o: Outcome, v: Job) {
    j.owner.Some? &&
    if !done then v == j.(owner := None)
    else
      Prepared(j, c) && j.seal.Some? && j.seal.value.digest == j.owner.value.record.digest &&
      j.seal.value.fingerprint == c.fingerprint &&
      var w := Published(j);
      match o
      case Done => v == w.(owner := None, seal := if removed then None else w.seal)
      case Error => v == j.(owner := None)
      case Crash => v == Halted(j) || v == Halted(w) || v == Halted(w.(seal := None))
  }

  datatype Step =
    | Begin(s: nat, key: Text, meta: Metadata, known: Option<Text>, full: bool, id: Text, o: Outcome)
    | Complete(s: nat, content: Bytes, o: Outcome) | AskCommitted(s: nat) | Fail(s: nat, o: Outcome)
    | AppendLog(data: Bytes) | CompleteLog(id: Text, stage: nat, o: Outcome) | RecoverLog(o: Outcome)
    | BeginSeal(runner: Text, files: seq<Entry>, o: Outcome)
    | Publish(i: nat, content: Bytes) | Record(i: nat, o: Outcome) | EndSeal(done: bool, removed: bool, o: Outcome)
    | Halt | Recover(id: Text, o: Outcome) | Boot

  ghost predicate Next(c: Config, j: Job, step: Step, v: Job) {
    match step
    case Recover(id, o) => RecoverStep(j, id, o, v)
    case Boot => BootStep(j, v)
    case RecoverLog(o) => LogRecoverStep(j, o, v)
    case Begin(s, key, m, known, full, id, o) => j.up && BeginStep(j, s, key, m, known, full, id, o, v)
    case Complete(s, content, o) => j.up && CompleteStep(j, s, content, o, v)
    case AskCommitted(s) => j.up && CommittedStep(j, s, v)
    case Fail(s, o) => j.up && FailStep(j, s, o, v)
    case AppendLog(data) => j.up && LogGrows(j, data, v)
    case CompleteLog(id, stage, o) => j.up && LogCompleteStep(j, id, stage, o, v)
    case BeginSeal(runner, files, o) => j.up && SealStep(j, c, runner, Sorted(files), o, v)
    case Publish(i, content) => j.up && PublishStep(j, c, i, content, v)
    case Record(i, o) => j.up && RecordStep(j, c, i, o, v)
    case EndSeal(done, removed, o) => j.up && EndStep(j, c, done, removed, o, v)
    case Halt => v == Halted(j)
  }
}
