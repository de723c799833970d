/** The log store's files as the upload store of the job sees them: completing and recovering the log
    are the same steps in both models. */
module LogInJob {
  import opened Core
  import L = LogStore
  import U = Uploads
  import opened ManifestText

  /** The name of an artifact's metadata file. */
  type Naming = L.Id -> Text

  ghost predicate Distinct(name: Naming) {
    forall a, b :: name(a) == name(b) ==> a == b
  }

  function StateOf(l: L.LogStream, name: Naming): U.LogMeta {
    match l.state
    case Open => U.LogMeta.Open
    case Finalizing => if l.artifact.Some? then U.LogMeta.Finalizing(name(l.artifact.value)) else U.LogMeta.Broken
    case Completed => if l.artifact.Some? then U.LogMeta.Finished(name(l.artifact.value)) else U.LogMeta.Broken
    case Failed => U.LogMeta.Broken
  }

  /** The log artifact with a recorded size and hash. */
  function ArtifactOf(a: L.Artifact): U.Artifact {
    U.Artifact([], U.Metadata(LogFile, Ascii("container.log"), U.LOG_PATH, Ascii("text/plain"), a.size, a.sum),
               if a.completed then U.State.Completed else U.State.Pending)
  }

  // ----- what a job's upload store sees of the log files -----

  predicate StateShown(meta: Option<L.LogStream>, log: U.LogMeta, name: Naming) {
    log == if meta.Some? then StateOf(meta.value, name) else U.LogMeta.Open
  }

  /** The file behind the artifact, or the committed bytes. The bytes that an interrupted append has left
      behind are not seen. */
  predicate ContentShown(final: Option<Bytes>, committed: Bytes, files: map<Text, Bytes>, body: Option<Bytes>) {
    (U.LOG_PATH in files <==> final.Some?) &&
    if final.Some? then files[U.LOG_PATH] == final.value else BytesOf(body) == committed
  }

  predicate BodyShown(body: Option<Bytes>, log: U.LogMeta, seen: Option<Bytes>) {
    (log.Finalizing? ==> (seen.Some? <==> body.Some?)) && (log.Finished? ==> seen.None?)
  }

  ghost predicate ArtifactsShown(recorded: map<L.Id, L.Artifact>, seen: map<Text, U.Artifact>, name: Naming) {
    forall id :: id in recorded ==> name(id) in seen && seen[name(id)] == ArtifactOf(recorded[id])
  }

  function BytesOf(body: Option<Bytes>): Bytes {
    if body.Some? then body.value else []
  }

  ghost function Committed(d: L.Disk): Bytes
    requires L.Sound(d)
  {
    if d.meta.Some? then Flatten(L.Meaning(d).chunks) else []
  }

  ghost predicate Shows(d: L.Disk, j: U.Job, name: Naming)
    requires L.Sound(d)
  {
    StateShown(d.meta, j.log, name) && ContentShown(d.final, Committed(d), j.files, j.body) &&
    BodyShown(d.body, j.log, j.body) && ArtifactsShown(d.artifacts, j.artifacts, name)
  }

  // ----- completing -----

  lemma CompletionsShowArtifacts(d: L.Disk, j: U.Job, name: Naming, id: L.Id, stage: nat)
    requires d.meta.Some? && ArtifactsShown(d.artifacts, j.artifacts, name) && Distinct(name)
    requires BytesOf(j.body) == L.BodyBytes(d)
    ensures ArtifactsShown(L.Completing(d, id, stage + 1).artifacts, U.LogCompleting(j, name(id), stage).artifacts, name)
  {
    var content := L.BodyBytes(d);
    assert ArtifactOf(L.Artifact(|content|, Sha256(content), stage >= 4)) ==
           U.LogArtifact(content, if stage < 4 then U.State.Pending else U.State.Completed);
  }

  /** The writes of a completion, counted alike but for the creation of a missing body. */
  lemma CompletionsAgree(d: L.Disk, j: U.Job, name: Naming, id: L.Id, stage: nat)
    requires L.IsOpen(d) && L.Clean(d) && Shows(d, j, name) && Distinct(name) && stage <= 5
    ensures L.Sound(L.Completing(d, id, stage + 1))
    ensures Shows(L.Completing(d, id, stage + 1), U.LogCompleting(j, name(id), stage), name)
  {
    OpenShows(d, j, name);
    CompletionKeepsCommitted(d, id, stage + 1);
    CompletionsShowArtifacts(d, j, name, id, stage);
    CompletionsShowContent(d, j, name, id, stage);
  }

  lemma OpenShows(d: L.Disk, j: U.Job, name: Naming)
    requires L.IsOpen(d) && L.Clean(d) && Shows(d, j, name)
    ensures BytesOf(j.body) == L.BodyBytes(d) == Committed(d) && d.final.None? && U.LOG_PATH !in j.files && j.log.Open?
  {
    L.CleanCounts(d);
  }

  lemma CompletionKeepsCommitted(d: L.Disk, id: L.Id, stage: nat)
    requires L.IsOpen(d) && L.Clean(d)
    ensures L.Sound(L.Completing(d, id, stage)) && Committed(L.Completing(d, id, stage)) == Committed(d)
  {
    L.CompletingIsSound(d, id, stage);
  }

  lemma CompletionsShowContent(d: L.Disk, j: U.Job, name: Naming, id: L.Id, stage: nat)
    requires d.meta.Some? && d.meta.value.state == L.LogState.Open && d.final.None? && stage <= 5
    requires BytesOf(j.body) == L.BodyBytes(d) && U.LOG_PATH !in j.files && j.log.Open?
    ensures var e, v := L.Completing(d, id, stage + 1), U.LogCompleting(j, name(id), stage);
      StateShown(e.meta, v.log, name) && BodyShown(e.body, v.log, v.body) &&
      ContentShown(e.final, L.BodyBytes(d), v.files, v.body)
  {
  }

  // ----- recovering -----

  /** A finalised artifact is verified in one model exactly when it is in the other. */
  lemma VerifiedAlike(d: L.Disk, j: U.Job, name: Naming, id: L.Id)
    requires id in d.artifacts && ArtifactsShown(d.artifacts, j.artifacts, name)
    requires U.LOG_PATH in j.files <==> d.final.Some?
    requires d.final.Some? ==> j.files[U.LOG_PATH] == d.final.value
    ensures name(id) in j.artifacts && (U.Verified(j.files, j.artifacts[name(id)].meta) <==> L.Published(d, id))
  {
  }

  lemma CompletingShowsArtifacts(d: L.Disk, j: U.Job, name: Naming, id: L.Id)
    requires id in d.artifacts && ArtifactsShown(d.artifacts, j.artifacts, name) && Distinct(name)
    ensures ArtifactsShown(d.artifacts[id := d.artifacts[id].(completed := true)],
                           j.artifacts[name(id) := j.artifacts[name(id)].(state := U.State.Completed)], name)
  {
  }

  /** Recovery decides alike, and leaves the same artifact or the same open log. */
  lemma RecoveriesAgree(d: L.Disk, j: U.Job, name: Naming)
    requires L.Sound(d) && d.meta.Some? && Shows(d, j, name) && Distinct(name)
    ensures L.Sound(L.Recovered(d)) && Shows(L.Recovered(d), U.LogRecovered(j), name)
  {
    L.RecoveryKeepsMeaning(d);
    if d.meta.value.state != L.LogState.Open {
      var id := d.meta.value.artifact.value;
      VerifiedAlike(d, j, name, id);
      CompletingShowsArtifacts(d, j, name, id);
      FinalizedRecovers(d, j, name);
    } else {
      OpenRecovers(d);
    }
  }

  lemma OpenRecovers(d: L.Disk)
    requires L.IsOpen(d)
    ensures var r := L.Recovered(d);
      r.meta.Some? && r.meta.value.state == L.LogState.Open && r.final == d.final && r.artifacts == d.artifacts
  {
    L.RecoveryKeepsMeaning(d);
  }

  /** Where the two recoveries of a log that is no longer open lead. */
  lemma FinalizedRecovers(d: L.Disk, j: U.Job, name: Naming)
    requires L.Sound(d) && d.meta.Some? && d.meta.value.state != L.LogState.Open && Shows(d, j, name)
    requires d.meta.value.artifact.Some?
    requires var id := d.meta.value.artifact.value;
      id in d.artifacts && name(id) in j.artifacts &&
      (U.Verified(j.files, j.artifacts[name(id)].meta) <==> L.Published(d, id))
    ensures var r, v, id := L.Recovered(d), U.LogRecovered(j), d.meta.value.artifact.value;
      StateShown(r.meta, v.log, name) && BodyShown(r.body, v.log, v.body) &&
      r.final == d.final && v.files == j.files && v.body == j.body &&
      ((r.artifacts == d.artifacts && v.artifacts == j.artifacts) ||
       (r.artifacts == d.artifacts[id := d.artifacts[id].(completed := true)] &&
        v.artifacts == j.artifacts[name(id) := j.artifacts[name(id)].(state := U.State.Completed)]))
  {
  }

  // ----- appending -----

  /** Wherever an append stops, the upload store sees the log as it was or grown by the chunk. */
  lemma AppendsAgree(d: L.Disk, j: U.Job, name: Naming, data: Bytes, p: L.Disk)
    requires L.IsOpen(d) && L.Clean(d) && Shows(d, j, name) && L.Appending(d, data, p)
    ensures L.Sound(p) && (Shows(p, j, name) || exists v :: U.LogGrows(j, data, v) && Shows(p, v, name))
  {
    AppendCommits(d, data, p);
    OpenShows(d, j, name);
    var v := j.(body := Some(BytesOf(j.body) + data));
    assert U.LogGrows(j, data, v);
    if Committed(p) == Committed(d) { assert Shows(p, j, name); } else { assert Shows(p, v, name); }
  }

  lemma AppendCommits(d: L.Disk, data: Bytes, p: L.Disk)
    requires L.IsOpen(d) && L.Clean(d) && L.Appending(d, data, p)
    ensures L.IsOpen(p) && p.artifacts == d.artifacts && (Committed(p) == Committed(d) || Committed(p) == Committed(d) + data)
  {
    L.AppendingCommitsOnce(d, data, p);
    FlattenAppend(L.Meaning(d).chunks, data);
  }
}
