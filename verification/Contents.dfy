/** What is in a repository version: the base version without the specs that a batch replaces, plus the
    packages of the batch; and what a release selects from it. */
module Contents {
  import opened Core
  import opened ManifestText
  import opened Digests

  /** A package file and what its headers say. */
  datatype Package = Package(rpm: Rpm, content: Bytes)

  /** A version's index and its Packages directory. */
  datatype Version = Version(rpms: Rpms, files: Tree)

  /** What inspecting a package file of a given name yields. */
  type Inspection = (Text, Bytes) -> Rpm

  predicate FileName(name: Text) {
    |name| >= 4 && 0 !in name && 47 !in name &&
    var n := |name| - 4;
    name[n] == 46 && Lower(name[n + 1]) == 114 && Lower(name[n + 2]) == 112 && Lower(name[n + 3]) == 109
  }

  /** The entry of a package is what inspecting its file yields. */
  predicate Genuine(inspect: Inspection, p: Package) {
    p.rpm == inspect(p.rpm.fileName, p.content) && p.rpm.sum == Sha256(p.content) && p.rpm.size == |p.content| &&
    FileName(p.rpm.fileName) && p.rpm.spec != []
  }

  function Join(fields: seq<Text>): Text {
    if |fields| == 0 then [] else if |fields| == 1 then fields[0] else fields[0] + [0] + Join(fields[1..])
  }

  /** Name, epoch, version, release and architecture, with NUL between them. */
  function Identity(r: Rpm): Text {
    Join([r.name, r.epoch, r.version, r.release, r.arch])
  }

  lemma IdentityIsNoFileName(r: Rpm, name: Text)
    requires FileName(name)
    ensures Identity(r) != name
  {
    var fields := [r.name, r.epoch, r.version, r.release, r.arch];
    assert Identity(r) == fields[0] + [0] + Join(fields[1..]);
    assert Identity(r)[|r.name|] == 0;
  }

  /** Package files match the index exactly, every entry is genuine, and no identity occurs twice. */
  ghost predicate VersionSound(inspect: Inspection, v: Version) {
    v.files.Keys == v.rpms.Keys &&
    (forall f :: f in v.rpms ==> v.rpms[f].fileName == f && Genuine(inspect, Package(v.rpms[f], v.files[f]))) &&
    forall f, g :: f in v.rpms && g in v.rpms && Identity(v.rpms[f]) == Identity(v.rpms[g]) ==> f == g
  }

  // ----- linking the base -----

  function Specs(inputs: seq<Package>): set<Text> {
    set i | 0 <= i < |inputs| :: inputs[i].rpm.spec
  }

  /** The named entries whose spec is not replaced, with their files. */
  function Picked(v: Version, names: set<Text>, replaced: set<Text>): Version {
    Version(map f | f in v.rpms && f in names && v.rpms[f].spec !in replaced :: v.rpms[f],
            map f | f in v.files && f in v.rpms && f in names && v.rpms[f].spec !in replaced :: v.files[f])
  }

  function Retained(v: Version, replaced: set<Text>): Version {
    Picked(v, v.rpms.Keys, replaced)
  }

  lemma PickedStep(v: Version, names: set<Text>, replaced: set<Text>, f: Text)
    requires f in v.rpms && f !in names
    ensures var u, w := Picked(v, names, replaced), Picked(v, names + {f}, replaced);
      if v.rpms[f].spec in replaced then w == u
      else
        w.rpms == u.rpms[f := v.rpms[f]] && w.files == if f in v.files then u.files[f := v.files[f]] else u.files
  {
    var u, w := Picked(v, names, replaced), Picked(v, names + {f}, replaced);
    if v.rpms[f].spec in replaced { assert w.rpms == u.rpms && w.files == u.files; }
  }

  predicate Linkable(v: Version, name: Text) {
    name in v.files && name in v.rpms && FileName(name) && v.rpms[name].fileName == name && v.rpms[name].spec != [] &&
    v.rpms[name].size == |v.files[name]|
  }

  ghost predicate LayoutValid(v: Version) {
    v.files.Keys == v.rpms.Keys && forall f :: f in v.files ==> Linkable(v, f)
  }

  /** Links the base packages whose spec the batch does not replace. */
  method LinkRPMDirectory(base: Version, replaced: set<Text>) returns (r: Option<Version>)
    ensures r.Some? <==> LayoutValid(base)
    ensures r.Some? ==> r.value == Retained(base, replaced)
  {
    var rest := base.files.Keys;
    var retained: Rpms := map[];
    var linked: Tree := map[];
    while rest != {}
      invariant rest <= base.files.Keys && forall f :: f in base.files.Keys - rest ==> Linkable(base, f)
      invariant Version(retained, linked) == Picked(base, base.files.Keys - rest, replaced)
      decreases |rest|
    {
      var name :| name in rest;
      if name !in base.rpms || !FileName(name) || base.rpms[name].fileName != name || base.rpms[name].spec == [] ||
         base.rpms[name].size != |base.files[name]| {
        assert !Linkable(base, name);
        return None;
      }
      PickedStep(base, base.files.Keys - rest, replaced, name);
      assert base.files.Keys - (rest - {name}) == base.files.Keys - rest + {name};
      rest := rest - {name};
      if base.rpms[name].spec !in replaced {
        linked, retained := linked[name := base.files[name]], retained[name := base.rpms[name]];
      }
    }
    assert base.files.Keys - rest == base.files.Keys;
    assert base.files.Keys <= base.rpms.Keys;
    if |base.files.Keys| != |base.rpms.Keys| { return None; }
    SubsetOfSameSize(base.files.Keys, base.rpms.Keys);
    return Some(Version(retained, linked));
  }

  // ----- merging a batch -----

  /** Two packages that may be in one version: the same name means the same content, and the same
      identity means the same name. */
  predicate Agree(r: Rpm, s: Rpm) {
    (r.fileName == s.fileName ==> r.sum == s.sum) && (Identity(r) == Identity(s) ==> r.fileName == s.fileName && r.sum == s.sum)
  }

  ghost predicate Compatible(retained: Rpms, inputs: seq<Package>) {
    (forall i, k :: 0 <= i < k < |inputs| ==> Agree(inputs[i].rpm, inputs[k].rpm)) &&
    forall f, i :: f in retained && 0 <= i < |inputs| ==> Agree(retained[f], inputs[i].rpm)
  }

  function Added(v: Version, inputs: seq<Package>): Version {
    if |inputs| == 0 then v
    else
      var u, p := Added(v, inputs[..|inputs| - 1]), inputs[|inputs| - 1];
      Version(u.rpms[p.rpm.fileName := p.rpm], u.files[p.rpm.fileName := p.content])
  }

  lemma AddedStep(v: Version, inputs: seq<Package>, i: nat)
    requires i < |inputs|
    ensures var u, p := Added(v, inputs[..i]), inputs[i];
      Added(v, inputs[..i + 1]) == Version(u.rpms[p.rpm.fileName := p.rpm], u.files[p.rpm.fileName := p.content])
  {
    assert inputs[..i + 1][..i] == inputs[..i];
  }

  ghost predicate Named(inputs: seq<Package>, f: Text) {
    exists p :: p in inputs && p.rpm.fileName == f
  }

  /** An entry of a merged version is the input of that name, or else the retained one. */
  lemma {:induction false} AddedAt(v: Version, inputs: seq<Package>, f: Text)
    requires v.files.Keys == v.rpms.Keys
    ensures Added(v, inputs).files.Keys == Added(v, inputs).rpms.Keys
    ensures f in Added(v, inputs).rpms <==> f in v.rpms || Named(inputs, f)
    ensures var w := Added(v, inputs);
      if Named(inputs, f) then Package(w.rpms[f], w.files[f]) in inputs && w.rpms[f].fileName == f
      else f in v.rpms ==> w.rpms[f] == v.rpms[f] && w.files[f] == v.files[f]
  {
    if |inputs| > 0 {
      var n := |inputs| - 1;
      var init, p := inputs[..n], inputs[n];
      AddedAt(v, init, f);
      assert forall q :: q in inputs <==> q in init || q == p;
      if p.rpm.fileName == f { assert p in inputs; }
      assert Named(inputs, f) <==> Named(init, f) || p.rpm.fileName == f;
    }
  }

  /** What merging yields: nothing when two packages disagree. */
  ghost function Merged(base: Option<Version>, inputs: seq<Package>): Option<Version> {
    var retained := if base.Some? then Retained(base.value, Specs(inputs)) else Version(map[], map[]);
    if Compatible(retained.rpms, inputs) then Some(Added(retained, inputs)) else None
  }

  ghost predicate AllGenuine(inspect: Inspection, inputs: seq<Package>) {
    forall p :: p in inputs ==> Genuine(inspect, p)
  }

  ghost predicate GenuineVersion(inspect: Inspection, v: Version) {
    v.files.Keys == v.rpms.Keys &&
    forall f :: f in v.rpms ==> v.rpms[f].fileName == f && Genuine(inspect, Package(v.rpms[f], v.files[f]))
  }

  /** A file name and a hash determine a package: its content, and so its headers. */
  lemma SamePackage(inspect: Inspection, p: Package, q: Package)
    requires Genuine(inspect, p) && Genuine(inspect, q)
    requires p.rpm.fileName == q.rpm.fileName && p.rpm.sum == q.rpm.sum
    ensures p == q
  {
  }

  lemma CompatibleMembers(rpms: Rpms, inputs: seq<Package>, p: Package, q: Package)
    requires Compatible(rpms, inputs) && p in inputs && q in inputs
    ensures p == q || Agree(p.rpm, q.rpm)
  {
    var i :| 0 <= i < |inputs| && inputs[i] == p;
    var k :| 0 <= k < |inputs| && inputs[k] == q;
    assert i < k ==> Agree(inputs[i].rpm, inputs[k].rpm);
    assert k < i ==> Agree(inputs[k].rpm, inputs[i].rpm);
  }

  /** In a merge without disagreement, an input gives the entry of its name, and a retained entry stays. */
  lemma AddedInput(inspect: Inspection, v: Version, inputs: seq<Package>, p: Package)
    requires GenuineVersion(inspect, v) && AllGenuine(inspect, inputs) && Compatible(v.rpms, inputs) && p in inputs
    ensures var w, f := Added(v, inputs), p.rpm.fileName; f in w.rpms && f in w.files && w.rpms[f] == p.rpm && w.files[f] == p.content
  {
    AddedAt(v, inputs, p.rpm.fileName);
    var w, f := Added(v, inputs), p.rpm.fileName;
    var q := Package(w.rpms[f], w.files[f]);
    CompatibleMembers(v.rpms, inputs, p, q);
    SamePackage(inspect, p, q);
  }

  lemma AddedRetained(inspect: Inspection, v: Version, inputs: seq<Package>, f: Text)
    requires GenuineVersion(inspect, v) && AllGenuine(inspect, inputs) && Compatible(v.rpms, inputs) && f in v.rpms
    ensures var w := Added(v, inputs); f in w.rpms && f in w.files && w.rpms[f] == v.rpms[f] && w.files[f] == v.files[f]
  {
    AddedAt(v, inputs, f);
    if Named(inputs, f) {
      var w := Added(v, inputs);
      var q := Package(w.rpms[f], w.files[f]);
      var i :| 0 <= i < |inputs| && inputs[i] == q;
      assert Agree(v.rpms[f], inputs[i].rpm);
      SamePackage(inspect, q, Package(v.rpms[f], v.files[f]));
    }
  }

  /** An entry of a merge is an input or a retained entry. */
  lemma AddedOrigin(inspect: Inspection, v: Version, inputs: seq<Package>, f: Text)
    requires GenuineVersion(inspect, v) && AllGenuine(inspect, inputs) && Compatible(v.rpms, inputs)
    requires f in Added(v, inputs).rpms
    ensures var w := Added(v, inputs);
      f in w.files && w.rpms[f].fileName == f &&
      (Package(w.rpms[f], w.files[f]) in inputs || (f in v.rpms && w.rpms[f] == v.rpms[f] && w.files[f] == v.files[f]))
  {
    AddedAt(v, inputs, f);
  }

  /** The hashes that the loop remembers, by file name and by identity. */
  function HashesOf(inputs: seq<Package>): map<Text, Digest> {
    if |inputs| == 0 then map[]
    else
      var r := inputs[|inputs| - 1].rpm;
      HashesOf(inputs[..|inputs| - 1])[r.fileName := r.sum][Identity(r) := r.sum]
  }

  /** Every remembered hash is that of an input. */
  ghost predicate RemembersOnly(hashes: map<Text, Digest>, inputs: seq<Package>) {
    forall k :: k in hashes ==>
      exists p :: p in inputs && (k == p.rpm.fileName || k == Identity(p.rpm)) && hashes[k] == p.rpm.sum
  }

  /** The files that the loop remembers by identity: those of the entries so far. */
  ghost predicate Names(nevra: map<Text, Text>, rpms: Rpms) {
    (forall f :: f in rpms ==> Identity(rpms[f]) in nevra && nevra[Identity(rpms[f])] == f) &&
    forall k :: k in nevra ==> nevra[k] in rpms && Identity(rpms[nevra[k]]) == k
  }

  /** What the loop has checked of its next input. */
  predicate Passes(hashes: map<Text, Digest>, nevra: map<Text, Text>, rpms: Rpms, r: Rpm) {
    (r.fileName in hashes ==> hashes[r.fileName] == r.sum) && (Identity(r) in hashes ==> hashes[Identity(r)] == r.sum) &&
    (r.fileName in rpms ==> rpms[r.fileName].sum == r.sum) && (Identity(r) in nevra ==> nevra[Identity(r)] == r.fileName)
  }

  lemma CompatibleWith(rpms: Rpms, inputs: seq<Package>, p: Package)
    requires Compatible(rpms, inputs)
    ensures Compatible(rpms, inputs + [p]) <==>
      (forall q :: q in inputs ==> Agree(q.rpm, p.rpm)) && forall f :: f in rpms ==> Agree(rpms[f], p.rpm)
  {
    var all := inputs + [p];
    assert all[|inputs|] == p && forall i :: 0 <= i < |inputs| ==> all[i] == inputs[i];
    if Compatible(rpms, all) {
      forall q | q in inputs ensures Agree(q.rpm, p.rpm) {
        var i :| 0 <= i < |inputs| && inputs[i] == q;
        assert Agree(all[i].rpm, all[|inputs|].rpm);
      }
      forall f | f in rpms ensures Agree(rpms[f], p.rpm) { assert Agree(rpms[f], all[|inputs|].rpm); }
    }
    if (forall q :: q in inputs ==> Agree(q.rpm, p.rpm)) && forall f :: f in rpms ==> Agree(rpms[f], p.rpm) {
      forall i, k | 0 <= i < k < |all| ensures Agree(all[i].rpm, all[k].rpm) {
        if k < |inputs| { assert Agree(inputs[i].rpm, inputs[k].rpm); } else { assert inputs[i] in inputs; }
      }
    }
  }

  /** The checks of one input, against one earlier package whose entry is in the merge. */
  lemma PassingAgrees(rpms: Rpms, hashes: map<Text, Digest>, nevra: map<Text, Text>, q: Rpm, r: Rpm)
    requires q.fileName in rpms && rpms[q.fileName] == q && Names(nevra, rpms) && Passes(hashes, nevra, rpms, r)
    ensures Agree(q, r)
  {
  }

  lemma PassingIsCompatible(
      inspect: Inspection, v: Version, inputs: seq<Package>, p: Package, hashes: map<Text, Digest>, nevra: map<Text, Text>)
    requires GenuineVersion(inspect, v) && AllGenuine(inspect, inputs) && Compatible(v.rpms, inputs)
    requires Names(nevra, Added(v, inputs).rpms) && Passes(hashes, nevra, Added(v, inputs).rpms, p.rpm)
    ensures Compatible(v.rpms, inputs + [p])
  {
    var rpms := Added(v, inputs).rpms;
    forall q | q in inputs ensures Agree(q.rpm, p.rpm) {
      AddedInput(inspect, v, inputs, q);
      PassingAgrees(rpms, hashes, nevra, q.rpm, p.rpm);
    }
    forall f | f in v.rpms ensures Agree(v.rpms[f], p.rpm) {
      AddedRetained(inspect, v, inputs, f);
      PassingAgrees(rpms, hashes, nevra, v.rpms[f], p.rpm);
    }
    CompatibleWith(v.rpms, inputs, p);
  }

  /** A remembered hash of this input's name or identity is this input's hash. */
  lemma RememberedAgrees(inspect: Inspection, inputs: seq<Package>, p: Package, hashes: map<Text, Digest>, k: Text)
    requires AllGenuine(inspect, inputs) && Genuine(inspect, p) && RemembersOnly(hashes, inputs)
    requires forall q :: q in inputs ==> Agree(q.rpm, p.rpm)
    requires (k == p.rpm.fileName || k == Identity(p.rpm)) && k in hashes
    ensures hashes[k] == p.rpm.sum
  {
    var q :| q in inputs && (k == q.rpm.fileName || k == Identity(q.rpm)) && hashes[k] == q.rpm.sum;
    IdentityIsNoFileName(p.rpm, q.rpm.fileName);
    IdentityIsNoFileName(q.rpm, p.rpm.fileName);
  }

  lemma CompatiblePasses(
      inspect: Inspection, v: Version, inputs: seq<Package>, p: Package, hashes: map<Text, Digest>, nevra: map<Text, Text>)
    requires GenuineVersion(inspect, v) && AllGenuine(inspect, inputs) && Genuine(inspect, p) && Compatible(v.rpms, inputs)
    requires RemembersOnly(hashes, inputs) && Names(nevra, Added(v, inputs).rpms) && Compatible(v.rpms, inputs + [p])
    ensures Passes(hashes, nevra, Added(v, inputs).rpms, p.rpm)
  {
    var w := Added(v, inputs);
    CompatibleWith(v.rpms, inputs, p);
    if p.rpm.fileName in hashes { RememberedAgrees(inspect, inputs, p, hashes, p.rpm.fileName); }
    if Identity(p.rpm) in hashes { RememberedAgrees(inspect, inputs, p, hashes, Identity(p.rpm)); }
    forall f | f in w.rpms ensures Agree(w.rpms[f], p.rpm) && w.rpms[f].fileName == f {
      AddedOrigin(inspect, v, inputs, f);
      if Package(w.rpms[f], w.files[f]) in inputs { assert Agree(Package(w.rpms[f], w.files[f]).rpm, p.rpm); }
    }
  }

  lemma RememberingOnlyContinues(inputs: seq<Package>, p: Package, hashes: map<Text, Digest>)
    requires RemembersOnly(hashes, inputs)
    ensures RemembersOnly(hashes[p.rpm.fileName := p.rpm.sum][Identity(p.rpm) := p.rpm.sum], inputs + [p])
  {
    var all := inputs + [p];
    var after := hashes[p.rpm.fileName := p.rpm.sum][Identity(p.rpm) := p.rpm.sum];
    forall k | k in after
      ensures exists q :: q in all && (k == q.rpm.fileName || k == Identity(q.rpm)) && after[k] == q.rpm.sum
    {
      if k == p.rpm.fileName || k == Identity(p.rpm) {
        assert p in all;
      } else {
        var q :| q in inputs && (k == q.rpm.fileName || k == Identity(q.rpm)) && hashes[k] == q.rpm.sum;
        assert q in all;
      }
    }
  }

  lemma {:induction false} HashesAreInputs(inputs: seq<Package>)
    ensures RemembersOnly(HashesOf(inputs), inputs)
  {
    if |inputs| > 0 {
      var n := |inputs| - 1;
      HashesAreInputs(inputs[..n]);
      RememberingOnlyContinues(inputs[..n], inputs[n], HashesOf(inputs[..n]));
      assert inputs[..n] + [inputs[n]] == inputs;
    }
  }

  lemma NamingContinues(v: Version, inputs: seq<Package>, p: Package, nevra: map<Text, Text>)
    requires Names(nevra, Added(v, inputs).rpms)
    requires Identity(p.rpm) in nevra ==> nevra[Identity(p.rpm)] == p.rpm.fileName
    requires var rpms := Added(v, inputs).rpms; p.rpm.fileName in rpms ==> rpms[p.rpm.fileName] == p.rpm
    ensures Names(nevra[Identity(p.rpm) := p.rpm.fileName], Added(v, inputs + [p]).rpms)
  {
    AddedStep(v, inputs + [p], |inputs|);
    assert (inputs + [p])[..|inputs|] == inputs && (inputs + [p])[..|inputs| + 1] == inputs + [p];
  }

  lemma AddedIsGenuine(inspect: Inspection, v: Version, inputs: seq<Package>)
    requires GenuineVersion(inspect, v) && AllGenuine(inspect, inputs) && Compatible(v.rpms, inputs)
    ensures GenuineVersion(inspect, Added(v, inputs))
  {
    var w := Added(v, inputs);
    AddedAt(v, inputs, []);
    forall f | f in w.rpms ensures w.rpms[f].fileName == f && Genuine(inspect, Package(w.rpms[f], w.files[f])) {
      AddedOrigin(inspect, v, inputs, f);
    }
  }

  predicate Holds(w: Version, p: Package) {
    var f := p.rpm.fileName;
    f in w.rpms && f in w.files && w.rpms[f] == p.rpm && w.files[f] == p.content
  }

  function With(w: Version, p: Package): Version {
    Version(w.rpms[p.rpm.fileName := p.rpm], w.files[p.rpm.fileName := p.content])
  }

  /** An entry under the name of an input that passes is that input. */
  lemma EntryIsInput(inspect: Inspection, v: Version, inputs: seq<Package>, p: Package)
    requires GenuineVersion(inspect, v) && AllGenuine(inspect, inputs) && Compatible(v.rpms, inputs) && Genuine(inspect, p)
    requires p.rpm.fileName in Added(v, inputs).rpms && Added(v, inputs).rpms[p.rpm.fileName].sum == p.rpm.sum
    ensures Holds(Added(v, inputs), p)
  {
    AddedIsGenuine(inspect, v, inputs);
    var w, f := Added(v, inputs), p.rpm.fileName;
    SamePackage(inspect, p, Package(w.rpms[f], w.files[f]));
  }

  lemma CompatiblePrefix(rpms: Rpms, inputs: seq<Package>, n: nat)
    requires n <= |inputs| && Compatible(rpms, inputs)
    ensures Compatible(rpms, inputs[..n])
  {
    var init := inputs[..n];
    forall i, k | 0 <= i < k < |init| ensures Agree(init[i].rpm, init[k].rpm) { assert Agree(inputs[i].rpm, inputs[k].rpm); }
    forall f, i | f in rpms && 0 <= i < |init| ensures Agree(rpms[f], init[i].rpm) { assert Agree(rpms[f], inputs[i].rpm); }
  }

  /** The loop's state after some inputs. */
  ghost predicate Merging(
      inspect: Inspection, v: Version, done: seq<Package>, hashes: map<Text, Digest>, nevra: map<Text, Text>, w: Version)
  {
    AllGenuine(inspect, done) && Compatible(v.rpms, done) && w == Added(v, done) && hashes == HashesOf(done) &&
    Names(nevra, w.rpms)
  }

  /** Whether an input passes decides whether it agrees with everything so far, and if so the state goes on. */
  lemma PassesMeansAgrees(
      inspect: Inspection, v: Version, done: seq<Package>, p: Package, hashes: map<Text, Digest>, nevra: map<Text, Text>,
      w: Version)
    requires GenuineVersion(inspect, v) && Genuine(inspect, p) && Merging(inspect, v, done, hashes, nevra, w)
    ensures Passes(hashes, nevra, w.rpms, p.rpm) <==> Compatible(v.rpms, done + [p])
  {
    if Passes(hashes, nevra, w.rpms, p.rpm) { PassingIsCompatible(inspect, v, done, p, hashes, nevra); }
    if Compatible(v.rpms, done + [p]) {
      HashesAreInputs(done);
      CompatiblePasses(inspect, v, done, p, hashes, nevra);
    }
  }

  lemma PassedContinues(
      inspect: Inspection, v: Version, done: seq<Package>, p: Package, hashes: map<Text, Digest>, nevra: map<Text, Text>,
      w: Version)
    requires GenuineVersion(inspect, v) && Genuine(inspect, p) && Merging(inspect, v, done, hashes, nevra, w)
    requires Passes(hashes, nevra, w.rpms, p.rpm)
    ensures p.rpm.fileName in w.rpms ==> Holds(w, p)
    ensures Merging(inspect, v, done + [p], hashes[p.rpm.fileName := p.rpm.sum][Identity(p.rpm) := p.rpm.sum],
              nevra[Identity(p.rpm) := p.rpm.fileName], With(w, p))
  {
    PassesMeansAgrees(inspect, v, done, p, hashes, nevra, w);
    if p.rpm.fileName in w.rpms { EntryIsInput(inspect, v, done, p); }
    NamingContinues(v, done, p, nevra);
    assert (done + [p])[..|done|] == done;
    assert Added(v, done + [p]) == With(w, p);
  }

  ghost predicate NamesPart(nevra: map<Text, Text>, rpms: Rpms, names: set<Text>) {
    (forall f :: f in names && f in rpms ==> Identity(rpms[f]) in nevra && nevra[Identity(rpms[f])] == f) &&
    forall k :: k in nevra ==> nevra[k] in names && nevra[k] in rpms && Identity(rpms[nevra[k]]) == k
  }

  lemma NamesPartStep(nevra: map<Text, Text>, rpms: Rpms, names: set<Text>, f: Text)
    requires NamesPart(nevra, rpms, names) && f in rpms
    requires forall g :: g in rpms && Identity(rpms[g]) == Identity(rpms[f]) ==> g == f
    ensures NamesPart(nevra[Identity(rpms[f]) := f], rpms, names + {f})
  {
  }

  /** Names the retained entries by identity. */
  method IndexIdentities(inspect: Inspection, v: Version) returns (nevra: map<Text, Text>)
    requires VersionSound(inspect, v)
    ensures Names(nevra, v.rpms)
  {
    var rest := v.rpms.Keys;
    nevra := map[];
    while rest != {}
      invariant rest <= v.rpms.Keys && NamesPart(nevra, v.rpms, v.rpms.Keys - rest)
      decreases |rest|
    {
      var f :| f in rest;
      NamesPartStep(nevra, v.rpms, v.rpms.Keys - rest, f);
      assert v.rpms.Keys - (rest - {f}) == v.rpms.Keys - rest + {f};
      rest := rest - {f};
      nevra := nevra[Identity(v.rpms[f]) := f];
    }
    assert v.rpms.Keys - rest == v.rpms.Keys;
  }

  /** Adds one package, unless it disagrees with the retained ones or with an earlier one. */
  method AddInput(
      inspect: Inspection, ghost v: Version, ghost done: seq<Package>, p: Package, hashes: map<Text, Digest>,
      nevra: map<Text, Text>, w: Version)
    returns (ok: bool, hashes': map<Text, Digest>, nevra': map<Text, Text>, w': Version)
    requires GenuineVersion(inspect, v) && Genuine(inspect, p) && Merging(inspect, v, done, hashes, nevra, w)
    ensures ok <==> Compatible(v.rpms, done + [p])
    ensures ok ==> Merging(inspect, v, done + [p], hashes', nevra', w')
  {
    PassesMeansAgrees(inspect, v, done, p, hashes, nevra, w);
    AddedAt(v, done, p.rpm.fileName);
    if Passes(hashes, nevra, w.rpms, p.rpm) { PassedContinues(inspect, v, done, p, hashes, nevra, w); }
    var meta := p.rpm;
    var metadata, packages := w.rpms, w.files;
    ok, hashes', nevra', w' := false, hashes, nevra, w;
    if meta.fileName in hashes && hashes[meta.fileName] != meta.sum { return; }
    if Identity(meta) in hashes && hashes[Identity(meta)] != meta.sum { return; }
    hashes' := hashes[meta.fileName := meta.sum][Identity(meta) := meta.sum];
    if meta.fileName !in packages {
      packages := packages[meta.fileName := p.content];
    } else if meta.fileName in metadata {
      if metadata[meta.fileName].sum != meta.sum { return; }
      EntryIsInput(inspect, v, done, p);
      meta := metadata[meta.fileName];
    }
    metadata := metadata[meta.fileName := meta];
    if Identity(meta) in nevra && nevra[Identity(meta)] != meta.fileName { return; }
    nevra' := nevra[Identity(meta) := meta.fileName];
    assert packages == w.files[meta.fileName := p.content];
    ok, w' := true, Version(metadata, packages);
  }

  /** Adds the packages of a batch to the retained ones, or finds two that disagree. */
  method AddInputs(inspect: Inspection, v: Version, inputs: seq<Package>) returns (r: Option<Version>)
    requires VersionSound(inspect, v) && AllGenuine(inspect, inputs)
    ensures r == if Compatible(v.rpms, inputs) then Some(Added(v, inputs)) else None
  {
    var w := v;
    var nevra := IndexIdentities(inspect, v);
    var hashes: map<Text, Digest> := map[];
    for i := 0 to |inputs|
      invariant Merging(inspect, v, inputs[..i], hashes, nevra, w)
    {
      assert inputs[..i] + [inputs[i]] == inputs[..i + 1];
      if Compatible(v.rpms, inputs) { CompatiblePrefix(v.rpms, inputs, i + 1); }
      var ok;
      ok, hashes, nevra, w := AddInput(inspect, v, inputs[..i], inputs[i], hashes, nevra, w);
      if !ok { return None; }
    }
    assert inputs[..|inputs|] == inputs;
    return Some(w);
  }

  lemma RetainedIsSound(inspect: Inspection, v: Version, replaced: set<Text>)
    requires VersionSound(inspect, v)
    ensures VersionSound(inspect, Retained(v, replaced)) && LayoutValid(v)
  {
    var u := Retained(v, replaced);
    forall f | f in u.rpms ensures u.rpms[f].fileName == f && Genuine(inspect, Package(u.rpms[f], u.files[f])) {
      assert Genuine(inspect, Package(v.rpms[f], v.files[f]));
    }
  }

  method SpecsOf(inputs: seq<Package>) returns (specs: set<Text>)
    ensures specs == Specs(inputs)
  {
    specs := {};
    for i := 0 to |inputs|
      invariant specs == Specs(inputs[..i])
    {
      specs := specs + {inputs[i].rpm.spec};
      assert inputs[..i + 1] == inputs[..i] + [inputs[i]];
      assert forall k :: 0 <= k < i ==> inputs[..i + 1][k] == inputs[..i][k];
    }
    assert inputs[..|inputs|] == inputs;
  }

  /** The packages and the index of a new version. */
  method Materialize(inspect: Inspection, base: Option<Version>, inputs: seq<Package>) returns (r: Option<Version>)
    requires (base.Some? ==> VersionSound(inspect, base.value)) && AllGenuine(inspect, inputs)
    ensures r == Merged(base, inputs)
  {
    var replaced := SpecsOf(inputs);
    var retained := Version(map[], map[]);
    if base.Some? {
      RetainedIsSound(inspect, base.value, replaced);
      var linked := LinkRPMDirectory(base.value, replaced);
      retained := linked.value;
    }
    r := AddInputs(inspect, retained, inputs);
  }

  // ----- a chain of versions -----

  /** A merge keeps the version sound: its identities are unique, and its files match its index. */
  lemma MergedIsSound(inspect: Inspection, base: Option<Version>, inputs: seq<Package>)
    requires (base.Some? ==> VersionSound(inspect, base.value)) && AllGenuine(inspect, inputs)
    ensures Merged(base, inputs).Some? ==> VersionSound(inspect, Merged(base, inputs).value)
  {
    var v := if base.Some? then Retained(base.value, Specs(inputs)) else Version(map[], map[]);
    if base.Some? { RetainedIsSound(inspect, base.value, Specs(inputs)); }
    if Compatible(v.rpms, inputs) {
      AddedIsGenuine(inspect, v, inputs);
      var w := Added(v, inputs);
      forall f, g | f in w.rpms && g in w.rpms && Identity(w.rpms[f]) == Identity(w.rpms[g]) ensures f == g {
        EntriesAgree(inspect, v, inputs, f, g);
      }
    }
  }

  lemma EntriesAgree(inspect: Inspection, v: Version, inputs: seq<Package>, f: Text, g: Text)
    requires VersionSound(inspect, v) && AllGenuine(inspect, inputs) && Compatible(v.rpms, inputs)
    requires f in Added(v, inputs).rpms && g in Added(v, inputs).rpms
    requires Identity(Added(v, inputs).rpms[f]) == Identity(Added(v, inputs).rpms[g])
    ensures f == g
  {
    var w := Added(v, inputs);
    AddedOrigin(inspect, v, inputs, f);
    AddedOrigin(inspect, v, inputs, g);
    var p, q := Package(w.rpms[f], w.files[f]), Package(w.rpms[g], w.files[g]);
    if p in inputs && q in inputs {
      CompatibleMembers(v.rpms, inputs, p, q);
    } else if p in inputs {
      assert p.rpm.fileName == f && v.rpms[g] == q.rpm;
      RetainedAgrees(v.rpms, inputs, g, p);
    } else if q in inputs {
      assert q.rpm.fileName == g && v.rpms[f] == p.rpm;
      RetainedAgrees(v.rpms, inputs, f, q);
    }
  }

  lemma RetainedAgrees(rpms: Rpms, inputs: seq<Package>, f: Text, p: Package)
    requires Compatible(rpms, inputs) && f in rpms && p in inputs
    ensures Agree(rpms[f], p.rpm)
  {
    var i :| 0 <= i < |inputs| && inputs[i] == p;
    assert Agree(rpms[f], inputs[i].rpm);
  }

  /** Building a chain of versions, one on another. */
  ghost function Build(batches: seq<seq<Package>>): Option<Version> {
    if |batches| == 0 then None
    else
      var inputs := batches[|batches| - 1];
      if |batches| == 1 then Merged(None, inputs)
      else
        var base := Build(batches[..|batches| - 1]);
        if base.None? then None else Merged(base, inputs)
  }

  /** The simple rule: for each spec, the packages of the last batch that contains it. */
  ghost predicate Latest(batches: seq<seq<Package>>, p: Package) {
    exists k :: 0 <= k < |batches| && p in batches[k] &&
      forall l :: k < l < |batches| ==> p.rpm.spec !in Specs(batches[l])
  }

  predicate Contains(v: Version, p: Package) {
    p.rpm.fileName in v.rpms && p.rpm.fileName in v.files &&
    v.rpms[p.rpm.fileName] == p.rpm && v.files[p.rpm.fileName] == p.content
  }

  lemma LatestStep(batches: seq<seq<Package>>, p: Package)
    requires |batches| > 0
    ensures var last := batches[|batches| - 1];
      Latest(batches, p) <==> p in last || (Latest(batches[..|batches| - 1], p) && p.rpm.spec !in Specs(last))
  {
    var n := |batches| - 1;
    var init := batches[..n];
    if Latest(init, p) && p.rpm.spec !in Specs(batches[n]) {
      var k :| 0 <= k < n && p in init[k] && forall l :: k < l < n ==> p.rpm.spec !in Specs(init[l]);
      assert p in batches[k] && forall l :: k < l < |batches| ==> p.rpm.spec !in Specs(batches[l]) by {
        forall l | k < l < |batches| ensures p.rpm.spec !in Specs(batches[l]) {
          if l < n { assert init[l] == batches[l]; }
        }
      }
    }
    if Latest(batches, p) && p !in batches[n] {
      var k :| 0 <= k < |batches| && p in batches[k] && forall l :: k < l < |batches| ==> p.rpm.spec !in Specs(batches[l]);
      assert p in init[k] && forall l :: k < l < n ==> p.rpm.spec !in Specs(init[l]);
    }
  }

  /** What one merge contains: the batch, and what the base contains of other specs. */
  lemma MergedContains(inspect: Inspection, base: Option<Version>, inputs: seq<Package>, p: Package)
    requires (base.Some? ==> VersionSound(inspect, base.value)) && AllGenuine(inspect, inputs) && Merged(base, inputs).Some?
    ensures Contains(Merged(base, inputs).value, p) <==>
      p in inputs || (base.Some? && Contains(base.value, p) && p.rpm.spec !in Specs(inputs))
  {
    var v := if base.Some? then Retained(base.value, Specs(inputs)) else Version(map[], map[]);
    if base.Some? { RetainedIsSound(inspect, base.value, Specs(inputs)); }
    var f := p.rpm.fileName;
    if p in inputs { AddedInput(inspect, v, inputs, p); }
    if f in v.rpms { AddedRetained(inspect, v, inputs, f); }
    if f in Added(v, inputs).rpms { AddedOrigin(inspect, v, inputs, f); }
  }

  /** In a chain built without conflict, every version contains exactly what the simple rule says, its
      identities are unique, and its files match its index. */
  lemma {:induction false} ChainIsLatest(inspect: Inspection, batches: seq<seq<Package>>)
    requires (forall k :: 0 <= k < |batches| ==> AllGenuine(inspect, batches[k])) && Build(batches).Some?
    ensures VersionSound(inspect, Build(batches).value)
    ensures forall p :: Contains(Build(batches).value, p) <==> Latest(batches, p)
    decreases |batches|
  {
    var n := |batches| - 1;
    var init, last := batches[..n], batches[n];
    var base := if n == 0 then None else Build(init);
    if n > 0 { ChainIsLatest(inspect, init); }
    MergedIsSound(inspect, base, last);
    forall p ensures Contains(Build(batches).value, p) <==> Latest(batches, p) {
      LatestStep(batches, p);
      MergedContains(inspect, base, last, p);
      if n == 0 { assert !Latest(init, p); }
    }
  }

  // ----- when a merge succeeds -----

  /** A version, sound, in which these packages are together. */
  ghost predicate Accommodates(inspect: Inspection, w: Version, base: Option<Version>, inputs: seq<Package>) {
    VersionSound(inspect, w) && (forall p :: p in inputs ==> Contains(w, p)) &&
    (base.Some? ==> forall p :: Contains(base.value, p) && p.rpm.spec !in Specs(inputs) ==> Contains(w, p))
  }

  /** Two packages of one sound version agree. */
  lemma TogetherAgree(inspect: Inspection, w: Version, p: Package, q: Package)
    requires VersionSound(inspect, w) && Contains(w, p) && Contains(w, q)
    ensures Agree(p.rpm, q.rpm)
  {
  }

  /** A merge succeeds exactly when some sound version holds the batch together with what the base has of
      other specs. In particular a package that is there twice, unchanged, is no conflict. */
  lemma MergesExactly(inspect: Inspection, base: Option<Version>, inputs: seq<Package>)
    requires (base.Some? ==> VersionSound(inspect, base.value)) && AllGenuine(inspect, inputs)
    ensures Merged(base, inputs).Some? <==> exists w :: Accommodates(inspect, w, base, inputs)
  {
    var v := if base.Some? then Retained(base.value, Specs(inputs)) else Version(map[], map[]);
    if Merged(base, inputs).Some? {
      var w := Merged(base, inputs).value;
      MergedIsSound(inspect, base, inputs);
      forall p ensures (p in inputs ==> Contains(w, p)) &&
        (base.Some? && Contains(base.value, p) && p.rpm.spec !in Specs(inputs) ==> Contains(w, p))
      {
        MergedContains(inspect, base, inputs, p);
      }
      assert Accommodates(inspect, w, base, inputs);
    }
    if exists w :: Accommodates(inspect, w, base, inputs) {
      var w :| Accommodates(inspect, w, base, inputs);
      TogetherIsCompatible(inspect, w, v, base, inputs);
    }
  }

  lemma TogetherIsCompatible(inspect: Inspection, w: Version, v: Version, base: Option<Version>, inputs: seq<Package>)
    requires (base.Some? ==> VersionSound(inspect, base.value)) && Accommodates(inspect, w, base, inputs)
    requires v == if base.Some? then Retained(base.value, Specs(inputs)) else Version(map[], map[])
    ensures Compatible(v.rpms, inputs)
  {
    forall i, k | 0 <= i < k < |inputs| ensures Agree(inputs[i].rpm, inputs[k].rpm) {
      TogetherAgree(inspect, w, inputs[i], inputs[k]);
    }
    forall f, i | f in v.rpms && 0 <= i < |inputs| ensures Agree(v.rpms[f], inputs[i].rpm) {
      var p := Package(v.rpms[f], v.files[f]);
      assert Contains(base.value, p);
      TogetherAgree(inspect, w, p, inputs[i]);
    }
  }

  /** Some sound version holds together what the simple rule takes from the batches. */
  ghost predicate FitsTogether(inspect: Inspection, batches: seq<seq<Package>>) {
    exists w :: VersionSound(inspect, w) && HoldsLatest(w, batches)
  }

  ghost predicate HoldsLatest(w: Version, batches: seq<seq<Package>>) {
    forall p :: Latest(batches, p) ==> Contains(w, p)
  }

  /** What the last merge of a chain must bring together is what the simple rule takes. */
  lemma AccommodatesLatest(inspect: Inspection, batches: seq<seq<Package>>, w: Version)
    requires (forall k :: 0 <= k < |batches| ==> AllGenuine(inspect, batches[k])) && |batches| > 0 && VersionSound(inspect, w)
    requires |batches| > 1 ==> Build(batches[..|batches| - 1]).Some?
    ensures var n := |batches| - 1;
      Accommodates(inspect, w, if n == 0 then None else Build(batches[..n]), batches[n]) <==> HoldsLatest(w, batches)
  {
    var n := |batches| - 1;
    var init, last := batches[..n], batches[n];
    if n > 0 { ChainIsLatest(inspect, init); }
    forall p ensures
      Latest(batches, p) <==> p in last || (n > 0 && Contains(Build(init).value, p) && p.rpm.spec !in Specs(last))
    {
      LatestStep(batches, p);
      if n == 0 { assert !Latest(init, p); }
    }
  }

  /** The last merge of a chain succeeds exactly when what the simple rule takes fits together. */
  lemma LastMergeFits(inspect: Inspection, batches: seq<seq<Package>>)
    requires (forall k :: 0 <= k < |batches| ==> AllGenuine(inspect, batches[k])) && |batches| > 0
    requires |batches| > 1 ==> Build(batches[..|batches| - 1]).Some?
    ensures Build(batches).Some? <==> FitsTogether(inspect, batches)
  {
    var n := |batches| - 1;
    var base := if n == 0 then None else Build(batches[..n]);
    if n > 0 { ChainIsLatest(inspect, batches[..n]); }
    assert Build(batches) == Merged(base, batches[n]);
    MergesExactly(inspect, base, batches[n]);
    forall w | VersionSound(inspect, w) ensures Accommodates(inspect, w, base, batches[n]) <==> HoldsLatest(w, batches) {
      AccommodatesLatest(inspect, batches, w);
    }
  }

  ghost predicate FitsAt(inspect: Inspection, batches: seq<seq<Package>>, n: nat)
    requires n <= |batches|
  {
    FitsTogether(inspect, batches[..n])
  }

  lemma FitsAtStep(inspect: Inspection, batches: seq<seq<Package>>)
    requires |batches| > 0
    ensures var init := batches[..|batches| - 1];
      (forall n: nat :: 1 <= n <= |batches| ==> FitsAt(inspect, batches, n)) <==>
      FitsTogether(inspect, batches) && forall n: nat :: 1 <= n <= |init| ==> FitsAt(inspect, init, n)
  {
    var init := batches[..|batches| - 1];
    assert batches[..|batches|] == batches;
    assert FitsAt(inspect, batches, |batches|) <==> FitsTogether(inspect, batches);
    forall n: nat | n <= |init| ensures FitsAt(inspect, batches, n) <==> FitsAt(inspect, init, n) {
      assert batches[..n] == init[..n];
    }
  }

  /** A chain is built without conflict exactly when, at each of its lengths, what the simple rule takes fits
      together. */
  lemma {:induction false} BuildsExactly(inspect: Inspection, batches: seq<seq<Package>>)
    requires forall k :: 0 <= k < |batches| ==> AllGenuine(inspect, batches[k])
    ensures Build(batches).Some? <==> |batches| > 0 && forall n: nat :: 1 <= n <= |batches| ==> FitsAt(inspect, batches, n)
    decreases |batches|
  {
    if |batches| > 0 {
      var init := batches[..|batches| - 1];
      BuildsExactly(inspect, init);
      FitsAtStep(inspect, batches);
      if |init| == 0 || Build(init).Some? { LastMergeFits(inspect, batches); }
    }
  }

  // ----- releases -----

  /** What a release takes from its source version. */
  function Selected(v: Version, excluded: set<Text>): Version {
    Retained(v, excluded)
  }

  predicate ReleaseFileName(name: Text) {
    |name| >= 4 && 47 !in name && name[|name| - 4..] == [46, 114, 112, 109]
  }

  predicate Selectable(v: Version, f: Text, excluded: set<Text>)
    requires f in v.rpms
  {
    v.rpms[f].spec in excluded || (ReleaseFileName(v.rpms[f].fileName) && v.rpms[f].fileName in v.files)
  }

  /** Links every package whose spec is not excluded; an entry without a proper file is an error. */
  method SelectPackages(source: Version, excluded: set<Text>) returns (r: Option<Version>)
    requires forall f :: f in source.rpms ==> source.rpms[f].fileName == f
    ensures r.Some? <==> forall f :: f in source.rpms ==> Selectable(source, f, excluded)
    ensures r.Some? ==> r.value == Selected(source, excluded)
  {
    var rest := source.rpms.Keys;
    var selected: Rpms := map[];
    var linked: Tree := map[];
    while rest != {}
      invariant rest <= source.rpms.Keys && forall f :: f in source.rpms.Keys - rest ==> Selectable(source, f, excluded)
      invariant Version(selected, linked) == Picked(source, source.rpms.Keys - rest, excluded)
      decreases |rest|
    {
      var f :| f in rest;
      var meta := source.rpms[f];
      PickedStep(source, source.rpms.Keys - rest, excluded, f);
      assert source.rpms.Keys - (rest - {f}) == source.rpms.Keys - rest + {f};
      if meta.spec !in excluded {
        if !ReleaseFileName(meta.fileName) || meta.fileName !in source.files {
          assert !Selectable(source, f, excluded);
          return None;
        }
        linked, selected := linked[meta.fileName := source.files[meta.fileName]], selected[meta.fileName := meta];
      }
      rest := rest - {f};
    }
    assert source.rpms.Keys - rest == source.rpms.Keys;
    return Some(Version(selected, linked));
  }

  /** A release contains exactly the packages of its source whose spec is not excluded. */
  lemma SelectedIsRest(inspect: Inspection, v: Version, excluded: set<Text>, p: Package)
    requires VersionSound(inspect, v)
    ensures Contains(Selected(v, excluded), p) <==> Contains(v, p) && p.rpm.spec !in excluded
    ensures VersionSound(inspect, Selected(v, excluded))
  {
    RetainedIsSound(inspect, v, excluded);
  }

  /** Selecting from a version fails exactly when a package that it would take has a name that does not end
      in ".rpm" in lower case. */
  lemma SelectsExactly(inspect: Inspection, v: Version, excluded: set<Text>)
    requires VersionSound(inspect, v)
    ensures (forall f :: f in v.rpms ==> Selectable(v, f, excluded)) <==>
            (forall p :: Contains(v, p) && p.rpm.spec !in excluded ==>
              p.rpm.fileName[|p.rpm.fileName| - 4..] == Ascii(".rpm"))
  {
    forall f | f in v.rpms ensures Contains(v, Package(v.rpms[f], v.files[f])) && FileName(f) {
      assert Genuine(inspect, Package(v.rpms[f], v.files[f]));
    }
    assert Ascii(".rpm") == [46, 114, 112, 109];
    if forall p :: Contains(v, p) && p.rpm.spec !in excluded ==> p.rpm.fileName[|p.rpm.fileName| - 4..] == Ascii(".rpm") {
      forall f | f in v.rpms ensures Selectable(v, f, excluded) {
        assert Contains(v, Package(v.rpms[f], v.files[f]));
      }
    }
    forall p | Contains(v, p) && p.rpm.spec !in excluded && forall f :: f in v.rpms ==> Selectable(v, f, excluded)
      ensures p.rpm.fileName[|p.rpm.fileName| - 4..] == Ascii(".rpm")
    {
      assert Selectable(v, p.rpm.fileName, excluded);
    }
  }

  // ----- the digest of a version or a release -----

  /** The directory of a version: its packages and other files, such as the repository metadata. */
  ghost predicate TreeOf(tree: Tree, v: Version) {
    (forall f :: f in v.files ==> PACKAGES + f in tree && tree[PACKAGES + f] == v.files[f]) &&
    forall p :: p in tree && PACKAGES <= p ==> p[|PACKAGES|..] in v.files
  }

  lemma SoundIsIndexed(inspect: Inspection, v: Version, tree: Tree)
    requires VersionSound(inspect, v) && TreeOf(tree, v)
    ensures Indexed(tree, v.rpms) && Truthful(tree, v.rpms)
  {
    forall p | p in tree && PACKAGES <= p
      ensures Entered(tree, v.rpms, p)
    {
      var f := p[|PACKAGES|..];
      assert p == PACKAGES + f;
      assert Genuine(inspect, Package(v.rpms[f], v.files[f]));
    }
    forall f | f in v.rpms && PACKAGES + f in tree ensures v.rpms[f].sum == Sha256(tree[PACKAGES + f]) {
      assert Genuine(inspect, Package(v.rpms[f], v.files[f]));
    }
  }

  /** The digest that materialising a version, or a release selected from it, stores is the digest that
      recovery recomputes from the files: what was published just before a stop is accepted. */
  lemma PublishedIsAccepted(
      inspect: Inspection, batches: seq<seq<Package>>, excluded: set<Text>, format: Format, tree: Tree,
      names: seq<Text>, again: seq<Text>)
    requires (forall k :: 0 <= k < |batches| ==> AllGenuine(inspect, batches[k])) && Build(batches).Some?
    requires TreeOf(tree, Selected(Build(batches).value, excluded)) && Lists(names, tree) && Lists(again, tree)
    ensures var rpms := Selected(Build(batches).value, excluded).rpms;
      Indexed(tree, rpms) && Sha256(TreeText(format, tree, Some(rpms), names)) == TreeDigest(format, tree, again)
  {
    ChainIsLatest(inspect, batches);
    RetainedIsSound(inspect, Build(batches).value, excluded);
    var v := Selected(Build(batches).value, excluded);
    SoundIsIndexed(inspect, v, tree);
    StoredSumsAreAccepted(format, tree, v.rpms, names, again);
  }
}
