/** Directory digests: a hash over one line of text per file, in the order of the file names. Packages
    may be hashed by the sums that an index has stored, instead of reading them again. */
module Digests {
  import opened Core
  import opened ManifestText

  /** What an index says of a package. */
  datatype Rpm = Rpm(
    fileName: Text, sum: Digest, size: int,
    name: Text, epoch: Text, version: Text, release: Text, arch: Text, spec: Text)

  type Rpms = map<Text, Rpm>

  /** The files below a directory, except its own index file. */
  type Tree = map<Text, Bytes>

  const PACKAGES: Text := Ascii("Packages/")

  predicate Less(a: Text, b: Text) {
    if |b| == 0 then false
    else if |a| == 0 then true
    else a[0] < b[0] || (a[0] == b[0] && Less(a[1..], b[1..]))
  }

  /** The walk of a directory, sorted by name. */
  ghost predicate Lists(names: seq<Text>, tree: Tree) {
    (forall i, k :: 0 <= i < k < |names| ==> Less(names[i], names[k])) && forall p :: p in names <==> p in tree
  }

  lemma {:induction false} LessAsymmetric(a: Text, b: Text)
    requires Less(a, b)
    ensures !Less(b, a)
  {
    if |a| > 0 && a[0] == b[0] { LessAsymmetric(a[1..], b[1..]); }
  }

  lemma ListsDistinct(names: seq<Text>, tree: Tree)
    requires Lists(names, tree)
    ensures forall i, k :: 0 <= i < k < |names| ==> names[i] != names[k]
  {
    forall i, k | 0 <= i < k < |names| ensures names[i] != names[k] {
      LessAsymmetric(names[i], names[k]);
    }
  }

  /** A directory has only one sorted walk. */
  lemma {:induction false} ListingUnique(a: seq<Text>, b: seq<Text>)
    requires (forall i, k :: 0 <= i < k < |a| ==> Less(a[i], a[k])) && (forall i, k :: 0 <= i < k < |b| ==> Less(b[i], b[k]))
    requires forall p :: p in a <==> p in b
    ensures a == b
    decreases |a|
  {
    assert |b| == 0 || b[0] in b;
    if |a| > 0 {
      assert a[0] in b;
      var k :| 0 <= k < |b| && b[k] == a[0];
      assert b[0] in a;
      var i :| 0 <= i < |a| && a[i] == b[0];
      if k > 0 { LessAsymmetric(b[0], b[k]); }
      assert b[0] == a[0];
      forall p ensures p in a[1..] <==> p in b[1..] {
        TailMembers(a, p);
        TailMembers(b, p);
      }
      ListingUnique(a[1..], b[1..]);
      assert a == [a[0]] + a[1..] && b == [b[0]] + b[1..];
    }
  }

  lemma TailMembers(a: seq<Text>, p: Text)
    requires |a| > 0 && forall i, k :: 0 <= i < k < |a| ==> Less(a[i], a[k])
    ensures p in a[1..] <==> p in a && p != a[0]
  {
    if p in a[1..] {
      var i :| 0 <= i < |a| - 1 && a[1..][i] == p;
      LessAsymmetric(a[0], a[i + 1]);
    }
  }

  // ----- the text that is hashed -----

  /** n as k bytes, most significant first. */
  function BigEndian(n: nat, k: nat): (t: Text)
    ensures |t| == k
  {
    if k == 0 then [] else BigEndian(n / 256, k - 1) + [(n % 256) as byte]
  }

  const LENGTH_LIMIT: nat := 0x1_0000_0000_0000_0000

  /** A value with its length in eight bytes in front. */
  function Frame(v: Text): Text {
    BigEndian(|v|, 8) + v
  }

  /** Repository digests frame their fields; release digests end them with NUL and leave out the size. */
  datatype Format = RepositoryFormat | ReleaseFormat

  function Frames(values: seq<Text>): (t: Text) {
    if |values| == 0 then [] else Frame(values[0]) + Frames(values[1..])
  }

  function Ended(values: seq<Text>): (t: Text) {
    if |values| == 0 then [] else values[0] + [0] + Ended(values[1..])
  }

  function FileLine(format: Format, path: Text, size: int, sum: Digest): Text {
    match format
    case RepositoryFormat => Frames([path, Decimal(size), Hex(sum.preimage)])
    case ReleaseFormat => Ended([path, Hex(sum.preimage)])
  }

  /** The package that a path names, if the digest is to use the index. */
  predicate FromIndex(rpms: Option<Rpms>, path: Text) {
    rpms.Some? && PACKAGES <= path && path[|PACKAGES|..] in rpms.value
  }

  function SumOf(tree: Tree, rpms: Option<Rpms>, path: Text): Digest
    requires path in tree
  {
    if FromIndex(rpms, path) then rpms.value[path[|PACKAGES|..]].sum else Sha256(tree[path])
  }

  function TreeText(format: Format, tree: Tree, rpms: Option<Rpms>, names: seq<Text>): Text
    requires forall p :: p in names ==> p in tree
  {
    if |names| == 0 then []
    else
      var last := names[|names| - 1];
      TreeText(format, tree, rpms, names[..|names| - 1]) + FileLine(format, last, |tree[last]|, SumOf(tree, rpms, last))
  }

  /** The digest recomputed from the contents of the files. */
  function TreeDigest(format: Format, tree: Tree, names: seq<Text>): Digest
    requires forall p :: p in names ==> p in tree
  {
    Sha256(TreeText(format, tree, None, names))
  }

  /** A file under Packages has an entry of its name and size. */
  predicate Entered(tree: Tree, rpms: Rpms, path: Text)
    requires path in tree
  {
    PACKAGES <= path ==>
      var name := path[|PACKAGES|..];
      name in rpms && 47 !in name && rpms[name].fileName == name && rpms[name].size == |tree[path]|
  }

  /** The package files and the entries of the index correspond exactly. */
  ghost predicate Indexed(tree: Tree, rpms: Rpms) {
    (forall p :: p in tree ==> Entered(tree, rpms, p)) && forall name :: name in rpms ==> PACKAGES + name in tree
  }

  /** The stored sums are those of the files. */
  ghost predicate Truthful(tree: Tree, rpms: Rpms) {
    forall name :: name in rpms && PACKAGES + name in tree ==> rpms[name].sum == Sha256(tree[PACKAGES + name])
  }

  /** The packages among the first files of a walk. */
  ghost function Seen(names: seq<Text>): set<Text> {
    set p | p in names && PACKAGES <= p :: p[|PACKAGES|..]
  }

  lemma SeenGrows(names: seq<Text>, path: Text)
    requires path !in names
    ensures PACKAGES <= path ==>
      Seen(names + [path]) == Seen(names) + {path[|PACKAGES|..]} && path[|PACKAGES|..] !in Seen(names)
    ensures !(PACKAGES <= path) ==> Seen(names + [path]) == Seen(names)
  {
    if PACKAGES <= path {
      var name := path[|PACKAGES|..];
      assert path == PACKAGES + name;
      forall p | p in names && PACKAGES <= p ensures p[|PACKAGES|..] != name { assert p == PACKAGES + p[|PACKAGES|..]; }
    }
  }

  /** When every package file has an entry, comparing the two counts decides whether every entry has a file. */
  lemma CountDecides(tree: Tree, names: seq<Text>, rpms: Rpms)
    requires Lists(names, tree) && forall p :: p in tree ==> Entered(tree, rpms, p)
    ensures |Seen(names)| == |rpms| <==> Indexed(tree, rpms)
  {
    var seen := Seen(names);
    assert seen <= rpms.Keys;
    if |seen| == |rpms| {
      SubsetOfSameSize(seen, rpms.Keys);
      forall name | name in rpms ensures PACKAGES + name in tree {
        assert name in seen;
        var p :| p in names && PACKAGES <= p && p[|PACKAGES|..] == name;
        assert p == PACKAGES + name;
      }
    }
    if Indexed(tree, rpms) {
      forall name | name in rpms ensures name in seen {
        var p := PACKAGES + name;
        assert p in names && PACKAGES <= p && p[|PACKAGES|..] == name;
      }
      assert seen == rpms.Keys;
    }
  }

  lemma {:induction false} SubsetOfSameSize(a: set<Text>, b: set<Text>)
    requires a <= b && |a| == |b|
    ensures a == b
  {
    if a != {} {
      var x :| x in a;
      SubsetOfSameSize(a - {x}, b - {x});
    }
  }

  lemma SeenStep(names: seq<Text>, i: nat)
    requires i < |names| && forall k :: 0 <= k < i ==> names[k] != names[i]
    ensures |Seen(names[..i + 1])| == |Seen(names[..i])| + if PACKAGES <= names[i] then 1 else 0
  {
    assert names[..i + 1] == names[..i] + [names[i]];
    SeenGrows(names[..i], names[i]);
  }

  lemma TreeTextStep(format: Format, tree: Tree, rpms: Option<Rpms>, names: seq<Text>, i: nat)
    requires i < |names| && forall p :: p in names ==> p in tree
    ensures TreeText(format, tree, rpms, names[..i + 1]) ==
      TreeText(format, tree, rpms, names[..i]) + FileLine(format, names[i], |tree[names[i]]|, SumOf(tree, rpms, names[i]))
  {
    assert names[..i + 1][..i] == names[..i];
  }

  /** The sum of one file: stored, if the index has the package, or else computed. */
  method SumFile(tree: Tree, rpms: Option<Rpms>, path: Text) returns (sum: Option<Digest>, counted: bool)
    requires path in tree
    ensures sum.Some? <==> (rpms.Some? ==> Entered(tree, rpms.value, path))
    ensures sum.Some? ==> sum.value == SumOf(tree, rpms, path)
    ensures sum.Some? ==> (counted <==> rpms.Some? && PACKAGES <= path)
  {
    if rpms.Some? && PACKAGES <= path {
      var name := path[|PACKAGES|..];
      if name !in rpms.value { return None, false; }
      var meta := rpms.value[name];
      if 47 in name || meta.fileName != name || meta.size != |tree[path]| { return None, false; }
      return Some(meta.sum), true;
    }
    return Some(Sha256(tree[path])), false;
  }

  /** The digest of a directory, with the sums of an index if there is one. It fails exactly when the
      index does not correspond to the package files. */
  method DigestDirectory(format: Format, tree: Tree, names: seq<Text>, rpms: Option<Rpms>) returns (r: Option<Digest>)
    requires Lists(names, tree)
    ensures r.Some? <==> (rpms.Some? ==> Indexed(tree, rpms.value))
    ensures r.Some? ==> r.value == Sha256(TreeText(format, tree, rpms, names))
  {
    var text: Text := [];
    var seenRPMs := 0;
    ListsDistinct(names, tree);
    for i := 0 to |names|
      invariant text == TreeText(format, tree, rpms, names[..i])
      invariant rpms.Some? ==> seenRPMs == |Seen(names[..i])|
      invariant rpms.Some? ==> forall k :: 0 <= k < i ==> Entered(tree, rpms.value, names[k])
    {
      var path := names[i];
      assert path in tree;
      var sum, counted := SumFile(tree, rpms, path);
      if sum.None? { return None; }
      TreeTextStep(format, tree, rpms, names, i);
      SeenStep(names, i);
      if counted { seenRPMs := seenRPMs + 1; }
      text := text + FileLine(format, path, |tree[path]|, sum.value);
    }
    assert names[..|names|] == names;
    if rpms.Some? {
      forall p | p in tree ensures Entered(tree, rpms.value, p) { assert p in names; }
      CountDecides(tree, names, rpms.value);
      if seenRPMs != |rpms.value| { return None; }
    }
    return Some(Sha256(text));
  }

  // ----- reusing stored sums changes nothing -----

  lemma {:induction false} StoredSumsGiveTreeText(format: Format, tree: Tree, rpms: Rpms, names: seq<Text>)
    requires (forall p :: p in names ==> p in tree) && Truthful(tree, rpms)
    ensures TreeText(format, tree, Some(rpms), names) == TreeText(format, tree, None, names)
  {
    if |names| > 0 {
      var last := names[|names| - 1];
      StoredSumsGiveTreeText(format, tree, rpms, names[..|names| - 1]);
      if FromIndex(Some(rpms), last) { assert last == PACKAGES + last[|PACKAGES|..]; }
    }
  }

  /** The digest that reuses true sums is the digest recomputed from the contents, whatever sorted walk
      the recomputation takes: so a directory that was published just before a stop is accepted. */
  lemma StoredSumsAreAccepted(format: Format, tree: Tree, rpms: Rpms, names: seq<Text>, again: seq<Text>)
    requires Lists(names, tree) && Lists(again, tree) && Truthful(tree, rpms)
    ensures Sha256(TreeText(format, tree, Some(rpms), names)) == TreeDigest(format, tree, again)
  {
    ListingUnique(names, again);
    StoredSumsGiveTreeText(format, tree, rpms, names);
  }

  // ----- the digest determines the directory -----

  lemma {:induction false} BigEndianUnique(m: nat, n: nat, k: nat, limit: nat)
    requires BigEndian(m, k) == BigEndian(n, k) && m < limit && n < limit && limit == Power(k)
    ensures m == n
    decreases k
  {
    if k > 0 {
      var t, u := BigEndian(m, k), BigEndian(n, k);
      assert t[k - 1] == (m % 256) as byte && u[k - 1] == (n % 256) as byte;
      assert t[..k - 1] == BigEndian(m / 256, k - 1) && u[..k - 1] == BigEndian(n / 256, k - 1);
      BigEndianUnique(m / 256, n / 256, k - 1, Power(k - 1));
    }
  }

  function Power(k: nat): nat {
    if k == 0 then 1 else 256 * Power(k - 1)
  }

  lemma LengthLimit()
    ensures Power(8) == LENGTH_LIMIT
  {
    assert Power(4) == 0x1_0000_0000;
    assert Power(8) == 0x1_0000_0000 * Power(4);
  }

  /** A framed value is read back unambiguously. */
  lemma FrameUnique(a: Text, b: Text, r: Text, s: Text)
    requires Frame(a) + r == Frame(b) + s && |a| < LENGTH_LIMIT && |b| < LENGTH_LIMIT
    ensures a == b && r == s
  {
    var l, m := Frame(a) + r, Frame(b) + s;
    assert l[..8] == BigEndian(|a|, 8) && m[..8] == BigEndian(|b|, 8);
    LengthLimit();
    BigEndianUnique(|a|, |b|, 8, LENGTH_LIMIT);
    assert a == l[8..8 + |a|] && b == m[8..8 + |b|];
    assert r == l[8 + |a|..] && s == m[8 + |b|..];
  }

  /** Lengths fit their eight bytes, and names contain no NUL. */
  predicate Writable(path: Text, content: Bytes) {
    |path| < LENGTH_LIMIT && |Decimal(|content|)| < LENGTH_LIMIT && 2 * |content| < LENGTH_LIMIT && 0 !in path
  }

  function ContentLine(format: Format, tree: Tree, path: Text): (t: Text)
    requires path in tree
    ensures |t| > 0
  {
    FileLine(format, path, |tree[path]|, Sha256(tree[path]))
  }

  lemma FramesSplit(a: seq<Text>, r: Text)
    requires |a| > 0
    ensures Frames(a) + r == Frame(a[0]) + (Frames(a[1..]) + r)
  {
  }

  lemma {:induction false} FramesThenUnique(a: seq<Text>, b: seq<Text>, r: Text, s: Text)
    requires |a| == |b| && Frames(a) + r == Frames(b) + s
    requires (forall v :: v in a ==> |v| < LENGTH_LIMIT) && (forall v :: v in b ==> |v| < LENGTH_LIMIT)
    ensures a == b && r == s
  {
    if |a| == 0 {
      assert Frames(a) + r == r && Frames(b) + s == s;
    } else {
      var x, y := Frames(a[1..]) + r, Frames(b[1..]) + s;
      assert a[0] in a && b[0] in b;
      FramesSplit(a, r);
      FramesSplit(b, s);
      FrameUnique(a[0], b[0], x, y);
      FramesThenUnique(a[1..], b[1..], r, s);
      assert a == [a[0]] + a[1..] && b == [b[0]] + b[1..];
    }
  }

  lemma {:induction false} EndedThenUnique(a: seq<Text>, b: seq<Text>, r: Text, s: Text)
    requires |a| == |b| && Ended(a) + r == Ended(b) + s
    requires (forall v: Text :: v in a ==> 0 !in v) && (forall v: Text :: v in b ==> 0 !in v)
    ensures a == b && r == s
  {
    if |a| == 0 {
      assert Ended(a) + r == r && Ended(b) + s == s;
    } else {
      var x, y := Ended(a[1..]) + r, Ended(b[1..]) + s;
      assert a[0] in a && b[0] in b;
      assert Ended(a) + r == a[0] + [0] + x && Ended(b) + s == b[0] + [0] + y;
      FieldUnique(a[0], b[0], x, y);
      EndedThenUnique(a[1..], b[1..], r, s);
      assert a == [a[0]] + a[1..] && b == [b[0]] + b[1..];
    }
  }

  function ContentLines(format: Format, tree: Tree, names: seq<Text>): seq<Text>
    requires forall p :: p in names ==> p in tree
  {
    seq(|names|, i requires 0 <= i < |names| => ContentLine(format, tree, names[i]))
  }

  lemma {:induction false} TreeTextIsLines(format: Format, tree: Tree, names: seq<Text>)
    requires forall p :: p in names ==> p in tree
    ensures TreeText(format, tree, None, names) == Flatten(ContentLines(format, tree, names))
  {
    if |names| > 0 {
      var n := |names| - 1;
      TreeTextIsLines(format, tree, names[..n]);
      assert ContentLines(format, tree, names)[..n] == ContentLines(format, tree, names[..n]);
      assert ContentLines(format, tree, names)[n] == ContentLine(format, tree, names[n]);
    }
  }

  lemma FlattenTail(lines: seq<Bytes>, rest: seq<Bytes>)
    requires |lines| == |rest| + 1 && forall i :: 0 <= i < |rest| ==> rest[i] == lines[i + 1]
    ensures Flatten(lines) == lines[0] + Flatten(rest)
  {
    FlattenFromFront(lines);
    assert lines[1..] == rest;
  }

  lemma LinesFromFront(format: Format, tree: Tree, names: seq<Text>)
    requires |names| > 0 && forall p :: p in names ==> p in tree
    ensures Flatten(ContentLines(format, tree, names)) ==
      ContentLine(format, tree, names[0]) + Flatten(ContentLines(format, tree, names[1..]))
  {
    var lines, rest := ContentLines(format, tree, names), ContentLines(format, tree, names[1..]);
    forall i | 0 <= i < |rest| ensures rest[i] == lines[i + 1] { assert names[1..][i] == names[i + 1]; }
    FlattenTail(lines, rest);
  }

  lemma LineUnique(format: Format, t: Tree, u: Tree, p: Text, q: Text, r: Text, s: Text)
    requires p in t && q in u && Writable(p, t[p]) && Writable(q, u[q])
    requires ContentLine(format, t, p) + r == ContentLine(format, u, q) + s
    ensures p == q && t[p] == u[q] && r == s
  {
    if format.RepositoryFormat? {
      var a, b := [p, Decimal(|t[p]|), Hex(t[p])], [q, Decimal(|u[q]|), Hex(u[q])];
      FramesThenUnique(a, b, r, s);
      assert a[0] == b[0] && a[2] == b[2];
    } else {
      var a, b := [p, Hex(t[p])], [q, Hex(u[q])];
      EndedThenUnique(a, b, r, s);
      assert a[0] == b[0] && a[1] == b[1];
    }
    HexUnique(t[p], u[q]);
  }

  lemma HeadsUnique(format: Format, t: Tree, u: Tree, a: seq<Text>, b: seq<Text>)
    requires (forall p :: p in a ==> p in t && Writable(p, t[p])) && (forall p :: p in b ==> p in u && Writable(p, u[p]))
    requires |a| > 0 && |b| > 0 && Flatten(ContentLines(format, t, a)) == Flatten(ContentLines(format, u, b))
    ensures a[0] == b[0] && t[a[0]] == u[b[0]]
    ensures Flatten(ContentLines(format, t, a[1..])) == Flatten(ContentLines(format, u, b[1..]))
  {
    LinesFromFront(format, t, a);
    LinesFromFront(format, u, b);
    LineUnique(format, t, u, a[0], b[0], Flatten(ContentLines(format, t, a[1..])), Flatten(ContentLines(format, u, b[1..])));
  }

  lemma LinesEmpty(format: Format, tree: Tree, names: seq<Text>)
    requires forall p :: p in names ==> p in tree
    ensures |Flatten(ContentLines(format, tree, names))| == 0 <==> |names| == 0
  {
    if |names| > 0 { LinesFromFront(format, tree, names); }
  }

  lemma {:induction false} LinesUnique(format: Format, t: Tree, u: Tree, a: seq<Text>, b: seq<Text>)
    requires (forall p :: p in a ==> p in t && Writable(p, t[p])) && (forall p :: p in b ==> p in u && Writable(p, u[p]))
    requires Flatten(ContentLines(format, t, a)) == Flatten(ContentLines(format, u, b))
    ensures a == b && forall p :: p in a ==> t[p] == u[p]
    decreases |a|
  {
    LinesEmpty(format, t, a);
    LinesEmpty(format, u, b);
    if |a| > 0 {
      HeadsUnique(format, t, u, a, b);
      LinesUnique(format, t, u, a[1..], b[1..]);
      assert a == [a[0]] + a[1..] && b == [b[0]] + b[1..];
    }
  }

  /** Directories with the same recomputed digest are the same, file by file. */
  lemma DigestDeterminesTree(format: Format, t: Tree, u: Tree, a: seq<Text>, b: seq<Text>)
    requires Lists(a, t) && Lists(b, u) && TreeDigest(format, t, a) == TreeDigest(format, u, b)
    requires (forall p :: p in t ==> Writable(p, t[p])) && (forall p :: p in u ==> Writable(p, u[p]))
    ensures t == u
  {
    TreeTextIsLines(format, t, a);
    TreeTextIsLines(format, u, b);
    LinesUnique(format, t, u, a, b);
    forall p ensures p in t <==> p in u { assert p in a <==> p in b; }
  }

  // ----- repository identifiers -----

  /** The identifier of a version: project, build, base version and the names of its jobs. */
  function VersionUid(project: Text, build: Text, base: Text, jobs: seq<Text>): Digest {
    Sha256(Frames([project, build, base] + jobs))
  }

  lemma {:induction false} FramesUnique(a: seq<Text>, b: seq<Text>)
    requires (forall v :: v in a ==> |v| < LENGTH_LIMIT) && (forall v :: v in b ==> |v| < LENGTH_LIMIT)
    requires Frames(a) == Frames(b)
    ensures a == b
    decreases |a|
  {
    if |a| > 0 && |b| > 0 {
      assert a[0] in a && b[0] in b;
      FrameUnique(a[0], b[0], Frames(a[1..]), Frames(b[1..]));
      FramesUnique(a[1..], b[1..]);
      assert a == [a[0]] + a[1..] && b == [b[0]] + b[1..];
    }
  }

  /** Different versions never share an identifier. */
  lemma VersionUidUnique(p: Text, b: Text, base: Text, jobs: seq<Text>, q: Text, c: Text, base': Text, jobs': seq<Text>)
    requires VersionUid(p, b, base, jobs) == VersionUid(q, c, base', jobs')
    requires forall v :: v in [p, b, base] + jobs || v in [q, c, base'] + jobs' ==> |v| < LENGTH_LIMIT
    ensures p == q && b == c && base == base' && jobs == jobs'
  {
    var a, d := [p, b, base] + jobs, [q, c, base'] + jobs';
    FramesUnique(a, d);
    assert a[0] == d[0] && a[1] == d[1] && a[2] == d[2] && a[3..] == jobs && d[3..] == jobs';
  }
}
