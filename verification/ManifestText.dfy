/** The digest of a manifest: a hash over one line of text per file. Strings are byte strings. */
module ManifestText {
  import opened Core

  type Text = Bytes

  datatype Category = ArtifactFile | LogFile

  datatype Entry = Entry(id: Text, path: Text, category: Category, size: int, sum: Digest, required: bool)

  function Ascii(s: string): (t: Text)
    ensures |t| == |s|
  {
    seq(|s|, i requires 0 <= i < |s| => if s[i] as int < 128 then s[i] as int as byte else 63)
  }

  function Decimal(n: int): (t: Text)
    ensures |t| > 0 && (t[0] == 45 <==> n < 0) && 0 !in t
    decreases n < 0, if n < 0 then -n else n
  {
    if n < 0 then [45] + Decimal(-n)
    else if n < 10 then [48 + n as byte]
    else Decimal(n / 10) + [48 + (n % 10) as byte]
  }

  function LowerHexDigit(n: byte): (c: byte)
    requires n < 16
    ensures c != 0
  {
    if n < 10 then 48 + n else 87 + n
  }

  /** The text of a digest. As a digest stands for what was hashed, so does its text. */
  function Hex(b: Bytes): (t: Text)
    ensures |t| == 2 * |b| && 0 !in t
  {
    if |b| == 0 then [] else [LowerHexDigit(b[0] / 16), LowerHexDigit(b[0] % 16)] + Hex(b[1..])
  }

  function CategoryText(c: Category): (t: Text)
    ensures 0 !in t
  {
    if c.ArtifactFile? then [97, 114, 116, 105, 102, 97, 99, 116] else [108, 111, 103]
  }

  function BoolText(b: bool): Text {
    if b then [116, 114, 117, 101] else [102, 97, 108, 115, 101]
  }

  function Values(e: Entry): Text {
    Decimal(e.size) + [0] + (Hex(e.sum.preimage) + [0] + (BoolText(e.required) + [10]))
  }

  /** Five fields ended by NUL, then the flag and a newline. */
  function Line(e: Entry): (t: Text)
    ensures |t| > 0
  {
    e.path + [0] + (e.id + [0] + (CategoryText(e.category) + [0] + Values(e)))
  }

  function Lines(files: seq<Entry>): (t: Text)
    ensures |t| == 0 <==> |files| == 0
  {
    if |files| == 0 then [] else Lines(files[..|files| - 1]) + Line(files[|files| - 1])
  }

  const HEADER: Text := Ascii("artifact-manifest-v1\n")

  // ----- sorting by path -----

  /** Byte by byte; a proper beginning comes first. */
  predicate Before(a: Text, b: Text) {
    |b| > 0 && (|a| == 0 || a[0] < b[0] || (a[0] == b[0] && Before(a[1..], b[1..])))
  }

  function Inserted(files: seq<Entry>, e: Entry): seq<Entry> {
    if |files| > 0 && Before(e.path, files[|files| - 1].path)
    then Inserted(files[..|files| - 1], e) + [files[|files| - 1]]
    else files + [e]
  }

  /** The list in the order of its paths. */
  function Sorted(files: seq<Entry>): seq<Entry> {
    if |files| == 0 then [] else Inserted(Sorted(files[..|files| - 1]), files[|files| - 1])
  }

  /** The digest of a list, whatever its order. */
  function ManifestDigest(files: seq<Entry>): Digest {
    Sha256(HEADER + Lines(Sorted(files)))
  }

  method DigestManifest(files: seq<Entry>) returns (d: Digest)
    ensures d == ManifestDigest(files)
  {
    var sorted := Sorted(files);
    var text := Ascii("artifact-manifest-v1\n");
    for i := 0 to |sorted|
      invariant text == HEADER + Lines(sorted[..i])
    {
      LinesContinue(sorted, i);
      text := text + Line(sorted[i]);
    }
    assert sorted[..|sorted|] == sorted;
    return Sha256(text);
  }

  lemma LinesContinue(files: seq<Entry>, i: nat)
    requires i < |files|
    ensures HEADER + Lines(files[..i + 1]) == HEADER + Lines(files[..i]) + Line(files[i])
  {
    assert files[..i + 1][..i] == files[..i];
  }

  lemma {:induction false} BeforeOrders(a: Text, b: Text)
    ensures !(Before(a, b) && Before(b, a)) && (a != b ==> Before(a, b) || Before(b, a))
    decreases |a|
  {
    if |a| > 0 && |b| > 0 && a[0] == b[0] {
      BeforeOrders(a[1..], b[1..]);
      assert a == [a[0]] + a[1..] && b == [b[0]] + b[1..];
    }
  }

  lemma {:induction false} BeforeTransitive(a: Text, b: Text, c: Text)
    requires Before(a, b) && Before(b, c)
    ensures Before(a, c)
    decreases |a|
  {
    if |a| > 0 && a[0] == b[0] == c[0] { BeforeTransitive(a[1..], b[1..], c[1..]); }
  }

  /** No path comes after a later one. */
  ghost predicate Ordered(files: seq<Entry>) {
    forall i, k :: 0 <= i < k < |files| ==> !Before(files[k].path, files[i].path)
  }

  /** A path that does not come before another does not come before what that one does not precede. */
  lemma NotBefore(a: Text, b: Text, c: Text)
    requires !Before(b, a) && !Before(c, b)
    ensures !Before(c, a)
  {
    BeforeOrders(a, b);
    BeforeOrders(b, c);
    if Before(c, a) && a != b && b != c { BeforeTransitive(a, b, c); BeforeOrders(a, c); }
  }

  lemma {:induction false} InsertedAdds(files: seq<Entry>, e: Entry)
    ensures multiset(Inserted(files, e)) == multiset(files) + multiset{e}
  {
    if |files| > 0 {
      var n := |files| - 1;
      assert files == files[..n] + [files[n]];
      InsertedAdds(files[..n], e);
    }
  }

  lemma OrderedThen(front: seq<Entry>, last: Entry)
    requires Ordered(front) && forall x :: x in front ==> !Before(last.path, x.path)
    ensures Ordered(front + [last])
  {
    var all := front + [last];
    forall i, k | 0 <= i < k < |all| ensures !Before(all[k].path, all[i].path) {
      assert all[i] == front[i] && front[i] in front;
    }
  }

  lemma {:induction false} InsertedIsOrdered(files: seq<Entry>, e: Entry)
    requires Ordered(files)
    ensures Ordered(Inserted(files, e))
  {
    if |files| == 0 {
    } else if Before(e.path, files[|files| - 1].path) {
      var n := |files| - 1;
      InsertedIsOrdered(files[..n], e);
      InsertedAdds(files[..n], e);
      BeforeOrders(e.path, files[n].path);
      forall x | x in Inserted(files[..n], e) ensures !Before(files[n].path, x.path) {
        assert x in multiset(files[..n]) + multiset{e};
      }
      OrderedThen(Inserted(files[..n], e), files[n]);
    } else {
      LastIsLast(files, e);
      OrderedThen(files, e);
    }
  }

  lemma LastIsLast(files: seq<Entry>, e: Entry)
    requires Ordered(files) && |files| > 0 && !Before(e.path, files[|files| - 1].path)
    ensures forall x :: x in files ==> !Before(e.path, x.path)
  {
    var n := |files| - 1;
    forall i | 0 <= i < n ensures !Before(e.path, files[i].path) { NotBefore(files[i].path, files[n].path, e.path); }
  }

  /** Sorting puts the same entries in order. */
  lemma {:induction false} SortedIsOrdered(files: seq<Entry>)
    ensures Ordered(Sorted(files)) && multiset(Sorted(files)) == multiset(files)
  {
    if |files| > 0 {
      var n := |files| - 1;
      SortedIsOrdered(files[..n]);
      InsertedIsOrdered(Sorted(files[..n]), files[n]);
      InsertedAdds(Sorted(files[..n]), files[n]);
      WithoutLast(files);
    }
  }

  /** A list in order is left as it is. */
  lemma {:induction false} SortedFixes(files: seq<Entry>)
    requires Ordered(files)
    ensures Sorted(files) == files
  {
    if |files| > 0 {
      var n := |files| - 1;
      SortedFixes(files[..n]);
      assert files == files[..n] + [files[n]];
    }
  }

  lemma SortedDigest(files: seq<Entry>)
    ensures ManifestDigest(Sorted(files)) == ManifestDigest(files)
  {
    SortedIsOrdered(files);
    SortedFixes(Sorted(files));
  }

  ghost predicate DistinctPaths(files: seq<Entry>) {
    forall i, k :: 0 <= i < k < |files| ==> files[i].path != files[k].path
  }

  lemma LastIsUnique(a: seq<Entry>, b: seq<Entry>)
    requires Ordered(a) && Ordered(b) && DistinctPaths(a) && multiset(a) == multiset(b) && |a| == |b| > 0
    ensures a[|a| - 1] == b[|b| - 1]
  {
    var n := |a| - 1;
    assert a[n] in multiset(b) && b[n] in multiset(a);
    var i :| 0 <= i <= n && b[i] == a[n];
    var k :| 0 <= k <= n && a[k] == b[n];
    BeforeOrders(a[n].path, a[k].path);
  }

  lemma SameLength(a: seq<Entry>, b: seq<Entry>)
    requires multiset(a) == multiset(b)
    ensures |a| == |b|
  {
    assert |multiset(a)| == |a| && |multiset(b)| == |b|;
  }

  /** Without a repeated path, the entries determine the list in order. */
  lemma {:induction false} OrderIsUnique(a: seq<Entry>, b: seq<Entry>)
    requires Ordered(a) && Ordered(b) && DistinctPaths(a) && multiset(a) == multiset(b)
    ensures a == b
    decreases |a|
  {
    SameLength(a, b);
    if |a| > 0 {
      var n := |a| - 1;
      LastIsUnique(a, b);
      WithoutLast(a);
      WithoutLast(b);
      OrderIsUnique(a[..n], b[..n]);
    }
  }

  lemma WithoutLast(a: seq<Entry>)
    requires |a| > 0
    ensures var n := |a| - 1; a == a[..n] + [a[n]] && multiset(a[..n]) == multiset(a) - multiset{a[n]}
    ensures Ordered(a) ==> Ordered(a[..|a| - 1])
  {
    assert a == a[..|a| - 1] + [a[|a| - 1]];
  }

  /** The order in which a list without a repeated path is given does not matter. */
  lemma OrderDoesNotMatter(a: seq<Entry>, b: seq<Entry>)
    requires DistinctPaths(a) && multiset(a) == multiset(b)
    ensures Sorted(a) == Sorted(b) && ManifestDigest(a) == ManifestDigest(b)
  {
    SortedIsOrdered(a);
    SortedIsOrdered(b);
    PermutedIsDistinct(a, Sorted(a));
    OrderIsUnique(Sorted(a), Sorted(b));
  }

  /** A rearranged list repeats no path either. */
  lemma PermutedIsDistinct(a: seq<Entry>, b: seq<Entry>)
    requires DistinctPaths(a) && multiset(a) == multiset(b)
    ensures DistinctPaths(b)
  {
    forall i, k | 0 <= i < k < |b| && b[i].path == b[k].path ensures false {
      assert b[i] in multiset(a) && b[k] in multiset(a);
      if b[i] == b[k] {
        assert b == b[..i] + [b[i]] + b[i + 1..k] + [b[k]] + b[k + 1..];
        assert multiset(b)[b[i]] >= 2;
        OnceOnly(a, b[i]);
      }
    }
  }

  lemma {:induction false} OnceOnly(a: seq<Entry>, e: Entry)
    requires DistinctPaths(a)
    ensures multiset(a)[e] <= 1
  {
    if |a| > 0 {
      var n := |a| - 1;
      assert a == a[..n] + [a[n]];
      OnceOnly(a[..n], e);
      if a[n] == e {
        forall i | 0 <= i < n ensures a[..n][i] != e { assert a[i].path != a[n].path; }
      }
    }
  }

  // ----- the text determines the list -----

  /** A field that cannot contain its terminator is read back unambiguously. */
  lemma {:induction false} FieldUnique(a: Text, b: Text, r: Text, s: Text)
    requires 0 !in a && 0 !in b && a + [0] + r == b + [0] + s
    ensures a == b && r == s
    decreases |a|
  {
    var l, m := a + [0] + r, b + [0] + s;
    assert l[0] == if |a| > 0 then a[0] else 0;
    assert m[0] == if |b| > 0 then b[0] else 0;
    if |a| == 0 {
      assert r == l[1..] && s == m[1..];
    } else {
      assert l[1..] == a[1..] + [0] + r && m[1..] == b[1..] + [0] + s;
      FieldUnique(a[1..], b[1..], r, s);
    }
  }

  lemma {:induction false} DecimalUnique(m: int, n: int)
    requires Decimal(m) == Decimal(n)
    ensures m == n
    decreases m < 0, if m < 0 then -m else m
  {
    if m < 0 {
      assert Decimal(m)[1..] == Decimal(-m) && Decimal(n)[1..] == Decimal(-n);
      DecimalUnique(-m, -n);
    } else {
      var t, u := Decimal(m), Decimal(n);
      assert (m >= 10 <==> |t| > 1) && (n >= 10 <==> |u| > 1);
      assert t[|t| - 1] == 48 + (m % 10) as byte && u[|u| - 1] == 48 + (n % 10) as byte;
      if m >= 10 {
        assert t[..|t| - 1] == Decimal(m / 10) && u[..|u| - 1] == Decimal(n / 10);
        DecimalUnique(m / 10, n / 10);
      }
    }
  }

  lemma {:induction false} HexUnique(a: Bytes, b: Bytes)
    requires Hex(a) == Hex(b)
    ensures a == b
  {
    if |a| > 0 {
      var t, u := Hex(a), Hex(b);
      assert t[0] == LowerHexDigit(a[0] / 16) && u[0] == LowerHexDigit(b[0] / 16);
      assert t[1] == LowerHexDigit(a[0] % 16) && u[1] == LowerHexDigit(b[0] % 16);
      assert a[0] == b[0];
      assert t[2..] == Hex(a[1..]) && u[2..] == Hex(b[1..]);
      HexUnique(a[1..], b[1..]);
      assert a == [a[0]] + a[1..] && b == [b[0]] + b[1..];
    }
  }

  /** A path or an artifact identifier: neither ever contains NUL. */
  predicate Nameable(e: Entry) {
    0 !in e.path && 0 !in e.id
  }

  lemma FlagUnique(a: bool, b: bool, r: Text, s: Text)
    requires BoolText(a) + [10] + r == BoolText(b) + [10] + s
    ensures a == b && r == s
  {
    var l, m := BoolText(a) + [10] + r, BoolText(b) + [10] + s;
    assert l[0] == BoolText(a)[0] && m[0] == BoolText(b)[0];
    assert r == l[|BoolText(a)| + 1..] && s == m[|BoolText(b)| + 1..];
  }

  lemma ValuesUnique(e: Entry, f: Entry, r: Text, s: Text)
    requires Decimal(e.size) + [0] + (Hex(e.sum.preimage) + [0] + (BoolText(e.required) + [10] + r)) ==
             Decimal(f.size) + [0] + (Hex(f.sum.preimage) + [0] + (BoolText(f.required) + [10] + s))
    ensures e.size == f.size && e.sum == f.sum && e.required == f.required && r == s
  {
    var e5, f5 := BoolText(e.required) + [10] + r, BoolText(f.required) + [10] + s;
    FieldUnique(Decimal(e.size), Decimal(f.size), Hex(e.sum.preimage) + [0] + e5, Hex(f.sum.preimage) + [0] + f5);
    FieldUnique(Hex(e.sum.preimage), Hex(f.sum.preimage), e5, f5);
    FlagUnique(e.required, f.required, r, s);
    DecimalUnique(e.size, f.size);
    HexUnique(e.sum.preimage, f.sum.preimage);
  }

  lemma LineThen(e: Entry, r: Text)
    ensures Line(e) + r == e.path + [0] + (e.id + [0] + (CategoryText(e.category) + [0] + (Values(e) + r)))
  {
  }

  lemma ValuesThen(e: Entry, r: Text)
    ensures Values(e) + r == Decimal(e.size) + [0] + (Hex(e.sum.preimage) + [0] + (BoolText(e.required) + [10] + r))
  {
  }

  lemma LineUnique(e: Entry, f: Entry, r: Text, s: Text)
    requires Nameable(e) && Nameable(f) && Line(e) + r == Line(f) + s
    ensures e == f && r == s
  {
    LineThen(e, r);
    LineThen(f, s);
    var e3, f3 := Values(e) + r, Values(f) + s;
    var e2, f2 := CategoryText(e.category) + [0] + e3, CategoryText(f.category) + [0] + f3;
    FieldUnique(e.path, f.path, e.id + [0] + e2, f.id + [0] + f2);
    FieldUnique(e.id, f.id, e2, f2);
    FieldUnique(CategoryText(e.category), CategoryText(f.category), e3, f3);
    assert e.category == f.category by { assert CategoryText(e.category)[0] == CategoryText(f.category)[0]; }
    ValuesThen(e, r);
    ValuesThen(f, s);
    ValuesUnique(e, f, r, s);
  }

  lemma {:induction false} LinesFromFront(files: seq<Entry>)
    requires |files| > 0
    ensures Lines(files) == Line(files[0]) + Lines(files[1..])
  {
    if |files| > 1 {
      var n := |files| - 1;
      var head, middle, last := Line(files[0]), Lines(files[1..][..n - 1]), Line(files[n]);
      LinesFromFront(files[..n]);
      assert files[..n][1..] == files[1..][..n - 1];
      assert Lines(files[1..]) == middle + last;
      assert Lines(files) == (head + middle) + last == head + (middle + last);
    }
  }

  lemma HeadUnique(a: seq<Entry>, b: seq<Entry>)
    requires |a| > 0 && |b| > 0 && Nameable(a[0]) && Nameable(b[0]) && Lines(a) == Lines(b)
    ensures a[0] == b[0] && Lines(a[1..]) == Lines(b[1..])
  {
    LinesFromFront(a);
    LinesFromFront(b);
    LineUnique(a[0], b[0], Lines(a[1..]), Lines(b[1..]));
  }

  lemma {:induction false} LinesUnique(a: seq<Entry>, b: seq<Entry>)
    requires (forall i :: 0 <= i < |a| ==> Nameable(a[i])) && (forall i :: 0 <= i < |b| ==> Nameable(b[i]))
    requires Lines(a) == Lines(b)
    ensures a == b
    decreases |a|
  {
    if |a| > 0 {
      HeadUnique(a, b);
      LinesUnique(a[1..], b[1..]);
      assert a == [a[0]] + a[1..] && b == [b[0]] + b[1..];
    }
  }

  /** Two lists of well-named files have the same manifest digest only when they have the same entries. */
  lemma ManifestDigestUnique(a: seq<Entry>, b: seq<Entry>)
    requires forall e :: e in a || e in b ==> Nameable(e)
    ensures ManifestDigest(a) == ManifestDigest(b) ==> Sorted(a) == Sorted(b) && multiset(a) == multiset(b)
  {
    if ManifestDigest(a) == ManifestDigest(b) {
      SortedIsOrdered(a);
      SortedIsOrdered(b);
      var x, y := Sorted(a), Sorted(b);
      forall i | 0 <= i < |x| ensures Nameable(x[i]) { assert x[i] in multiset(a); }
      forall i | 0 <= i < |y| ensures Nameable(y[i]) { assert y[i] in multiset(b); }
      assert Lines(x) == (HEADER + Lines(x))[|HEADER|..] == (HEADER + Lines(y))[|HEADER|..] == Lines(y);
      LinesUnique(x, y);
    }
  }

  /** The manifest digest identifies the set of entries: for a list without a repeated path, another list
      has the same digest exactly when it is a rearrangement of it. */
  lemma ManifestDigestExact(a: seq<Entry>, b: seq<Entry>)
    requires DistinctPaths(a) && forall e :: e in a || e in b ==> Nameable(e)
    ensures ManifestDigest(a) == ManifestDigest(b) <==> multiset(a) == multiset(b)
  {
    ManifestDigestUnique(a, b);
    if multiset(a) == multiset(b) { OrderDoesNotMatter(a, b); }
  }
}
