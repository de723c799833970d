/** A reversible encoding of names into label values. */
module LabelCodec {
  import opened Core
  import opened ManifestText

  predicate IsAlphaNum(c: byte) {
    97 <= c <= 122 || 65 <= c <= 90 || 48 <= c <= 57
  }

  function UpperHexDigit(n: byte): (c: byte)
    requires n < 16
  {
    if n < 10 then 48 + n else 55 + n
  }

  /** The value of a hexadecimal digit, or -1. */
  function FromHex(c: byte): int {
    if 48 <= c <= 57 then c as int - 48 else if 65 <= c <= 70 then c as int - 55 else -1
  }

  function Escape(c: byte): Bytes {
    [UpperHexDigit(c / 16), UpperHexDigit(c % 16)]
  }

  /** Whether a byte that is not the first may stand for itself; `more` says that another one follows. */
  predicate Plain(c: byte, more: bool) {
    IsAlphaNum(c) || (more && (c == 45 || c == 46))
  }

  predicate SafeFirst(c: byte) {
    IsAlphaNum(c) && c != 88
  }

  function Piece(c: byte, more: bool): Bytes {
    if Plain(c, more) then [c] else [95] + Escape(c)
  }

  /** The encoding of everything after the first byte, or of a name with a safe first byte. */
  function EncodedRest(s: Bytes): Bytes {
    if |s| == 0 then [] else Piece(s[0], |s| > 1) + EncodedRest(s[1..])
  }

  function Encoded(s: Bytes): Bytes {
    if |s| > 0 && !SafeFirst(s[0]) then [88, 95] + Escape(s[0]) + EncodedRest(s[1..]) else EncodedRest(s)
  }

  function Continued(out: Bytes, rest: Option<Bytes>): Option<Bytes> {
    if rest.None? then None else Some(out + rest.value)
  }

  function DecodedRest(v: Bytes): Option<Bytes> {
    if |v| == 0 then Some([])
    else if v[0] != 95 then
      Continued([v[0]], DecodedRest(v[1..]))
    else if |v| < 3 || FromHex(v[1]) < 0 || FromHex(v[2]) < 0 then None
    else
      Continued([(FromHex(v[1]) * 16 + FromHex(v[2])) as byte], DecodedRest(v[3..]))
  }

  /** The parse of a value, before it is compared with the encoding of its result. */
  function Parsed(v: Bytes): Option<Bytes> {
    if |v| == 0 then None
    else if [88, 95] <= v then
      if |v| < 4 || FromHex(v[2]) < 0 || FromHex(v[3]) < 0 then None
      else
        Continued([(FromHex(v[2]) * 16 + FromHex(v[3])) as byte], DecodedRest(v[4..]))
    else if !SafeFirst(v[0]) then None
    else DecodedRest(v)
  }

  function Decoded(v: Bytes): Option<Bytes> {
    var name := Parsed(v);
    if name.None? || name.value == [] || Encoded(name.value) != v then None else name
  }

  method Encode(name: Bytes) returns (out: Bytes)
    ensures out == Encoded(name)
  {
    var start;
    out, start := WriteFirst(name);
    var i := start;
    while i < |name|
      invariant start <= i <= |name|
      invariant out + EncodedRest(name[i..]) == Encoded(name)
    {
      RestStep(name, i, out);
      out := WriteByte(out, name[i], i + 1 < |name|);
      i := i + 1;
    }
    assert name[i..] == [];
  }

  /** A first byte that is not safe is escaped behind an X. */
  method WriteFirst(name: Bytes) returns (out: Bytes, start: nat)
    ensures start <= |name| && out + EncodedRest(name[start..]) == Encoded(name)
  {
    out, start := [], 0;
    if |name| > 0 && (!IsAlphaNum(name[0]) || name[0] == 88) {
      out := [88, 95];
      out := out + [UpperHexDigit(name[0] / 16)];
      out := out + [UpperHexDigit(name[0] % 16)];
      start := 1;
    } else {
      assert name[0..] == name && [] + EncodedRest(name) == EncodedRest(name);
    }
  }

  /** Writes one byte that is not the first: as it is, or escaped. */
  method WriteByte(out: Bytes, ch: byte, more: bool) returns (r: Bytes)
    ensures r == out + Piece(ch, more)
  {
    if IsAlphaNum(ch) || (more && (ch == 45 || ch == 46)) { return out + [ch]; }
    r := out + [95];
    r := r + [UpperHexDigit(ch / 16)];
    r := r + [UpperHexDigit(ch % 16)];
  }

  lemma RestStep(name: Bytes, i: nat, out: Bytes)
    requires i < |name|
    ensures out + EncodedRest(name[i..]) == out + Piece(name[i], i + 1 < |name|) + EncodedRest(name[i + 1..])
  {
    assert name[i..][1..] == name[i + 1..];
    assert EncodedRest(name[i..]) == Piece(name[i], i + 1 < |name|) + EncodedRest(name[i + 1..]);
  }

  method Decode(value: Bytes) returns (name: Bytes, ok: bool)
    ensures ok <==> Decoded(value).Some?
    ensures ok ==> Decoded(value) == Some(name)
  {
    if value == [] { return [], false; }
    var out: Bytes := [];
    var start := 0;
    if |value| >= 2 && value[0] == 88 && value[1] == 95 {
      assert [88, 95] <= value;
      if |value| < 4 { return [], false; }
      var hi, lo := FromHex(value[2]), FromHex(value[3]);
      if hi < 0 || lo < 0 { return [], false; }
      out := [(hi * 16 + lo) as byte];
      start := 4;
    } else {
      assert !([88, 95] <= value);
      if !IsAlphaNum(value[0]) || value[0] == 88 { return [], false; }
    }
    var i := start;
    assert value[0..] == value;
    ContinuedNothing(out, DecodedRest(value[i..]));
    while i < |value|
      invariant start <= i <= |value|
      invariant Parsed(value) == Continued(out, DecodedRest(value[i..]))
    {
      var before := out;
      if value[i] != 95 {
        assert value[i..][1..] == value[i + 1..];
        out := out + [value[i]];
        ContinuedOne(before, value[i], DecodedRest(value[i + 1..]));
        i := i + 1;
        continue;
      }
      if i + 2 >= |value| { return [], false; }
      var hi, lo := FromHex(value[i + 1]), FromHex(value[i + 2]);
      if hi < 0 || lo < 0 { return [], false; }
      assert value[i..][3..] == value[i + 3..];
      out := out + [(hi * 16 + lo) as byte];
      ContinuedOne(before, (hi * 16 + lo) as byte, DecodedRest(value[i + 3..]));
      i := i + 3;
    }
    assert value[i..] == [];
    ContinuedNothing(out, Some([]));
    var again := Encode(out);
    return out, out != [] && again == value;
  }

  lemma ContinuedNothing(out: Bytes, rest: Option<Bytes>)
    ensures Continued([], rest) == rest
    ensures Continued(out, Some([])) == Some(out)
  {
    if rest.Some? { assert [] + rest.value == rest.value; }
    assert out + [] == out;
  }

  lemma ContinuedOne(out: Bytes, c: byte, rest: Option<Bytes>)
    ensures Continued(out, Continued([c], rest)) == Continued(out + [c], rest)
  {
    if rest.Some? { assert out + ([c] + rest.value) == out + [c] + rest.value; }
  }

  // ----- the encoding is reversible -----

  lemma EscapeReads(c: byte)
    ensures FromHex(Escape(c)[0]) * 16 + FromHex(Escape(c)[1]) == c as int
    ensures FromHex(Escape(c)[0]) >= 0 && FromHex(Escape(c)[1]) >= 0
  {
  }

  lemma {:induction false} RestReads(s: Bytes)
    ensures DecodedRest(EncodedRest(s)) == Some(s)
  {
    if |s| > 0 {
      var v, rest := EncodedRest(s), EncodedRest(s[1..]);
      RestReads(s[1..]);
      EscapeReads(s[0]);
      if Plain(s[0], |s| > 1) {
        assert v[0] == s[0] && v[1..] == rest;
      } else {
        assert v[0] == 95 && v[1] == Escape(s[0])[0] && v[2] == Escape(s[0])[1] && v[3..] == rest;
      }
      assert s == [s[0]] + s[1..];
    }
  }

  /** Decoding an encoding gives the name back. */
  lemma RoundTrip(s: Bytes)
    requires s != []
    ensures Decoded(Encoded(s)) == Some(s)
  {
    var v := Encoded(s);
    if SafeFirst(s[0]) {
      RestReads(s);
      assert v[0] == s[0];
      assert !([88, 95] <= v);
    } else {
      EscapeReads(s[0]);
      RestReads(s[1..]);
      assert v[2] == Escape(s[0])[0] && v[3] == Escape(s[0])[1] && v[4..] == EncodedRest(s[1..]);
      assert s == [s[0]] + s[1..];
    }
  }

  /** A value is accepted exactly when it is the encoding of a name, and then that name is the result. */
  lemma AcceptedIsImage(v: Bytes, s: Bytes)
    ensures Decoded(v) == Some(s) <==> s != [] && v == Encoded(s)
  {
    if s != [] { RoundTrip(s); }
  }

  /** Different names have different encodings. */
  lemma EncodedUnique(s: Bytes, t: Bytes)
    requires Encoded(s) == Encoded(t)
    ensures s == t
  {
    if s != [] { RoundTrip(s); }
    if t != [] { RoundTrip(t); }
  }

  // ----- the encoding is a label -----

  predicate LabelByte(c: byte) {
    IsAlphaNum(c) || c == 45 || c == 46 || c == 95
  }

  lemma {:induction false} RestIsLabel(s: Bytes)
    ensures forall i :: 0 <= i < |EncodedRest(s)| ==> LabelByte(EncodedRest(s)[i])
    ensures |s| > 0 ==> |EncodedRest(s)| > 0 && IsAlphaNum(EncodedRest(s)[|EncodedRest(s)| - 1])
  {
    if |s| > 0 {
      RestIsLabel(s[1..]);
      var v, piece, rest := EncodedRest(s), Piece(s[0], |s| > 1), EncodedRest(s[1..]);
      forall i | 0 <= i < |v| ensures LabelByte(v[i]) {
        if i < |piece| { assert v[i] == piece[i]; } else { assert v[i] == rest[i - |piece|]; }
      }
      if |s| == 1 {
        assert rest == [] && v == piece;
      } else {
        assert v[|v| - 1] == rest[|rest| - 1];
      }
    }
  }

  /** An encoding uses only label characters, and starts and ends with a letter or a digit. */
  lemma EncodedIsLabel(s: Bytes)
    requires s != []
    ensures var v := Encoded(s);
      |v| > 0 && IsAlphaNum(v[0]) && IsAlphaNum(v[|v| - 1]) && forall i :: 0 <= i < |v| ==> LabelByte(v[i])
  {
    var v := Encoded(s);
    if SafeFirst(s[0]) {
      RestIsLabel(s);
      assert v[0] == s[0];
    } else {
      RestIsLabel(s[1..]);
      var rest := EncodedRest(s[1..]);
      forall i | 0 <= i < |v| ensures LabelByte(v[i]) {
        if i >= 4 { assert v[i] == rest[i - 4]; }
      }
      if |s| > 1 { assert v[|v| - 1] == rest[|rest| - 1]; } else { assert rest == []; }
    }
  }

  // ----- plain names are readable -----

  /** A letter or a digit, a dash or a dot. */
  predicate NameByte(c: byte) {
    97 <= c <= 122 || 65 <= c <= 90 || 48 <= c <= 57 || c == 45 || c == 46
  }

  /** Escaping makes a name longer: what is as long as the name is the name. */
  lemma {:induction false} RestStays(s: Bytes)
    ensures |EncodedRest(s)| >= |s|
    ensures EncodedRest(s) == s <==>
      (forall i :: 0 <= i < |s| ==> NameByte(s[i])) && (s != [] ==> s[|s| - 1] != 45 && s[|s| - 1] != 46)
    ensures |EncodedRest(s)| == |s| ==> EncodedRest(s) == s
  {
    if |s| > 0 {
      var piece, rest := Piece(s[0], |s| > 1), EncodedRest(s[1..]);
      RestStays(s[1..]);
      assert s == [s[0]] + s[1..];
      if Plain(s[0], |s| > 1) {
        assert EncodedRest(s) == s <==> rest == s[1..] by {
          if EncodedRest(s) == s { assert (piece + rest)[1..] == rest; }
        }
        if |s| > 1 { assert s[1..][|s| - 2] == s[|s| - 1]; }
        assert (forall i :: 0 <= i < |s| ==> NameByte(s[i])) <==> forall i :: 0 <= i < |s[1..]| ==> NameByte(s[1..][i]) by {
          if forall i :: 0 <= i < |s[1..]| ==> NameByte(s[1..][i]) {
            forall i | 0 <= i < |s| ensures NameByte(s[i]) { if i > 0 { assert s[1..][i - 1] == s[i]; } }
          }
        }
      } else {
        assert |EncodedRest(s)| > |s|;
        assert !NameByte(s[0]) || |s| == 1;
      }
    }
  }

  /** A name is its own label exactly when it consists of letters, digits, dashes and dots, starts with a letter
      or a digit but not with X, and ends with a letter or a digit. */
  lemma PlainNamesStay(s: Bytes)
    requires s != []
    ensures Encoded(s) == s <==>
      (forall i :: 0 <= i < |s| ==> NameByte(s[i])) && s[0] != 88 && s[0] != 45 && s[0] != 46 &&
      s[|s| - 1] != 45 && s[|s| - 1] != 46
  {
    RestStays(s);
    if !SafeFirst(s[0]) {
      RestStays(s[1..]);
      assert |Encoded(s)| > |s|;
    }
  }

  const HEX_DIGITS: Text := Ascii("0123456789ABCDEF")

  /** A byte that may not stand for itself becomes an underscore and two upper-case hexadecimal digits, with an
      X in front of a first byte. */
  lemma EscapesAreHex(a: byte, c: byte)
    requires SafeFirst(a)
    ensures Encoded([c]) == if SafeFirst(c) then [c] else [88, 95, HEX_DIGITS[c / 16], HEX_DIGITS[c % 16]]
    ensures Encoded([a, c]) == if IsAlphaNum(c) then [a, c] else [a, 95, HEX_DIGITS[c / 16], HEX_DIGITS[c % 16]]
  {
    HexDigitsAreUpper(c / 16);
    HexDigitsAreUpper(c % 16);
    assert [c][1..] == [] && [a, c][1..] == [c];
    assert EncodedRest([]) == [];
    assert EncodedRest([c]) == Piece(c, false);
    assert EncodedRest([a, c]) == [a] + Piece(c, false);
  }

  lemma HexDigitsAreUpper(n: byte)
    requires n < 16
    ensures UpperHexDigit(n) == HEX_DIGITS[n]
  {
  }
}
