/** Types shared by the modules of this project. */
module Core {

  datatype Option<+T> = None | Some(value: T)

  newtype byte = x: int | 0 <= x < 256
  type Bytes = seq<byte>

  /** A SHA-256 digest. Hashing is taken to be injective, so a digest stands for what was hashed. */
  datatype Digest = Sha256(preimage: Bytes)

  /** An ASCII letter in lower case. */
  function Lower(c: byte): byte {
    if 65 <= c <= 90 then c + 32 else c
  }

  /** How one file operation ends: it takes effect, it fails without effect, or the process stops
      before or after the effect. */
  datatype Outcome = Done | Error | Crash

  /** The concatenation of a sequence of chunks. */
  function Flatten(chunks: seq<Bytes>): (flat: Bytes) {
    if |chunks| == 0 then [] else Flatten(chunks[..|chunks| - 1]) + chunks[|chunks| - 1]
  }

  lemma FlattenAppend(chunks: seq<Bytes>, last: Bytes)
    ensures Flatten(chunks + [last]) == Flatten(chunks) + last
  {
    assert (chunks + [last])[..|chunks|] == chunks;
  }

  lemma {:induction false} FlattenFromFront(chunks: seq<Bytes>)
    requires |chunks| > 0
    ensures Flatten(chunks) == chunks[0] + Flatten(chunks[1..])
  {
    if |chunks| > 1 {
      var n := |chunks| - 1;
      FlattenFromFront(chunks[..n]);
      assert chunks[..n][1..] == chunks[1..][..n - 1];
      assert chunks[1..][n - 1] == chunks[n];
    }
  }

  /** The bytes of an initial run of chunks are an initial run of the bytes. */
  lemma {:induction false} FlattenPrefix(chunks: seq<Bytes>, n: nat)
    requires n <= |chunks|
    ensures Flatten(chunks[..n]) <= Flatten(chunks)
    decreases |chunks| - n
  {
    if n == |chunks| {
      assert chunks[..n] == chunks;
    } else {
      FlattenAppend(chunks[..n], chunks[n]);
      assert chunks[..n] + [chunks[n]] == chunks[..n + 1];
      FlattenPrefix(chunks, n + 1);
    }
  }
}
