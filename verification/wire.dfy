/** Bytes of a message: little-endian fields, and what stands at a place in a message. */
module Wire {
  newtype Byte = x: int | 0 <= x < 256

  const U64_LIMIT := 0x1_0000_0000_0000_0000
  const U32_LIMIT := 0x1_0000_0000

  type U64 = x: int | 0 <= x < U64_LIMIT

  function Power256(k: nat): (r: nat)
    ensures r >= 1
  {
    if k == 0 then 1 else 256 * Power256(k - 1)
  }

  function LittleEndian(n: nat, k: nat): (r: seq<Byte>)
    ensures |r| == k
    decreases k
  {
    if k == 0 then [] else [(n % 256) as Byte] + LittleEndian(n / 256, k - 1)
  }

  function FromLittleEndian(s: seq<Byte>): nat {
    if s == [] then 0 else s[0] as nat + 256 * FromLittleEndian(s[1..])
  }

  /** The unsigned field of `k` bytes at `at`. */
  function Field(msg: seq<Byte>, at: nat, k: nat): nat
    requires at + k <= |msg|
  {
    FromLittleEndian(msg[at..at + k])
  }

  /** A signed 32-bit field is sent as its unsigned image. */
  function Unsigned32(n: int): nat { n % U32_LIMIT }

  function Zeros(n: nat): seq<Byte> { seq(n, _ => 0) }

  /** `bytes` stand at `at` in the message. */
  ghost predicate Holds(msg: seq<Byte>, at: nat, bytes: seq<Byte>) {
    at + |bytes| <= |msg| && msg[at..at + |bytes|] == bytes
  }

  /** The two messages agree on `[lo, hi)`. */
  ghost predicate Agree(a: seq<Byte>, b: seq<Byte>, lo: nat, hi: nat) {
    |a| == |b| && hi <= |a| && forall k :: lo <= k < hi ==> a[k] == b[k]
  }

  lemma QuotientBelow(n: nat, p: nat)
    requires n < 256 * p
    ensures n / 256 < p
  {
  }

  lemma {:induction false} LittleEndianRoundTrip(n: nat, k: nat)
    requires n < Power256(k)
    ensures FromLittleEndian(LittleEndian(n, k)) == n
    decreases k
  {
    if k > 0 {
      QuotientBelow(n, Power256(k - 1));
      LittleEndianRoundTrip(n / 256, k - 1);
      assert LittleEndian(n, k)[1..] == LittleEndian(n / 256, k - 1);
    }
  }

  lemma Power256Of8()
    ensures Power256(8) == U64_LIMIT && Power256(4) == U32_LIMIT
  {
    assert Power256(4) == 256 * (256 * Power256(2));
    assert Power256(8) == 256 * (256 * Power256(6));
    assert Power256(6) == 256 * (256 * Power256(4));
  }

  lemma HoldsKept(a: seq<Byte>, b: seq<Byte>, at: nat, bytes: seq<Byte>)
    requires Holds(a, at, bytes) && Agree(a, b, at, at + |bytes|)
    ensures Holds(b, at, bytes)
  {
    assert a[at..at + |bytes|] == b[at..at + |bytes|];
  }

  /** A part of what stands at `at` stands at its own place. */
  lemma HoldsPart(msg: seq<Byte>, at: nat, pre: seq<Byte>, mid: seq<Byte>, post: seq<Byte>)
    requires Holds(msg, at, pre + mid + post)
    ensures Holds(msg, at + |pre|, mid)
  {
    var all := pre + mid + post;
    forall k | 0 <= k < |mid| ensures msg[at + |pre| + k] == mid[k] {
      assert msg[at..at + |all|][|pre| + k] == msg[at + |pre| + k];
      assert all[|pre| + k] == mid[k];
    }
  }

  /** Copies `bytes` into the message buffer and touches nothing else. */
  method CopyIn(tx: array<Byte>, at: nat, bytes: seq<Byte>)
    requires at + |bytes| <= tx.Length
    modifies tx
    ensures Holds(tx[..], at, bytes)
    ensures Agree(old(tx[..]), tx[..], 0, at) && Agree(old(tx[..]), tx[..], at + |bytes|, tx.Length)
  {
    forall k | 0 <= k < |bytes| { tx[at + k] := bytes[k]; }
    assert tx[..][at..at + |bytes|] == bytes;
  }
}
