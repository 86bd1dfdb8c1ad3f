/** Digests of encrypted artifacts and the textual form of integrity tags. */
module Digest {
  import opened Ring
  import opened Store
  import opened Wrappers

  // ---- The ciphertext digest

  const TRAILER: nat := 16

  /** The digest of the nonce followed by the file without its last sixteen bytes. */
  function SealedDigest(data: Bytes, nonce: Bytes, hash: Bytes -> string): Option<string> {
    if |data| < TRAILER then None else Some(hash(nonce + data[..|data| - TRAILER]))
  }

  /**
   * Hashes the nonce and the file except its last 16 bytes, holding back 16 bytes while reading. The result depends
   * only on what the chunks put together make, not on where they were cut; a file shorter than that is refused.
   */
  method CiphertextDigest(chunks: seq<Bytes>, nonce: Bytes, hash: Bytes -> string) returns (digest: Option<string>)
    ensures digest == SealedDigest(Content(chunks, |chunks|), nonce, hash)
  {
    var hashed := nonce;
    var trailing: Bytes := [];
    var size := 0;
    var n := 0;
    while n < |chunks|
      invariant n <= |chunks| && size == |Content(chunks, n)|
      invariant |trailing| == if size < TRAILER then size else TRAILER
      invariant hashed + trailing == nonce + Content(chunks, n)
    {
      var chunk := chunks[n];
      size := size + |chunk|;
      var combined := trailing + chunk;
      assert hashed + combined == (hashed + trailing) + chunk == nonce + Content(chunks, n + 1);
      if |combined| > TRAILER {
        hashed := hashed + combined[..|combined| - TRAILER];
        trailing := combined[|combined| - TRAILER..];
      } else {
        trailing := combined;
      }
      n := n + 1;
    }
    if size < TRAILER {
      return None;
    }
    var data := Content(chunks, |chunks|);
    assert hashed == (hashed + trailing)[..|nonce| + |data| - TRAILER];
    assert hashed == nonce + data[..|data| - TRAILER];
    return Some(hash(hashed));
  }

  // ---- Integrity tags

  /** The tags form the integers modulo this Mersenne prime. */
  const FIELD_PRIME: nat := 0x7fff_ffff_ffff_ffff_ffff_ffff_ffff_ffff

  const TAG_DIGITS: nat := 32

  function HexDigit(c: char): Option<nat> {
    if '0' <= c <= '9' then Some((c - '0') as nat)
    else if 'a' <= c <= 'f' then Some((c - 'a') as nat + 10)
    else if 'A' <= c <= 'F' then Some((c - 'A') as nat + 10)
    else None
  }

  predicate IsHex(s: string) {
    forall c | c in s :: HexDigit(c).Some?
  }

  /** The number the first n digits write. */
  function HexValue(s: string, n: nat): nat
    requires IsHex(s) && n <= |s|
  {
    if n == 0 then 0 else 16 * HexValue(s, n - 1) + HexDigit(s[n - 1]).value
  }

  /** The field element a tag header stands for: sixteen bytes in hexadecimal, below the prime. */
  function ParseTag(s: string): Option<nat> {
    if |s| == TAG_DIGITS && IsHex(s) && HexValue(s, |s|) < FIELD_PRIME then Some(HexValue(s, |s|)) else None
  }

  function HexChar(d: nat): (c: char)
    requires d < 16
    ensures HexDigit(c) == Some(d)
  {
    "0123456789abcdef"[d]
  }

  /** The last n hexadecimal digits of a number. */
  function HexText(v: nat, n: nat): (s: string)
    ensures |s| == n && IsHex(s)
  {
    if n == 0 then ""
    else
      var s := HexText(v / 16, n - 1) + [HexChar(v % 16)];
      assert forall c | c in s :: c in HexText(v / 16, n - 1) || c == HexChar(v % 16);
      s
  }

  function Pow16(n: nat): (p: nat)
    ensures 0 < p
  {
    if n == 0 then 1 else 16 * Pow16(n - 1)
  }

  lemma {:induction false} HexValuePrefix(s: string, t: string, n: nat)
    requires IsHex(s) && IsHex(s + t) && n <= |s|
    ensures HexValue(s + t, n) == HexValue(s, n)
  {
    if n > 0 {
      HexValuePrefix(s, t, n - 1);
    }
  }

  lemma {:induction false} HexRoundTrip(v: nat, n: nat)
    requires v < Pow16(n)
    ensures HexValue(HexText(v, n), n) == v
  {
    if n > 0 {
      HexRoundTrip(v / 16, n - 1);
      HexValuePrefix(HexText(v / 16, n - 1), [HexChar(v % 16)], n - 1);
    }
  }

  lemma PrimeFits()
    ensures FIELD_PRIME < Pow16(TAG_DIGITS)
  {
    assert Pow16(4) == 0x1_0000;
    Pow16Double(4);
    Pow16Double(8);
    Pow16Double(16);
  }

  lemma {:induction false} Pow16Sum(m: nat, n: nat)
    ensures Pow16(m + n) == Pow16(m) * Pow16(n)
  {
    if m > 0 {
      Pow16Sum(m - 1, n);
    }
  }

  lemma Pow16Double(n: nat)
    ensures Pow16(2 * n) == Pow16(n) * Pow16(n)
  {
    Pow16Sum(n, n);
  }

  /** The text the worker emits for a field element is accepted where tags are uploaded, and reads back as that element. */
  lemma TagRoundTrip(v: nat)
    requires v < FIELD_PRIME
    ensures ParseTag(HexText(v, TAG_DIGITS)) == Some(v)
  {
    PrimeFits();
    HexRoundTrip(v, TAG_DIGITS);
  }
}
