/** What a passkey approval is bound to (crates/mpc-server/src/recovery.rs:71-85,
    crates/mpc-server/src/reshare.rs:35-45). The hash is an injective function on byte strings. */
module Digests {

  type Byte = i: int | 0 <= i < 256
  type Id32 = s: seq<Byte> | |s| == 32 witness seq(32, _ => 0)
  type DeviceKey = s: seq<Byte> | |s| == 65 witness seq(65, _ => 0)
  type CompressedKey = s: seq<Byte> | |s| == 33 witness seq(33, _ => 0)
  type WalletId = seq<Byte>

  datatype Digest = Sha256(preimage: seq<Byte>)

  const RECOVERY_LABEL := "mpc-ext recovery v1"
  const RESHARE_LABEL := "mpc-ext reshare v1"

  predicate IsAscii(text: string) {
    forall i :: 0 <= i < |text| ==> text[i] as int < 128
  }

  function Utf8(text: string): (bytes: seq<Byte>)
    requires IsAscii(text)
    ensures |bytes| == |text|
  {
    seq(|text|, i requires 0 <= i < |text| => text[i] as int)
  }

  /** Label, wallet id, a zero byte, the new device key, the request id. */
  function AssertionDigest(wallet: WalletId, key: DeviceKey, request: Id32): Digest {
    Sha256(Utf8(RECOVERY_LABEL) + wallet + [0] + key + request)
  }

  function GrantDigest(publicKey: CompressedKey, reshare: Id32): Digest {
    Sha256(Utf8(RESHARE_LABEL) + publicKey + reshare)
  }

  /** Equal concatenations with equally long tails are equal piece by piece. */
  lemma SplitTail(a: seq<Byte>, b: seq<Byte>, x: seq<Byte>, y: seq<Byte>)
    requires a + x == b + y && |x| == |y|
    ensures a == b && x == y
  {
    assert |a| == |b|;
    assert a == (a + x)[..|a|] && b == (b + y)[..|b|];
    assert x == (a + x)[|a|..] && y == (b + y)[|b|..];
  }

  lemma SplitHead(a: seq<Byte>, x: seq<Byte>, y: seq<Byte>)
    requires a + x == a + y
    ensures x == y
  {
    assert x == (a + x)[|a|..] && y == (a + y)[|a|..];
  }

  /** An approval names one wallet, one key and one request: for ids of any length, two recoveries
      share a digest only when all three are the same. */
  lemma AssertionDigestIsInjective(w: WalletId, k: DeviceKey, r: Id32, w': WalletId, k': DeviceKey, r': Id32)
    ensures AssertionDigest(w, k, r) == AssertionDigest(w', k', r') <==> w == w' && k == k' && r == r'
  {
    if AssertionDigest(w, k, r) == AssertionDigest(w', k', r') {
      var head := Utf8(RECOVERY_LABEL);
      SplitTail(head + w + [0] + k, head + w' + [0] + k', r, r');
      SplitTail(head + w + [0], head + w' + [0], k, k');
      SplitTail(head + w, head + w', [0], [0]);
      SplitHead(head, w, w');
    }
  }

  lemma GrantDigestIsInjective(p: CompressedKey, r: Id32, p': CompressedKey, r': Id32)
    ensures GrantDigest(p, r) == GrantDigest(p', r') <==> p == p' && r == r'
  {
    if GrantDigest(p, r) == GrantDigest(p', r') {
      var head := Utf8(RESHARE_LABEL);
      SplitTail(head + p, head + p', r, r');
      SplitHead(head, p, p');
    }
  }

  /** A grant for a recovery never opens a reshare, nor the other way round, although both are spent
      under the same purpose: the labels part at their eleventh byte. */
  lemma DigestsAreSeparate(w: WalletId, k: DeviceKey, r: Id32, p: CompressedKey, s: Id32)
    ensures AssertionDigest(w, k, r) != GrantDigest(p, s)
  {
    var x, y := AssertionDigest(w, k, r).preimage, GrantDigest(p, s).preimage;
    assert x[10] == Utf8(RECOVERY_LABEL)[10] == 'c' as int;
    assert y[10] == Utf8(RESHARE_LABEL)[10] == 's' as int;
  }
}
