/** Parties, public keys and key shares. */
module Keys {
  import opened Prelude
  import opened Modular
  import opened Shamir

  const THRESHOLD := 2
  const TOTAL_PARTIES := 3

  /** Our own party ids: one byte, starting at zero. */
  type PartyId = i: int | 0 <= i <= 255

  /** The upstream index of a party: a non-zero byte. */
  type PartyIndex = i: int | 1 <= i <= 255 witness 1

  /** A compressed public key, named by the scalar whose point it encodes. Distinct scalars have
      distinct points, which is what a constructor says. */
  datatype PublicKey = PointOf(scalar: int)

  /** The key of a secret. The point at infinity has a one-byte encoding, so it is no 33-byte key. */
  function PublicKeyOf(q: int, secret: int): Option<PublicKey>
    requires 0 < q
  {
    if secret % q == 0 then None else Some(PointOf(secret % q))
  }

  lemma ReducedTwice(q: int, x: int)
    requires 0 < q
    ensures (x % q) % q == x % q
  {
    CongReduce(q, x);
    CongIsEqualRemainders(q, x % q, x);
  }

  /** The key of a canonical scalar names that scalar and no other. */
  lemma KeyNamesScalar(q: int, secret: int, named: int)
    requires 0 < q && InField(q, secret)
    ensures PublicKeyOf(q, secret) == Some(PointOf(named)) <==> secret == named && secret != 0
  {
  }

  /** What the bytes of a share decode to: an index, a point of the secret polynomial, and the
      scalar behind the joint key. */
  datatype UpstreamParty = UpstreamParty(index: PartyIndex, polyPoint: int, keyScalar: int)

  /** A share as the callers hold it. `None` stands for bytes that do not decode. */
  datatype KeyShare = KeyShare(party: PartyId, secret: Option<UpstreamParty>)

  predicate AllDecode(shares: seq<KeyShare>) {
    forall i :: 0 <= i < |shares| ==> shares[i].secret.Some?
  }

  /** The points the shares carry, under the indices they carry. */
  function PointsOf(shares: seq<KeyShare>): (ps: seq<Share>)
    requires AllDecode(shares)
    ensures |ps| == |shares|
  {
    seq(|shares|, i requires 0 <= i < |shares| =>
      Share(shares[i].secret.value.index, shares[i].secret.value.polyPoint))
  }

  ghost predicate NoDuplicates(xs: seq<int>) {
    forall i, j :: 0 <= i < j < |xs| ==> xs[i] != xs[j]
  }
}
