/** The upstream DKG phases, as contracts (docs/adr/0007-distributed-reshare.md:18-27).

    Phase 2 only sums the fragments it is handed. Phase 4 accepts when the messages of every peer
    are there and the three public points lie on one polynomial, which it tests by two overlapping
    reconstructions, and it settles on the key of the interpolated secret. */
module Upstream {
  import opened Prelude
  import opened Modular
  import opened Shamir
  import opened Keys
  import opened Wire

  /** The evaluations of a polynomial of degree one at the three indices. */
  function LineRow(q: int, constant: int, slope: int): (row: seq<int>)
    requires 0 < q
    ensures |row| == TOTAL_PARTIES
  {
    [LineShare(q, constant, slope, 1).point, LineShare(q, constant, slope, 2).point, LineShare(q, constant, slope, 3).point]
  }

  function Sum(xs: seq<int>): int {
    if xs == [] then 0 else Sum(xs[..|xs| - 1]) + xs[|xs| - 1]
  }

  function Phase2Point(q: int, fragments: seq<int>): int
    requires 0 < q
  {
    Sum(fragments) % q
  }

  function MessagesTo(me: PartyId, peers: seq<PartyId>, session: int): seq<PeerMessage> {
    if peers == [] then []
    else MessagesTo(me, peers[..|peers| - 1], session) + [PeerMessage(me, peers[|peers| - 1], session)]
  }

  predicate FromEveryPeer(me: PartyId, session: int, messages: seq<PeerMessage>) {
    forall p :: p in Peers(me) ==> PeerMessage(p, me, session) in messages
  }

  predicate BipsComplete(session: int, bips: map<PartyId, Bip>) {
    forall p: PartyId :: p < TOTAL_PARTIES ==> p in bips && bips[p] == Bip(p, session)
  }

  /** The shares the three proofs commit to. */
  function ProvenPoints(proofs: seq<Proof>): (ps: seq<Share>)
    requires |proofs| == TOTAL_PARTIES
    ensures Indices(ps) == [1, 2, 3]
  {
    [Share(1, proofs[0].point), Share(2, proofs[1].point), Share(3, proofs[2].point)]
  }

  lemma OverlapNodes(q: int, ps: seq<Share>)
    requires FieldOrder(q) && Indices(ps) == [1, 2, 3]
    ensures |ps| == 3 && DistinctShares(q, ps[..2]) && DistinctShares(q, ps[1..])
  {
    assert Indices(ps[..2]) == [1, 2];
    assert Indices(ps[1..]) == [2, 3];
  }

  /** The secret behind three public points, when the overlapping reconstructions agree on one. */
  function JointSecret(q: int, ps: seq<Share>): Option<int>
    requires FieldOrder(q) && Indices(ps) == [1, 2, 3]
  {
    OverlapNodes(q, ps);
    var first, second := Interpolate(q, ps[..2]), Interpolate(q, ps[1..]);
    if first == second then Some(first) else None
  }

  /** Phase 4 for party `me`. */
  function Phase4(q: int, me: PartyId, session: int, point: int, proofs: seq<Proof>,
                        zero2: seq<PeerMessage>, zero3: seq<PeerMessage>, mul3: seq<PeerMessage>,
                        bip2: map<PartyId, Bip>, bip3: map<PartyId, Bip>): Option<UpstreamParty>
    requires FieldOrder(q)
  {
    if !( && me < TOTAL_PARTIES && |proofs| == TOTAL_PARTIES
          && (forall p :: 0 <= p < TOTAL_PARTIES ==> proofs[p].party == p && proofs[p].session == session)
          && proofs[me].point == point
          && FromEveryPeer(me, session, zero2) && FromEveryPeer(me, session, zero3) && FromEveryPeer(me, session, mul3)
          && BipsComplete(session, bip2) && BipsComplete(session, bip3))
    then None
    else
      match JointSecret(q, ProvenPoints(proofs))
      case None => None
      case Some(secret) => Some(UpstreamParty(me + 1, point, secret))
  }

  /** Three points of one line pass the consistency test, and the secret is the line's constant. */
  lemma LinePasses(q: int, constant: int, slope: int, ps: seq<Share>)
    requires FieldOrder(q) && Indices(ps) == [1, 2, 3]
    requires forall i :: 0 <= i < 3 ==> Cong(q, ps[i].point, constant + slope * (i + 1))
    ensures JointSecret(q, ps) == Some(constant % q)
  {
    OverlapNodes(q, ps);
    forall i | 0 <= i < 3 ensures Cong(q, ps[i].point, Eval([constant, slope], ps[i].index)) {
      assert Indices(ps)[i] == i + 1;
      EvalLine(constant, slope, i + 1);
    }
    InterpolationRecovers(q, ps[..2], [constant, slope]);
    InterpolationRecovers(q, ps[1..], [constant, slope]);
  }

  lemma EvalLine(constant: int, slope: int, x: int)
    ensures Eval([constant, slope], x) == constant + slope * x
  {
    assert [constant, slope][1..] == [slope] && [slope][1..] == [];
    assert Eval([slope], x) == slope + Times(x, 0);
  }
}
