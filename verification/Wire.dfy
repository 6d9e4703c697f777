/** Envelopes, what they carry, and the routing every driver uses. */
module Wire {
  import opened Prelude
  import opened Keys

  /** A message of the pairwise setup (zero shares or multiplication): who to whom, in which session. */
  datatype PeerMessage = PeerMessage(sender: PartyId, receiver: PartyId, session: int)

  /** A party's proof that it knows its point of the joint polynomial. */
  datatype Proof = Proof(party: PartyId, point: int, session: int)

  /** A party's part of the derivation setup. */
  datatype Bip = Bip(party: PartyId, session: int)

  /** The bodies an envelope can carry. `Garbage` is any payload no round decodes. */
  datatype Payload =
    | Fragment(value: int)
    | Round2Broadcast(proof: Proof, bip: Bip)
    | Zero2to4(zero: PeerMessage)
    | Round3Broadcast(bip3: Bip)
    | Round3Private(zero3: PeerMessage, mul3: PeerMessage)
    | SignMessage(stage: int, content: int)
    | Garbage

  /** One message within a round. `None` as the recipient broadcasts. */
  datatype Envelope = Envelope(round: int, from: PartyId, to: Option<PartyId>, payload: Payload)

  predicate ArrivesAt(me: PartyId, e: Envelope) {
    e.from != me && (e.to.None? || e.to.value == me)
  }

  /** The envelopes addressed to `me`, without the ones `me` sent. */
  function InboxFor(me: PartyId, flight: seq<Envelope>): (inbox: seq<Envelope>)
    ensures forall e :: e in inbox <==> e in flight && ArrivesAt(me, e)
  {
    if flight == [] then []
    else
      var last := flight[|flight| - 1];
      var rest := InboxFor(me, flight[..|flight| - 1]);
      if ArrivesAt(me, last) then rest + [last] else rest
  }

  /** The order of the flight is kept: the inbox of two flights in a row is the one inbox and then the
      other. */
  lemma {:induction false} InboxConcat(me: PartyId, a: seq<Envelope>, b: seq<Envelope>)
    ensures InboxFor(me, a + b) == InboxFor(me, a) + InboxFor(me, b)
  {
    if b == [] {
      assert a + b == a;
    } else {
      var last := b[|b| - 1];
      assert (a + b)[..|a + b| - 1] == a + b[..|b| - 1];
      InboxConcat(me, a, b[..|b| - 1]);
    }
  }

  /** Nothing is dropped or doubled: what arrives arrives as often as it was sent. */
  lemma {:induction false} InboxCounts(me: PartyId, flight: seq<Envelope>, e: Envelope)
    ensures multiset(InboxFor(me, flight))[e] == if ArrivesAt(me, e) then multiset(flight)[e] else 0
  {
    if flight != [] {
      var init, last := flight[..|flight| - 1], flight[|flight| - 1];
      InboxCounts(me, init, e);
      assert flight == init + [last];
    }
  }

  lemma InboxOfOne(me: PartyId, e: Envelope)
    ensures InboxFor(me, [e]) == if ArrivesAt(me, e) then [e] else []
  {
    assert [e][..0] == [];
  }

  /** The other parties of the three, in ascending order. */
  function Peers(me: PartyId): seq<PartyId> {
    if me == 0 then [1, 2] else if me == 1 then [0, 2] else if me == 2 then [0, 1] else [0, 1, 2]
  }
}
