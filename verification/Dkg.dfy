/** One party of distributed key generation or of a reshare, round by round
    (crates/mpc-core/src/protocol.rs). */
module Dkg {
  import opened Prelude
  import opened Modular
  import opened Shamir
  import opened Keys
  import opened Wire
  import opened Upstream

  /** What a party holds between rounds. */
  datatype PartyState = PartyState(
    me: PartyId,
    round: int,
    session: int,
    fragments: map<PartyId, int>,
    polyPoint: Option<int>,
    expected: Option<PublicKey>,
    zeroKept2to3: seq<PartyId>,
    bipKept2to3: Option<Bip>,
    inbox: Inbox)

  /** Messages from the other parties, accumulated across rounds. */
  datatype Inbox = Inbox(
    proofs: map<PartyId, Proof>,
    zero2to4: seq<PeerMessage>,
    zero3to4: seq<PeerMessage>,
    mul3to4: seq<PeerMessage>,
    bip2to4: map<PartyId, Bip>,
    bip3to4: map<PartyId, Bip>)

  datatype Progress = Send(envelopes: seq<Envelope>) | Done(share: KeyShare, publicKey: PublicKey)

  const EmptyInbox := Inbox(map[], [], [], [], map[], map[])

  // ---- the specification of one advance --------------------------------------------------------

  /** The first envelope of the wrong round, or for someone else, fails the call. */
  function HeaderFault(me: PartyId, round: int, inbox: seq<Envelope>): Option<Error> {
    if inbox == [] then None
    else
      var e := inbox[0];
      if e.round != round then Some(UnexpectedRound(round, e.round))
      else if e.to.Some? && e.to.value != me then Some(Backend(WrongAddressee))
      else HeaderFault(me, round, inbox[1..])
  }

  /** Inserts the fragments in the order they arrive; a later one from the same sender replaces an
      earlier one. `false` reports a body that does not decode, with what came before it kept. */
  function TakeFragments(held: map<PartyId, int>, inbox: seq<Envelope>): (map<PartyId, int>, bool) {
    if inbox == [] then (held, true)
    else
      var (before, ok) := TakeFragments(held, inbox[..|inbox| - 1]);
      var e := inbox[|inbox| - 1];
      if ok && e.payload.Fragment? then (before[e.from := e.payload.value], true) else (before, false)
  }

  /** The values of a map in ascending order of the keys from `k` on. */
  function ValuesFrom(m: map<PartyId, int>, k: int): seq<int>
    requires 0 <= k <= 256
    decreases 256 - k
  {
    if k == 256 then []
    else (if k in m then [m[k]] else []) + ValuesFrom(m, k + 1)
  }

  function Outgoing2(me: PartyId, proof: Proof, bip: Bip, zero: seq<PeerMessage>): seq<Envelope> {
    [Envelope(2, me, None, Round2Broadcast(proof, bip))]
    + seq(|zero|, i requires 0 <= i < |zero| => Envelope(2, me, Some(zero[i].receiver), Zero2to4(zero[i])))
  }

  function Round2(q: int, s: PartyState, inbox: seq<Envelope>): (PartyState, Result<Progress>)
    requires 0 < q
  {
    var (fragments, ok) := TakeFragments(s.fragments, inbox);
    var s1 := s.(fragments := fragments);
    if !ok then (s1, Failure(Backend(EnvelopeDecode)))
    else if |fragments| != TOTAL_PARTIES then
      (s1, Failure(InvalidPartyCount(TOTAL_PARTIES, |fragments| % 256)))
    else
      var point := Phase2Point(q, ValuesFrom(fragments, 0));
      var proof, bip := Proof(s.me, point, s.session), Bip(s.me, s.session);
      var box := s.inbox.(proofs := s.inbox.proofs[s.me := proof], bip2to4 := s.inbox.bip2to4[s.me := bip]);
      (s1.(round := 2, polyPoint := Some(point), zeroKept2to3 := Peers(s.me), bipKept2to3 := Some(bip), inbox := box),
       Success(Send(Outgoing2(s.me, proof, bip, MessagesTo(s.me, Peers(s.me), s.session)))))
  }

  /** Files one round 2 body: broadcasts by sender, private messages in order of arrival. */
  function File2(b: Inbox, e: Envelope): (Inbox, Option<Fault>) {
    if e.to.None? then
      if !e.payload.Round2Broadcast? then (b, Some(EnvelopeDecode))
      else
        var b1 := b.(proofs := b.proofs[e.from := e.payload.proof]);
        if e.from == 255 then (b1, Some(BadPartyIndex))
        else (b1.(bip2to4 := b.bip2to4[e.from := e.payload.bip]), None)
    else if !e.payload.Zero2to4? then (b, Some(EnvelopeDecode))
    else (b.(zero2to4 := b.zero2to4 + [e.payload.zero]), None)
  }

  function FileRound2(box: Inbox, inbox: seq<Envelope>): (Inbox, Option<Fault>) {
    if inbox == [] then (box, None)
    else
      var (b, fault) := FileRound2(box, inbox[..|inbox| - 1]);
      if fault.Some? then (b, fault) else File2(b, inbox[|inbox| - 1])
  }

  function Outgoing3(me: PartyId, bip: Bip, zero: seq<PeerMessage>): seq<Envelope> {
    [Envelope(3, me, None, Round3Broadcast(bip))]
    + seq(|zero|, i requires 0 <= i < |zero| => Envelope(3, me, Some(zero[i].receiver), Round3Private(zero[i], zero[i])))
  }

  function Round3(s: PartyState, inbox: seq<Envelope>): (PartyState, Result<Progress>) {
    var (box, fault) := FileRound2(s.inbox, inbox);
    var s1 := s.(inbox := box);
    if fault.Some? then (s1, Failure(Backend(fault.value)))
    else if s.bipKept2to3.None? then (s1, Failure(Backend(OutOfOrder)))
    else
      var bip := Bip(s.me, s.session);
      (s1.(round := 3, inbox := box.(bip3to4 := box.bip3to4[s.me := bip])),
       Success(Send(Outgoing3(s.me, bip, MessagesTo(s.me, s.zeroKept2to3, s.session)))))
  }

  function File3(b: Inbox, e: Envelope): (Inbox, Option<Fault>) {
    if e.to.None? then
      if !e.payload.Round3Broadcast? then (b, Some(EnvelopeDecode))
      else if e.from == 255 then (b, Some(BadPartyIndex))
      else (b.(bip3to4 := b.bip3to4[e.from := e.payload.bip3]), None)
    else if !e.payload.Round3Private? then (b, Some(EnvelopeDecode))
    else (b.(zero3to4 := b.zero3to4 + [e.payload.zero3], mul3to4 := b.mul3to4 + [e.payload.mul3]), None)
  }

  function FileRound3(box: Inbox, inbox: seq<Envelope>): (Inbox, Option<Fault>) {
    if inbox == [] then (box, None)
    else
      var (b, fault) := FileRound3(box, inbox[..|inbox| - 1]);
      if fault.Some? then (b, fault) else File3(b, inbox[|inbox| - 1])
  }

  /** The acceptance of a reshare: the key has to be the wallet's (ADR-0007, "Acceptance"). */
  function Settle(q: int, s: PartyState, party: UpstreamParty): (PartyState, Result<Progress>)
    requires 0 < q
  {
    match PublicKeyOf(q, party.keyScalar)
    case None => (s, Failure(Backend(KeyLength)))
    case Some(key) =>
      if s.expected.Some? && s.expected.value != key then (s, Failure(Backend(KeyWouldChange)))
      else (s.(round := 4), Success(Done(KeyShare(s.me, Some(party)), key)))
  }

  function Round4(q: int, s: PartyState, inbox: seq<Envelope>): (PartyState, Result<Progress>)
    requires FieldOrder(q)
  {
    var (box, fault) := FileRound3(s.inbox, inbox);
    var s1 := s.(inbox := box);
    if fault.Some? then (s1, Failure(Backend(fault.value)))
    else if !(0 in box.proofs && 1 in box.proofs && 2 in box.proofs) then (s1, Failure(Backend(MissingProof)))
    else if s.polyPoint.None? then (s1, Failure(Backend(OutOfOrder)))
    else
      match Phase4(q, s.me, s.session, s.polyPoint.value, [box.proofs[0], box.proofs[1], box.proofs[2]],
                   box.zero2to4, box.zero3to4, box.mul3to4, box.bip2to4, box.bip3to4)
      case None => (s1, Failure(Backend(PhaseFailed)))
      case Some(party) => Settle(q, s1, party)
  }

  /** One call of `advance`: the new state and the answer. */
  function Advanced(q: int, s: PartyState, inbox: seq<Envelope>): (PartyState, Result<Progress>)
    requires FieldOrder(q)
  {
    match HeaderFault(s.me, s.round, inbox)
    case Some(error) => (s, Failure(error))
    case None =>
      if s.round == 1 then Round2(q, s, inbox)
      else if s.round == 2 then Round3(s, inbox)
      else if s.round == 3 then Round4(q, s, inbox)
      else (s, Failure(Backend(NoSuchRound)))
  }

  /** A fresh party and its round 1 envelopes, from the row it contributes. */
  function Started(me: PartyId, session: int, row: seq<int>, expected: Option<PublicKey>): (PartyState, seq<Envelope>)
    requires |row| <= 256
  {
    (PartyState(me, 1, session, if me < |row| then map[me := row[me]] else map[], None, expected, [], None, EmptyInbox),
     RowEnvelopes(me, row))
  }

  /** One envelope per fragment, to everyone but the sender. */
  function RowEnvelopes(me: PartyId, row: seq<int>): seq<Envelope>
    requires |row| <= 256
  {
    if row == [] then []
    else
      var slot := |row| - 1;
      RowEnvelopes(me, row[..slot]) + if slot == me then [] else [Envelope(1, me, Some(slot), Fragment(row[slot]))]
  }

  // ---- the party itself ------------------------------------------------------------------------

  /** The mutable session object. Each call changes its fields exactly as `Advanced` says. */
  class DkgParty {
    const q: int
    var me: PartyId
    var round: int
    var session: int
    var fragments: map<PartyId, int>
    var polyPoint: Option<int>
    var expected: Option<PublicKey>
    var zeroKept2to3: seq<PartyId>
    var bipKept2to3: Option<Bip>
    var inbox: Inbox

    ghost function State(): PartyState
      reads this
    {
      PartyState(me, round, session, fragments, polyPoint, expected, zeroKept2to3, bipKept2to3, inbox)
    }

    constructor (q: int, me: PartyId, session: int, fragments: map<PartyId, int>, expected: Option<PublicKey>)
      ensures this.q == q
      ensures State() == PartyState(me, 1, session, fragments, None, expected, [], None, EmptyInbox)
    {
      this.q, this.me, this.round, this.session := q, me, 1, session;
      this.fragments, this.polyPoint, this.expected := fragments, None, expected;
      this.zeroKept2to3, this.bipKept2to3, this.inbox := [], None, EmptyInbox;
    }

    /** Opens a session from the row this party contributes, keeping its own fragment. */
    static method StartWith(q: int, me: PartyId, session: int, row: seq<int>, expected: Option<PublicKey>)
      returns (party: DkgParty, outgoing: seq<Envelope>)
      requires |row| <= 256
      ensures fresh(party) && party.q == q
      ensures (party.State(), outgoing) == Started(me, session, row, expected)
    {
      outgoing := [];
      var fragments: map<PartyId, int> := map[];
      for slot := 0 to |row|
        invariant outgoing == RowEnvelopes(me, row[..slot])
        invariant fragments == if me < slot then map[me := row[me]] else map[]
      {
        assert row[..slot + 1][..slot] == row[..slot];
        if slot == me {
          fragments := fragments[me := row[slot]];
        } else {
          outgoing := outgoing + [Envelope(1, me, Some(slot), Fragment(row[slot]))];
        }
      }
      assert row[..|row|] == row;
      party := new DkgParty(q, me, session, fragments, expected);
    }

    method Advance(inbox: seq<Envelope>) returns (r: Result<Progress>)
      requires FieldOrder(q)
      modifies this
      ensures (State(), r) == Advanced(q, old(State()), inbox)
    {
      for k := 0 to |inbox|
        invariant State() == old(State())
        invariant HeaderFault(me, round, inbox) == HeaderFault(me, round, inbox[k..])
      {
        var e := inbox[k];
        if e.round != round {
          return Failure(UnexpectedRound(round, e.round));
        }
        if e.to.Some? && e.to.value != me {
          return Failure(Backend(WrongAddressee));
        }
      }
      if round == 1 {
        r := AdvanceToRound2(inbox);
      } else if round == 2 {
        r := AdvanceToRound3(inbox);
      } else if round == 3 {
        r := AdvanceToRound4(inbox);
      } else {
        r := Failure(Backend(NoSuchRound));
      }
    }

    method AdvanceToRound2(received: seq<Envelope>) returns (r: Result<Progress>)
      requires FieldOrder(q)
      modifies this
      ensures (State(), r) == Round2(q, old(State()), received)
    {
      hide IsPrime, Phase2Point, ValuesFrom, MessagesTo, Outgoing2, Peers;
      for k := 0 to |received|
        invariant TakeFragments(old(fragments), received[..k]) == (fragments, true)
        invariant State() == old(State()).(fragments := fragments)
      {
        assert received[..k + 1][..k] == received[..k];
        if !received[k].payload.Fragment? {
          TakeFragmentsStops(old(fragments), received, k + 1);
          return Failure(Backend(EnvelopeDecode));
        }
        fragments := fragments[received[k].from := received[k].payload.value];
      }
      assert received[..|received|] == received;
      if |fragments| != TOTAL_PARTIES {
        return Failure(InvalidPartyCount(TOTAL_PARTIES, |fragments| % 256));
      }
      var ordered := ValuesFrom(fragments, 0);
      var point := Phase2Point(q, ordered);
      var proof, bip := Proof(me, point, session), Bip(me, session);
      polyPoint, zeroKept2to3, bipKept2to3 := Some(point), Peers(me), Some(bip);
      inbox := inbox.(proofs := inbox.proofs[me := proof], bip2to4 := inbox.bip2to4[me := bip]);
      round := 2;
      r := Success(Send(Outgoing2(me, proof, bip, MessagesTo(me, Peers(me), session))));
    }

    method AdvanceToRound3(received: seq<Envelope>) returns (r: Result<Progress>)
      modifies this
      ensures (State(), r) == Round3(old(State()), received)
    {
      for k := 0 to |received|
        invariant FileRound2(old(inbox), received[..k]) == (inbox, None)
        invariant State() == old(State()).(inbox := inbox)
      {
        assert received[..k + 1][..k] == received[..k];
        FileRound2Stops(old(inbox), received, k + 1);
        var e := received[k];
        if e.to.None? {
          if !e.payload.Round2Broadcast? {
            return Failure(Backend(EnvelopeDecode));
          }
          inbox := inbox.(proofs := inbox.proofs[e.from := e.payload.proof]);
          if e.from == 255 {
            return Failure(Backend(BadPartyIndex));
          }
          inbox := inbox.(bip2to4 := inbox.bip2to4[e.from := e.payload.bip]);
        } else {
          if !e.payload.Zero2to4? {
            return Failure(Backend(EnvelopeDecode));
          }
          inbox := inbox.(zero2to4 := inbox.zero2to4 + [e.payload.zero]);
        }
      }
      assert received[..|received|] == received;
      if bipKept2to3.None? {
        return Failure(Backend(OutOfOrder));
      }
      var bip := Bip(me, session);
      inbox := inbox.(bip3to4 := inbox.bip3to4[me := bip]);
      round := 3;
      r := Success(Send(Outgoing3(me, bip, MessagesTo(me, zeroKept2to3, session))));
    }

    method AdvanceToRound4(received: seq<Envelope>) returns (r: Result<Progress>)
      requires FieldOrder(q)
      modifies this
      ensures (State(), r) == Round4(q, old(State()), received)
    {
      for k := 0 to |received|
        invariant FileRound3(old(inbox), received[..k]) == (inbox, None)
        invariant State() == old(State()).(inbox := inbox)
      {
        assert received[..k + 1][..k] == received[..k];
        FileRound3Stops(old(inbox), received, k + 1);
        var e := received[k];
        if e.to.None? {
          if !e.payload.Round3Broadcast? {
            return Failure(Backend(EnvelopeDecode));
          }
          if e.from == 255 {
            return Failure(Backend(BadPartyIndex));
          }
          inbox := inbox.(bip3to4 := inbox.bip3to4[e.from := e.payload.bip3]);
        } else {
          if !e.payload.Round3Private? {
            return Failure(Backend(EnvelopeDecode));
          }
          inbox := inbox.(zero3to4 := inbox.zero3to4 + [e.payload.zero3], mul3to4 := inbox.mul3to4 + [e.payload.mul3]);
        }
      }
      assert received[..|received|] == received;
      var proofs: seq<Proof> := [];
      for p := 0 to TOTAL_PARTIES
        invariant |proofs| == p && State() == old(State()).(inbox := inbox)
        invariant forall k: PartyId :: k < p ==> k in inbox.proofs && proofs[k] == inbox.proofs[k]
        invariant FileRound3(old(inbox), received) == (inbox, None)
      {
        if p !in inbox.proofs {
          return Failure(Backend(MissingProof));
        }
        proofs := proofs + [inbox.proofs[p]];
      }
      assert proofs == [inbox.proofs[0], inbox.proofs[1], inbox.proofs[2]];
      if polyPoint.None? {
        return Failure(Backend(OutOfOrder));
      }
      var party := Phase4(q, me, session, polyPoint.value, proofs,
                          inbox.zero2to4, inbox.zero3to4, inbox.mul3to4, inbox.bip2to4, inbox.bip3to4);
      if party.None? {
        return Failure(Backend(PhaseFailed));
      }
      var key := PublicKeyOf(q, party.value.keyScalar);
      if key.None? {
        return Failure(Backend(KeyLength));
      }
      if expected.Some? && expected.value != key.value {
        return Failure(Backend(KeyWouldChange));
      }
      round := 4;
      r := Success(Done(KeyShare(me, Some(party.value)), key.value));
    }
  }

  // ---- which inboxes are let in --------------------------------------------------------------------

  /** Not of the party's round, or meant for somebody else. The sender is not looked at. */
  predicate Stray(s: PartyState, e: Envelope) {
    e.round != s.round || (e.to.Some? && e.to.value != s.me)
  }

  predicate FirstStray(s: PartyState, inbox: seq<Envelope>, k: int) {
    0 <= k < |inbox| && Stray(s, inbox[k]) && forall i :: 0 <= i < k ==> !Stray(s, inbox[i])
  }

  function StrayError(s: PartyState, e: Envelope): Error {
    if e.round != s.round then UnexpectedRound(s.round, e.round) else Backend(WrongAddressee)
  }

  lemma {:induction false} FirstFaultIsStray(s: PartyState, inbox: seq<Envelope>)
    ensures HeaderFault(s.me, s.round, inbox).None? <==> forall k :: 0 <= k < |inbox| ==> !Stray(s, inbox[k])
    ensures forall k :: FirstStray(s, inbox, k) ==> HeaderFault(s.me, s.round, inbox) == Some(StrayError(s, inbox[k]))
  {
    if inbox != [] {
      FirstFaultIsStray(s, inbox[1..]);
      assert forall k :: 1 <= k < |inbox| ==> inbox[k] == inbox[1..][k - 1];
      forall k | FirstStray(s, inbox, k) ensures HeaderFault(s.me, s.round, inbox) == Some(StrayError(s, inbox[k])) {
        if k > 0 {
          assert !Stray(s, inbox[0]) && FirstStray(s, inbox[1..], k - 1);
        }
      }
    }
  }

  lemma {:induction false} FirstStrayExists(s: PartyState, inbox: seq<Envelope>, n: int) returns (k: int)
    requires 0 <= n < |inbox| && Stray(s, inbox[n])
    ensures FirstStray(s, inbox, k)
    decreases n
  {
    if i :| 0 <= i < n && Stray(s, inbox[i]) {
      k := FirstStrayExists(s, inbox, i);
    } else {
      k := n;
    }
  }

  /** For every inbox: one stray envelope anywhere, and the call changes nothing and reports the first of
      them; with none, no such error is reported. */
  lemma StrayEnvelopesChangeNothing(q: int, s: PartyState, inbox: seq<Envelope>)
    requires FieldOrder(q)
    ensures var (s', r) := Advanced(q, s, inbox);
      && (forall k :: FirstStray(s, inbox, k) ==> s' == s && r == Failure(StrayError(s, inbox[k])))
      && ((exists k :: 0 <= k < |inbox| && Stray(s, inbox[k])) ==> s' == s && r.Failure?)
      && ((forall k :: 0 <= k < |inbox| ==> !Stray(s, inbox[k])) ==>
            !(r.Failure? && r.error.UnexpectedRound?) && r != Failure(Backend(WrongAddressee)))
  {
    hide IsPrime, HeaderFault, TakeFragments, Phase4;
    FirstFaultIsStray(s, inbox);
    FilingFaults2(s.inbox, inbox);
    FilingFaults3(s.inbox, inbox);
    if k :| 0 <= k < |inbox| && Stray(s, inbox[k]) {
      var _ := FirstStrayExists(s, inbox, k);
    }
  }

  /** Round 1 takes its inbox if and only if every body is a fragment, and then it has one from every sender
      besides those held before. */
  lemma {:induction false} FragmentsAreTaken(held: map<PartyId, int>, inbox: seq<Envelope>)
    ensures TakeFragments(held, inbox).1 <==> forall k :: 0 <= k < |inbox| ==> inbox[k].payload.Fragment?
    ensures TakeFragments(held, inbox).1 ==>
      TakeFragments(held, inbox).0.Keys == held.Keys + (set k | 0 <= k < |inbox| :: inbox[k].from)
  {
    if inbox != [] {
      FragmentsAreTaken(held, inbox[..|inbox| - 1]);
    }
  }

  predicate LastFrom(inbox: seq<Envelope>, k: int) {
    0 <= k < |inbox| && forall j :: k < j < |inbox| ==> inbox[j].from != inbox[k].from
  }

  /** Of two fragments from one sender the later counts, and one held before only if its sender is silent. */
  lemma {:induction false} LastFragmentsCount(held: map<PartyId, int>, inbox: seq<Envelope>, p: PartyId)
    requires TakeFragments(held, inbox).1 && p in TakeFragments(held, inbox).0
    ensures var m := TakeFragments(held, inbox).0;
      && (forall k :: LastFrom(inbox, k) && inbox[k].from == p ==> inbox[k].payload.Fragment? && m[p] == inbox[k].payload.value)
      && ((forall k :: 0 <= k < |inbox| ==> inbox[k].from != p) ==> p in held && m[p] == held[p])
  {
    if inbox != [] {
      var init, n := inbox[..|inbox| - 1], |inbox| - 1;
      if inbox[n].from != p {
        LastFragmentsCount(held, init, p);
        forall k | LastFrom(inbox, k) && inbox[k].from == p ensures LastFrom(init, k) && init[k] == inbox[k] {
        }
      }
    }
  }

  /** A round 2 body in its place: a broadcast from a party that has an index, or a private message. */
  predicate Proper2(e: Envelope) {
    if e.to.None? then e.payload.Round2Broadcast? && e.from < 255 else e.payload.Zero2to4?
  }

  predicate Proper3(e: Envelope) {
    if e.to.None? then e.payload.Round3Broadcast? && e.from < 255 else e.payload.Round3Private?
  }

  lemma {:induction false} FilingFaults2(box: Inbox, inbox: seq<Envelope>)
    ensures var (b, fault) := FileRound2(box, inbox);
      && (fault.None? <==> forall k :: 0 <= k < |inbox| ==> Proper2(inbox[k]))
      && (fault.Some? ==> fault == Some(EnvelopeDecode) || fault == Some(BadPartyIndex))
      && (fault.None? ==> (
            && b.proofs.Keys == box.proofs.Keys + (set k | 0 <= k < |inbox| && inbox[k].to.None? :: inbox[k].from)
            && box.zero2to4 <= b.zero2to4
            && (forall k :: 0 <= k < |inbox| && inbox[k].to.Some? ==> inbox[k].payload.Zero2to4? && inbox[k].payload.zero in b.zero2to4)))
  {
    if inbox != [] {
      var init, n := inbox[..|inbox| - 1], |inbox| - 1;
      FilingFaults2(box, init);
      assert forall k :: 0 <= k < n ==> init[k] == inbox[k];
    }
  }

  lemma {:induction false} FilingFaults3(box: Inbox, inbox: seq<Envelope>)
    ensures var (b, fault) := FileRound3(box, inbox);
      && (fault.None? <==> forall k :: 0 <= k < |inbox| ==> Proper3(inbox[k]))
      && (fault.Some? ==> fault == Some(EnvelopeDecode) || fault == Some(BadPartyIndex))
      && b.proofs == box.proofs
      && (fault.None? ==> (
            && b.bip3to4.Keys == box.bip3to4.Keys + (set k | 0 <= k < |inbox| && inbox[k].to.None? :: inbox[k].from)
            && box.zero3to4 <= b.zero3to4 && box.mul3to4 <= b.mul3to4))
  {
    if inbox != [] {
      var init, n := inbox[..|inbox| - 1], |inbox| - 1;
      FilingFaults3(box, init);
      assert forall k :: 0 <= k < n ==> init[k] == inbox[k];
    }
  }

  /** The parties whose fragments are there once the inbox is taken. */
  function Senders(s: PartyState, inbox: seq<Envelope>): set<PartyId> {
    s.fragments.Keys + (set k | 0 <= k < |inbox| :: inbox[k].from)
  }

  /** When round 1 goes through, for every state and inbox: no envelope is stray, every body is a fragment,
      and there are fragments of exactly three parties. */
  lemma Round1SucceedsIff(q: int, s: PartyState, inbox: seq<Envelope>)
    requires FieldOrder(q) && s.round == 1
    ensures Advanced(q, s, inbox).1.Success? <==>
      (forall k :: 0 <= k < |inbox| ==> !Stray(s, inbox[k]) && inbox[k].payload.Fragment?) && |Senders(s, inbox)| == 3
  {
    hide IsPrime, HeaderFault, TakeFragments, Stray;
    FirstFaultIsStray(s, inbox);
    FragmentsAreTaken(s.fragments, inbox);
    var (m, ok) := TakeFragments(s.fragments, inbox);
    if HeaderFault(s.me, s.round, inbox).None? && ok {
      assert m.Keys == Senders(s, inbox);
      assert |m| == |m.Keys|;
    }
  }

  /** When round 2 goes through: no envelope is stray, every body is in its place, and the round before left
      what this one continues with. */
  lemma Round2SucceedsIff(q: int, s: PartyState, inbox: seq<Envelope>)
    requires FieldOrder(q) && s.round == 2
    ensures Advanced(q, s, inbox).1.Success? <==>
      (forall k :: 0 <= k < |inbox| ==> !Stray(s, inbox[k]) && Proper2(inbox[k])) && s.bipKept2to3.Some?
  {
    hide IsPrime, HeaderFault, FileRound2, Stray, Proper2;
    FirstFaultIsStray(s, inbox);
    FilingFaults2(s.inbox, inbox);
    var fault := FileRound2(s.inbox, inbox).1;
    assert fault.None? <==> forall k :: 0 <= k < |inbox| ==> Proper2(inbox[k]);
  }

  /** When the last round goes through, it had every body in its place, the proof of each of the three
      parties, its own point from round 1 and an upstream verdict; its share is this party's under the key it
      names, which is the one asked for. A missing proof is reported as that. */
  lemma LastRoundSucceedsOnlyIf(q: int, s: PartyState, inbox: seq<Envelope>)
    requires FieldOrder(q) && s.round == 3
    ensures var r := Advanced(q, s, inbox).1;
      var proper := forall k :: 0 <= k < |inbox| ==> !Stray(s, inbox[k]) && Proper3(inbox[k]);
      var proven := 0 in s.inbox.proofs && 1 in s.inbox.proofs && 2 in s.inbox.proofs;
      && (r.Success? ==> (
            && proper && proven && s.polyPoint.Some? && s.me < 3
            && r.value.Done? && r.value.share.party == s.me && r.value.share.secret.Some?
            && var secret := r.value.share.secret.value;
            && secret.index == s.me + 1 && secret.polyPoint == s.polyPoint.value
            && PublicKeyOf(q, secret.keyScalar) == Some(r.value.publicKey)
            && (s.expected.Some? ==> s.expected.value == r.value.publicKey)))
      && (proper ==> (r == Failure(Backend(MissingProof)) <==> !proven))
  {
    hide IsPrime, HeaderFault, FileRound3, Stray, Proper3, JointSecret;
    FirstFaultIsStray(s, inbox);
    FilingFaults3(s.inbox, inbox);
    var fault := FileRound3(s.inbox, inbox).1;
    assert fault.None? <==> forall k :: 0 <= k < |inbox| ==> Proper3(inbox[k]);
  }

  // A body that does not decode ends the folding: what follows it is never looked at.

  lemma {:induction false} TakeFragmentsStops(held: map<PartyId, int>, inbox: seq<Envelope>, k: int)
    requires 0 <= k <= |inbox| && !TakeFragments(held, inbox[..k]).1
    ensures TakeFragments(held, inbox) == TakeFragments(held, inbox[..k])
    decreases |inbox|
  {
    if k == |inbox| {
      assert inbox[..k] == inbox;
    } else {
      var init := inbox[..|inbox| - 1];
      assert init[..k] == inbox[..k];
      TakeFragmentsStops(held, init, k);
    }
  }

  lemma {:induction false} FileRound2Stops(box: Inbox, inbox: seq<Envelope>, k: int)
    requires 0 <= k <= |inbox|
    ensures FileRound2(box, inbox[..k]).1.Some? ==> FileRound2(box, inbox) == FileRound2(box, inbox[..k])
    decreases |inbox|
  {
    if k == |inbox| {
      assert inbox[..k] == inbox;
    } else {
      var init := inbox[..|inbox| - 1];
      assert init[..k] == inbox[..k];
      FileRound2Stops(box, init, k);
    }
  }

  lemma {:induction false} FileRound3Stops(box: Inbox, inbox: seq<Envelope>, k: int)
    requires 0 <= k <= |inbox|
    ensures FileRound3(box, inbox[..k]).1.Some? ==> FileRound3(box, inbox) == FileRound3(box, inbox[..k])
    decreases |inbox|
  {
    if k == |inbox| {
      assert inbox[..k] == inbox;
    } else {
      var init := inbox[..|inbox| - 1];
      assert init[..k] == inbox[..k];
      FileRound3Stops(box, init, k);
    }
  }
}
