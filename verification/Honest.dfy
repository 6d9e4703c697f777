/** Honest runs: what the three parties hold after each round, whatever rows they contribute. */
module Honest {
  import opened Prelude
  import opened Modular
  import opened Shamir
  import opened Keys
  import opened Wire
  import opened Upstream
  import opened Dkg
  import opened Drive

  /** One row of three fragments for each of the three parties. */
  predicate Square(rows: seq<seq<int>>) {
    |rows| == TOTAL_PARTIES && forall p :: 0 <= p < TOTAL_PARTIES ==> |rows[p]| == TOTAL_PARTIES
  }

  type Member = i: int | 0 <= i < 3

  // ---- the transposition of the harness (crates/mpc-core/src/backend.rs:96-103) -----------------

  /** What every row holds for slot `j`, in row order. */
  function Column(rows: seq<seq<int>>, j: int): seq<int>
    requires 0 <= j
  {
    if rows == [] then []
    else
      var row := rows[|rows| - 1];
      Column(rows[..|rows| - 1], j) + if j < |row| then [row[j]] else []
  }

  method Transpose(rows: seq<seq<int>>, n: nat) returns (fragments: seq<seq<int>>)
    ensures |fragments| == n && forall j :: 0 <= j < n ==> fragments[j] == Column(rows, j)
  {
    fragments := seq(n, _ => []);
    for k := 0 to |rows|
      invariant |fragments| == n && forall j :: 0 <= j < n ==> fragments[j] == Column(rows[..k], j)
    {
      var row := rows[k];
      assert rows[..k + 1][..k] == rows[..k];
      for j := 0 to if |row| < n then |row| else n
        invariant |fragments| == n
        invariant forall i :: 0 <= i < n ==> fragments[i] == if i < j then Column(rows[..k + 1], i) else Column(rows[..k], i)
      {
        fragments := fragments[j := fragments[j] + [row[j]]];
      }
    }
    assert rows[..|rows|] == rows;
  }

  lemma ColumnOfSquare(rows: seq<seq<int>>, j: Member)
    requires Square(rows)
    ensures Column(rows, j) == [rows[0][j], rows[1][j], rows[2][j]]
  {
    assert rows[..2][..1] == rows[..1] && rows[..1][..0] == [];
    assert Column(rows[..1], j) == [rows[0][j]];
    assert Column(rows[..2], j) == [rows[0][j], rows[1][j]];
  }

  // ---- round 1: any delivery order --------------------------------------------------------------

  /** `inbox` is a delivery of the honest fragments for `me`: nothing else is in it, and nothing is
      missing. The order, and repetitions, are free. */
  ghost predicate DeliversFragments(rows: seq<seq<int>>, me: Member, inbox: seq<Envelope>)
    requires Square(rows)
  {
    && (forall k :: 0 <= k < |inbox| ==>
          inbox[k].from < 3 && inbox[k] == Envelope(1, inbox[k].from, Some(me), Fragment(rows[inbox[k].from][me])))
    && (forall p: Member :: p != me ==> Envelope(1, p, Some(me), Fragment(rows[p][me])) in inbox)
  }

  lemma {:induction false} FragmentsFromSenders(rows: seq<seq<int>>, me: Member, held: map<PartyId, int>, inbox: seq<Envelope>)
    requires Square(rows)
    requires forall k :: 0 <= k < |inbox| ==>
      inbox[k].from < 3 && inbox[k] == Envelope(1, inbox[k].from, Some(me), Fragment(rows[inbox[k].from][me]))
    ensures var (m, ok) := TakeFragments(held, inbox);
      && ok
      && (forall p: PartyId :: p in m <==> p in held || exists e :: e in inbox && e.from == p)
      && (forall p: PartyId :: p in m ==> if exists e :: e in inbox && e.from == p then p < 3 && m[p] == rows[p][me] else m[p] == held[p])
  {
    if inbox != [] {
      var init, last := inbox[..|inbox| - 1], inbox[|inbox| - 1];
      FragmentsFromSenders(rows, me, held, init);
      assert inbox == init + [last];
      assert forall e :: e in inbox <==> e in init || e == last;
    }
  }

  lemma {:induction false} NoHeaderFault(me: PartyId, round: int, inbox: seq<Envelope>)
    requires forall k :: 0 <= k < |inbox| ==> inbox[k].round == round && (inbox[k].to.Some? ==> inbox[k].to.value == me)
    ensures HeaderFault(me, round, inbox) == None
  {
    if inbox != [] {
      NoHeaderFault(me, round, inbox[1..]);
    }
  }

  lemma {:induction false} NoValuesBeyond(m: map<PartyId, int>, k: int)
    requires 0 <= k <= 256 && forall p: PartyId :: p in m ==> p < k
    ensures ValuesFrom(m, k) == []
    decreases 256 - k
  {
    if k < 256 {
      NoValuesBeyond(m, k + 1);
    }
  }

  lemma ValuesOfThree(m: map<PartyId, int>)
    requires forall p: PartyId :: p in m <==> p < 3
    ensures ValuesFrom(m, 0) == [m[0], m[1], m[2]] && |m| == 3
  {
    NoValuesBeyond(m, 3);
    assert ValuesFrom(m, 2) == [m[2]] + ValuesFrom(m, 3);
    assert ValuesFrom(m, 1) == [m[1]] + ValuesFrom(m, 2);
    assert ValuesFrom(m, 0) == [m[0]] + ValuesFrom(m, 1);
    assert m.Keys == {0, 1, 2};
  }

  /** For any delivery order of the honest round 1 envelopes, the ordered fragments a party feeds to
      phase 2 are the column the harness builds by transposing the rows. */
  lemma FragmentsAreTheColumn(rows: seq<seq<int>>, me: Member, inbox: seq<Envelope>)
    requires Square(rows) && DeliversFragments(rows, me, inbox)
    ensures var (m, ok) := TakeFragments(map[me := rows[me][me]], inbox);
      ok && m == map[0 := rows[0][me], 1 := rows[1][me], 2 := rows[2][me]] && ValuesFrom(m, 0) == Column(rows, me)
    ensures HeaderFault(me, 1, inbox) == None
  {
    hide ValuesFrom, TakeFragments, Column;
    var held: map<PartyId, int> := map[me := rows[me][me]];
    FragmentsFromSenders(rows, me, held, inbox);
    var m := TakeFragments(held, inbox).0;
    forall p: PartyId ensures (p in m <==> p < 3) && (p < 3 ==> p in m && m[p] == rows[p][me]) {
      if p < 3 && p != me {
        assert Envelope(1, p, Some(me), Fragment(rows[p][me])) in inbox;
      }
    }
    assert m == map[0 := rows[0][me], 1 := rows[1][me], 2 := rows[2][me]];
    ValuesOfThree(m);
    ColumnOfSquare(rows, me);
    NoHeaderFault(me, 1, inbox);
  }

  // ---- the honest states ------------------------------------------------------------------------

  /** The session all parties share: its id, what each contributes, and the key to reproduce. */
  datatype Session = Session(q: int, id: int, rows: seq<seq<int>>, expected: Option<PublicKey>)

  ghost predicate ValidSession(s: Session) {
    FieldOrder(s.q) && Square(s.rows)
  }

  /** The point of the joint polynomial party `p` ends up with: the sum of its column. */
  function PointOf3(s: Session, p: Member): int
    requires 0 < s.q && Square(s.rows)
  {
    (s.rows[0][p] + s.rows[1][p] + s.rows[2][p]) % s.q
  }

  function ProofFrom(s: Session, p: Member): Proof
    requires 0 < s.q && Square(s.rows)
  {
    Proof(p, PointOf3(s, p), s.id)
  }

  function AfterStart(s: Session, me: Member): PartyState
    requires Square(s.rows)
  {
    Started(me, s.id, s.rows[me], s.expected).0
  }

  function Sent1(s: Session, me: Member): seq<Envelope>
    requires Square(s.rows)
  {
    Started(me, s.id, s.rows[me], s.expected).1
  }

  function AfterRound2(s: Session, me: Member): PartyState
    requires 0 < s.q && Square(s.rows)
  {
    PartyState(me, 2, s.id, map[0 := s.rows[0][me], 1 := s.rows[1][me], 2 := s.rows[2][me]], Some(PointOf3(s, me)), s.expected,
      Peers(me), Some(Bip(me, s.id)),
      EmptyInbox.(proofs := map[me := ProofFrom(s, me)], bip2to4 := map[me := Bip(me, s.id)]))
  }

  function Sent2(s: Session, me: Member): seq<Envelope>
    requires 0 < s.q && Square(s.rows)
  {
    var a, b := Peers(me)[0], Peers(me)[1];
    [Envelope(2, me, None, Round2Broadcast(ProofFrom(s, me), Bip(me, s.id))),
     Envelope(2, me, Some(a), Zero2to4(PeerMessage(me, a, s.id))),
     Envelope(2, me, Some(b), Zero2to4(PeerMessage(me, b, s.id)))]
  }

  function AfterRound3(s: Session, me: Member): PartyState
    requires 0 < s.q && Square(s.rows)
  {
    var a, b := Peers(me)[0], Peers(me)[1];
    AfterRound2(s, me).(round := 3, inbox := Inbox(
      map[me := ProofFrom(s, me)][a := ProofFrom(s, a)][b := ProofFrom(s, b)],
      [PeerMessage(a, me, s.id), PeerMessage(b, me, s.id)], [], [],
      map[me := Bip(me, s.id)][a := Bip(a, s.id)][b := Bip(b, s.id)],
      map[me := Bip(me, s.id)]))
  }

  function Sent3(s: Session, me: Member): seq<Envelope> {
    var a, b := Peers(me)[0], Peers(me)[1];
    [Envelope(3, me, None, Round3Broadcast(Bip(me, s.id))),
     Envelope(3, me, Some(a), Round3Private(PeerMessage(me, a, s.id), PeerMessage(me, a, s.id))),
     Envelope(3, me, Some(b), Round3Private(PeerMessage(me, b, s.id), PeerMessage(me, b, s.id)))]
  }

  function BeforePhase4(s: Session, me: Member): PartyState
    requires 0 < s.q && Square(s.rows)
  {
    var a, b := Peers(me)[0], Peers(me)[1];
    var st := AfterRound3(s, me);
    st.(inbox := st.inbox.(
      zero3to4 := [PeerMessage(a, me, s.id), PeerMessage(b, me, s.id)],
      mul3to4 := [PeerMessage(a, me, s.id), PeerMessage(b, me, s.id)],
      bip3to4 := map[me := Bip(me, s.id)][a := Bip(a, s.id)][b := Bip(b, s.id)]))
  }

  function JointPoints(s: Session): (ps: seq<Share>)
    requires 0 < s.q && Square(s.rows)
    ensures Indices(ps) == [1, 2, 3]
  {
    [Share(1, PointOf3(s, 0)), Share(2, PointOf3(s, 1)), Share(3, PointOf3(s, 2))]
  }

  /** How the last round ends for party `me`: decided by the three points alone. */
  function Verdict(s: Session, me: Member): Result<Progress>
    requires ValidSession(s)
  {
    match JointSecret(s.q, JointPoints(s))
    case None => Failure(Backend(PhaseFailed))
    case Some(secret) => Settle(s.q, BeforePhase4(s, me), UpstreamParty(me + 1, PointOf3(s, me), secret)).1
  }

  // ---- one round at a time -----------------------------------------------------------------------

  lemma MessagesToTwo(me: PartyId, a: PartyId, b: PartyId, session: int)
    ensures MessagesTo(me, [a, b], session) == [PeerMessage(me, a, session), PeerMessage(me, b, session)]
  {
    assert [a, b][..1] == [a] && [a][..0] == [];
    assert MessagesTo(me, [a], session) == [PeerMessage(me, a, session)];
  }

  /** Round 1 to 2, for any delivery of the fragments. */
  lemma HonestRound2(s: Session, me: Member, inbox: seq<Envelope>)
    requires ValidSession(s) && DeliversFragments(s.rows, me, inbox)
    ensures Advanced(s.q, AfterStart(s, me), inbox) == (AfterRound2(s, me), Success(Send(Sent2(s, me))))
  {
    hide IsPrime, TakeFragments, ValuesFrom, HeaderFault, Column, MessagesTo, Outgoing2, Sum;
    FragmentsAreTheColumn(s.rows, me, inbox);
    ColumnOfSquare(s.rows, me);
    SumOfThree(s.rows[0][me], s.rows[1][me], s.rows[2][me]);
    MessagesToTwo(me, Peers(me)[0], Peers(me)[1], s.id);
    assert Peers(me) == [Peers(me)[0], Peers(me)[1]];
    var m := TakeFragments(AfterStart(s, me).fragments, inbox).0;
    assert |m| == 3 by { ValuesOfThree(m); }
    assert Phase2Point(s.q, ValuesFrom(m, 0)) == PointOf3(s, me);
    FreshInbox(ProofFrom(s, me), Bip(me, s.id), me);
    OutgoingOfTwo(me, ProofFrom(s, me), Bip(me, s.id), Peers(me)[0], Peers(me)[1], s.id);
  }

  lemma FreshInbox(proof: Proof, bip: Bip, me: PartyId)
    ensures EmptyInbox.proofs[me := proof] == map[me := proof]
    ensures EmptyInbox.bip2to4[me := bip] == map[me := bip]
    ensures EmptyInbox.bip3to4[me := bip] == map[me := bip]
  {
  }

  lemma OutgoingOfTwo(me: PartyId, proof: Proof, bip: Bip, a: PartyId, b: PartyId, session: int)
    ensures var two := [PeerMessage(me, a, session), PeerMessage(me, b, session)];
      && Outgoing2(me, proof, bip, two)
         == [Envelope(2, me, None, Round2Broadcast(proof, bip)),
             Envelope(2, me, Some(a), Zero2to4(two[0])), Envelope(2, me, Some(b), Zero2to4(two[1]))]
      && Outgoing3(me, bip, two)
         == [Envelope(3, me, None, Round3Broadcast(bip)),
             Envelope(3, me, Some(a), Round3Private(two[0], two[0])), Envelope(3, me, Some(b), Round3Private(two[1], two[1]))]
  {
  }

  lemma SumOfThree(x: int, y: int, z: int)
    ensures Sum([x, y, z]) == x + y + z
  {
    assert [x, y, z][..2] == [x, y] && [x, y][..1] == [x] && [x][..0] == [];
    assert Sum([x]) == x && Sum([x, y]) == x + y;
  }

  function Delivered2(s: Session, p: Member, me: Member): seq<Envelope>
    requires 0 < s.q && Square(s.rows)
  {
    [Envelope(2, p, None, Round2Broadcast(ProofFrom(s, p), Bip(p, s.id))), Envelope(2, p, Some(me), Zero2to4(PeerMessage(p, me, s.id)))]
  }

  function Delivered3(s: Session, p: Member, me: Member): seq<Envelope> {
    [Envelope(3, p, None, Round3Broadcast(Bip(p, s.id))),
     Envelope(3, p, Some(me), Round3Private(PeerMessage(p, me, s.id), PeerMessage(p, me, s.id)))]
  }

  lemma FileRound2Snoc(box: Inbox, init: seq<Envelope>, e: Envelope)
    ensures var (b, fault) := FileRound2(box, init);
      FileRound2(box, init + [e]) == if fault.Some? then (b, fault) else File2(b, e)
  {
    assert (init + [e])[..|init|] == init;
  }

  lemma FourSteps2(box: Inbox, w: Envelope, x: Envelope, y: Envelope, z: Envelope)
    requires w.to.None? && w.payload.Round2Broadcast? && w.from < 3 && x.to.Some? && x.payload.Zero2to4?
    requires y.to.None? && y.payload.Round2Broadcast? && y.from < 3 && z.to.Some? && z.payload.Zero2to4?
    ensures File2(box, w).1.None? && File2(File2(box, w).0, x).1.None? && File2(File2(File2(box, w).0, x).0, y).1.None?
    ensures File2(File2(File2(File2(box, w).0, x).0, y).0, z) == (box.(
      proofs := box.proofs[w.from := w.payload.proof][y.from := y.payload.proof],
      bip2to4 := box.bip2to4[w.from := w.payload.bip][y.from := y.payload.bip],
      zero2to4 := box.zero2to4 + [x.payload.zero] + [z.payload.zero]), None)
  {
  }

  lemma FileRound2OfFour(box: Inbox, w: Envelope, x: Envelope, y: Envelope, z: Envelope)
    requires w.to.None? && w.payload.Round2Broadcast? && w.from < 3 && x.to.Some? && x.payload.Zero2to4?
    requires y.to.None? && y.payload.Round2Broadcast? && y.from < 3 && z.to.Some? && z.payload.Zero2to4?
    ensures FileRound2(box, [w, x] + [y, z]) == (box.(
      proofs := box.proofs[w.from := w.payload.proof][y.from := y.payload.proof],
      bip2to4 := box.bip2to4[w.from := w.payload.bip][y.from := y.payload.bip],
      zero2to4 := box.zero2to4 + [x.payload.zero] + [z.payload.zero]), None)
  {
    hide File2;
    FileRound2Snoc(box, [], w);
    FileRound2Snoc(box, [w], x);
    FileRound2Snoc(box, [w, x], y);
    FileRound2Snoc(box, [w, x, y], z);
    assert [] + [w] == [w] && [w] + [x] == [w, x] && [w, x] + [y] == [w, x, y] && [w, x, y] + [z] == [w, x] + [y, z];
    FourSteps2(box, w, x, y, z);
  }


  lemma FileRound3Snoc(box: Inbox, init: seq<Envelope>, e: Envelope)
    ensures var (b, fault) := FileRound3(box, init);
      FileRound3(box, init + [e]) == if fault.Some? then (b, fault) else File3(b, e)
  {
    assert (init + [e])[..|init|] == init;
  }

  lemma FourSteps3(box: Inbox, w: Envelope, x: Envelope, y: Envelope, z: Envelope)
    requires w.to.None? && w.payload.Round3Broadcast? && w.from < 3 && x.to.Some? && x.payload.Round3Private?
    requires y.to.None? && y.payload.Round3Broadcast? && y.from < 3 && z.to.Some? && z.payload.Round3Private?
    ensures File3(box, w).1.None? && File3(File3(box, w).0, x).1.None? && File3(File3(File3(box, w).0, x).0, y).1.None?
    ensures File3(File3(File3(File3(box, w).0, x).0, y).0, z) == (box.(
      bip3to4 := box.bip3to4[w.from := w.payload.bip3][y.from := y.payload.bip3],
      zero3to4 := box.zero3to4 + [x.payload.zero3] + [z.payload.zero3],
      mul3to4 := box.mul3to4 + [x.payload.mul3] + [z.payload.mul3]), None)
  {
  }

  lemma FileRound3OfFour(box: Inbox, w: Envelope, x: Envelope, y: Envelope, z: Envelope)
    requires w.to.None? && w.payload.Round3Broadcast? && w.from < 3 && x.to.Some? && x.payload.Round3Private?
    requires y.to.None? && y.payload.Round3Broadcast? && y.from < 3 && z.to.Some? && z.payload.Round3Private?
    ensures FileRound3(box, [w, x] + [y, z]) == (box.(
      bip3to4 := box.bip3to4[w.from := w.payload.bip3][y.from := y.payload.bip3],
      zero3to4 := box.zero3to4 + [x.payload.zero3] + [z.payload.zero3],
      mul3to4 := box.mul3to4 + [x.payload.mul3] + [z.payload.mul3]), None)
  {
    hide File3;
    FileRound3Snoc(box, [], w);
    FileRound3Snoc(box, [w], x);
    FileRound3Snoc(box, [w, x], y);
    FileRound3Snoc(box, [w, x, y], z);
    assert [] + [w] == [w] && [w] + [x] == [w, x] && [w, x] + [y] == [w, x, y] && [w, x, y] + [z] == [w, x] + [y, z];
    FourSteps3(box, w, x, y, z);
  }


  lemma HonestRound3(s: Session, me: Member)
    requires ValidSession(s)
    ensures var a, b := Peers(me)[0], Peers(me)[1];
      Advanced(s.q, AfterRound2(s, me), Delivered2(s, a, me) + Delivered2(s, b, me))
        == (AfterRound3(s, me), Success(Send(Sent3(s, me))))
  {
    hide IsPrime, FileRound2, HeaderFault;
    var a, b := Peers(me)[0], Peers(me)[1];
    var x, y := Delivered2(s, a, me), Delivered2(s, b, me);
    NoHeaderFault(me, 2, x + y);
    FileRound2OfFour(AfterRound2(s, me).inbox, x[0], x[1], y[0], y[1]);
    assert x == [x[0], x[1]] && y == [y[0], y[1]];
    MessagesToTwo(me, a, b, s.id);
    assert Peers(me) == [a, b];
    FreshInbox(ProofFrom(s, me), Bip(me, s.id), me);
    OutgoingOfTwo(me, ProofFrom(s, me), Bip(me, s.id), a, b, s.id);
    var box := FileRound2(AfterRound2(s, me).inbox, x + y).0;
    assert box.zero2to4 == [PeerMessage(a, me, s.id), PeerMessage(b, me, s.id)];
    assert box.(bip3to4 := box.bip3to4[me := Bip(me, s.id)]) == AfterRound3(s, me).inbox;
  }

  lemma HonestRound4(s: Session, me: Member)
    requires ValidSession(s)
    ensures var a, b := Peers(me)[0], Peers(me)[1];
      var (s', r) := Advanced(s.q, AfterRound3(s, me), Delivered3(s, a, me) + Delivered3(s, b, me));
      r == Verdict(s, me)
  {
    hide IsPrime, FileRound3, HeaderFault, JointSecret;
    var a, b := Peers(me)[0], Peers(me)[1];
    var x, y := Delivered3(s, a, me), Delivered3(s, b, me);
    NoHeaderFault(me, 3, x + y);
    FileRound3OfFour(AfterRound3(s, me).inbox, x[0], x[1], y[0], y[1]);
    assert x == [x[0], x[1]] && y == [y[0], y[1]];
    var box := BeforePhase4(s, me).inbox;
    var filed := FileRound3(AfterRound3(s, me).inbox, x + y);
    assert filed.0.zero3to4 == box.zero3to4 && filed.0.mul3to4 == box.mul3to4;
    assert filed == (box, None);
    AllProofsIn(s, me);
  }

  lemma AllProofsIn(s: Session, me: Member)
    requires ValidSession(s)
    ensures var st := BeforePhase4(s, me);
      && 0 in st.inbox.proofs && 1 in st.inbox.proofs && 2 in st.inbox.proofs
      && var proofs := [st.inbox.proofs[0], st.inbox.proofs[1], st.inbox.proofs[2]];
      && ProvenPoints(proofs) == JointPoints(s)
      && Phase4(s.q, me, s.id, st.polyPoint.value, proofs, st.inbox.zero2to4, st.inbox.zero3to4, st.inbox.mul3to4,
                st.inbox.bip2to4, st.inbox.bip3to4)
         == match JointSecret(s.q, JointPoints(s))
            case None => None
            case Some(secret) => Some(UpstreamParty(me + 1, PointOf3(s, me), secret))
  {
    hide IsPrime, JointSecret, PointOf3;
    var st := BeforePhase4(s, me);
    var proofs := [st.inbox.proofs[0], st.inbox.proofs[1], st.inbox.proofs[2]];
    assert proofs == [ProofFrom(s, 0), ProofFrom(s, 1), ProofFrom(s, 2)];
    assert FromEveryPeer(me, s.id, st.inbox.zero2to4);
  }

  // ---- routing ------------------------------------------------------------------------------------

  /** `e` carries the fragment of slot `j`. */
  predicate CarriesSlot(me: PartyId, row: seq<int>, j: PartyId, e: Envelope) {
    j < |row| && j != me && e == Envelope(1, me, Some(j), Fragment(row[j]))
  }

  lemma {:induction false} RowEnvelopesOf(me: PartyId, row: seq<int>, e: Envelope)
    requires |row| <= 256
    ensures e in RowEnvelopes(me, row) <==> exists j: PartyId :: CarriesSlot(me, row, j, e)
  {
    if row != [] {
      var slot: PartyId := |row| - 1;
      var init := row[..slot];
      RowEnvelopesOf(me, init, e);
      forall j: PartyId ensures CarriesSlot(me, row, j, e) <==> CarriesSlot(me, init, j, e) || (j == slot && CarriesSlot(me, row, slot, e)) {
        assert j < slot ==> init[j] == row[j];
      }
      var last := if slot == me then [] else [Envelope(1, me, Some(slot), Fragment(row[slot]))];
      assert RowEnvelopes(me, row) == RowEnvelopes(me, init) + last;
      assert e in last <==> CarriesSlot(me, row, slot, e);
    }
  }

  function Flight1(s: Session): seq<Envelope>
    requires Square(s.rows)
  {
    Sent1(s, 0) + Sent1(s, 1) + Sent1(s, 2)
  }

  function Flight2(s: Session): seq<Envelope>
    requires 0 < s.q && Square(s.rows)
  {
    Sent2(s, 0) + Sent2(s, 1) + Sent2(s, 2)
  }

  function Flight3(s: Session): seq<Envelope> {
    Sent3(s, 0) + Sent3(s, 1) + Sent3(s, 2)
  }

  /** The first flight delivers every fragment to exactly its party, in whatever order it is put. */
  lemma Flight1Delivers(s: Session, me: Member, flight: seq<Envelope>)
    requires Square(s.rows) && forall e :: e in flight <==> e in Flight1(s)
    ensures DeliversFragments(s.rows, me, InboxFor(me, flight))
  {
    var inbox := InboxFor(me, flight);
    forall k | 0 <= k < |inbox|
      ensures inbox[k].from < 3 && inbox[k] == Envelope(1, inbox[k].from, Some(me), Fragment(s.rows[inbox[k].from][me]))
    {
      var e := inbox[k];
      assert e in inbox && e in flight && e in Flight1(s);
      RowEnvelopesOf(0, s.rows[0], e);
      RowEnvelopesOf(1, s.rows[1], e);
      RowEnvelopesOf(2, s.rows[2], e);
    }
    forall p: Member | p != me ensures Envelope(1, p, Some(me), Fragment(s.rows[p][me])) in inbox {
      var e := Envelope(1, p, Some(me), Fragment(s.rows[p][me]));
      RowEnvelopesOf(p, s.rows[p], e);
      assert CarriesSlot(p, s.rows[p], me, e);
      assert e in Sent1(s, p) && e in Flight1(s);
    }
  }

  lemma InboxOfThree(me: PartyId, x: Envelope, y: Envelope, z: Envelope)
    ensures InboxFor(me, [x, y, z]) ==
      (if ArrivesAt(me, x) then [x] else []) + (if ArrivesAt(me, y) then [y] else []) + (if ArrivesAt(me, z) then [z] else [])
  {
    InboxOfOne(me, x);
    InboxOfOne(me, y);
    InboxOfOne(me, z);
    InboxConcat(me, [x], [y]);
    InboxConcat(me, [x] + [y], [z]);
    assert [x, y, z] == [x] + [y] + [z];
  }

  lemma InboxOfSent2(s: Session, me: Member, p: Member)
    requires 0 < s.q && Square(s.rows)
    ensures InboxFor(me, Sent2(s, p)) == if p == me then [] else Delivered2(s, p, me)
  {
    hide InboxFor, ProofFrom;
    InboxOfThree(me, Sent2(s, p)[0], Sent2(s, p)[1], Sent2(s, p)[2]);
    assert Sent2(s, p) == [Sent2(s, p)[0], Sent2(s, p)[1], Sent2(s, p)[2]];
  }

  lemma InboxOfSent3(s: Session, me: Member, p: Member)
    ensures InboxFor(me, Sent3(s, p)) == if p == me then [] else Delivered3(s, p, me)
  {
    hide InboxFor;
    InboxOfThree(me, Sent3(s, p)[0], Sent3(s, p)[1], Sent3(s, p)[2]);
    assert Sent3(s, p) == [Sent3(s, p)[0], Sent3(s, p)[1], Sent3(s, p)[2]];
  }

  lemma InboxOfConcat3(me: PartyId, x: seq<Envelope>, y: seq<Envelope>, z: seq<Envelope>)
    ensures InboxFor(me, x + y + z) == InboxFor(me, x) + InboxFor(me, y) + InboxFor(me, z)
  {
    InboxConcat(me, x, y);
    InboxConcat(me, x + y, z);
  }

  lemma LaterInboxes(s: Session, me: Member)
    requires 0 < s.q && Square(s.rows)
    ensures var a, b := Peers(me)[0], Peers(me)[1];
      && InboxFor(me, Flight2(s)) == Delivered2(s, a, me) + Delivered2(s, b, me)
      && InboxFor(me, Flight3(s)) == Delivered3(s, a, me) + Delivered3(s, b, me)
  {
    hide Sent2, Sent3, Delivered2, Delivered3, InboxFor;
    InboxOfConcat3(me, Sent2(s, 0), Sent2(s, 1), Sent2(s, 2));
    InboxOfConcat3(me, Sent3(s, 0), Sent3(s, 1), Sent3(s, 2));
    forall p: Member ensures
      && InboxFor(me, Sent2(s, p)) == (if p == me then [] else Delivered2(s, p, me))
      && InboxFor(me, Sent3(s, p)) == (if p == me then [] else Delivered3(s, p, me))
    {
      InboxOfSent2(s, me, p);
      InboxOfSent3(s, me, p);
    }
    WithoutOwn(me, Delivered2(s, 0, me), Delivered2(s, 1, me), Delivered2(s, 2, me));
    WithoutOwn(me, Delivered3(s, 0, me), Delivered3(s, 1, me), Delivered3(s, 2, me));
  }

  lemma WithoutOwn(me: Member, x: seq<Envelope>, y: seq<Envelope>, z: seq<Envelope>)
    ensures (if me == 0 then [] else x) + (if me == 1 then [] else y) + (if me == 2 then [] else z)
         == if me == 0 then y + z else if me == 1 then x + z else x + y
  {
  }

  // ---- whole runs -----------------------------------------------------------------------------------

  /** The share party `p` comes out with when the joint secret is `secret`. */
  function NewShare(s: Session, p: Member, secret: int): KeyShare
    requires 0 < s.q && Square(s.rows)
  {
    KeyShare(p, Some(UpstreamParty(p + 1, PointOf3(s, p), secret)))
  }

  /** How a run of the three honest parties ends. */
  function Outcome(s: Session): (r: Result<(seq<KeyShare>, PublicKey)>)
    requires ValidSession(s)
    ensures r.Success? ==> |r.value.0| == 3
  {
    match JointSecret(s.q, JointPoints(s))
    case None => Failure(Backend(PhaseFailed))
    case Some(secret) =>
      match PublicKeyOf(s.q, secret)
      case None => Failure(Backend(KeyLength))
      case Some(key) =>
        if s.expected.Some? && s.expected.value != key then Failure(Backend(KeyWouldChange))
        else Success(([NewShare(s, 0, secret), NewShare(s, 1, secret), NewShare(s, 2, secret)], key))
  }

  lemma PassStep(q: int, states: seq<PartyState>, flight: seq<Envelope>, k: int, t: Tally, p: Progress, t': Tally)
    requires FieldOrder(q) && 0 <= k < |states|
    requires Advanced(q, states[k], InboxFor(states[k].me, flight)).1 == Success(p)
    requires Count(t, Advanced(q, states[k], InboxFor(states[k].me, flight)).0, p) == Success(t')
    ensures PassFrom(q, states, flight, k, t) == PassFrom(q, states, flight, k + 1, t')
  {
    hide IsPrime, Advanced;
  }

  lemma PassOfSends(q: int, states: seq<PartyState>, flight: seq<Envelope>,
                    after: seq<PartyState>, sent: seq<seq<Envelope>>)
    requires FieldOrder(q) && |states| == |after| == |sent| == 3
    requires forall i :: 0 <= i < 3 ==>
      Advanced(q, states[i], InboxFor(states[i].me, flight)) == (after[i], Success(Send(sent[i])))
    ensures Pass(q, states, flight, [], None) == Success(Tally(after, sent[0] + sent[1] + sent[2], 0, [], None))
  {
    hide IsPrime, Advanced, PassFrom;
    var t0 := Tally([], [], 0, [], None);
    var t1 := Tally([after[0]], sent[0], 0, [], None);
    var t2 := Tally([after[0], after[1]], sent[0] + sent[1], 0, [], None);
    var t3 := Tally([after[0], after[1], after[2]], sent[0] + sent[1] + sent[2], 0, [], None);
    assert [] + sent[0] == sent[0] && [] + [after[0]] == [after[0]];
    assert [after[0]] + [after[1]] == t2.states && [after[0], after[1]] + [after[2]] == t3.states == after;
    PassStep(q, states, flight, 0, t0, Send(sent[0]), t1);
    PassStep(q, states, flight, 1, t1, Send(sent[1]), t2);
    PassStep(q, states, flight, 2, t2, Send(sent[2]), t3);
    PassEnd(q, states, flight, t3);
  }

  lemma LastPass(q: int, states: seq<PartyState>, flight: seq<Envelope>, shares: seq<KeyShare>, key: PublicKey)
    requires FieldOrder(q) && |states| == |shares| == 3
    requires forall i :: 0 <= i < 3 ==>
      Advanced(q, states[i], InboxFor(states[i].me, flight)).1 == Success(Done(shares[i], key))
    ensures Run(q, states, flight, [], None) == Driven(Success((shares, key)), 1)
  {
    hide IsPrime, Advanced, PassFrom;
    var a0 := Advanced(q, states[0], InboxFor(states[0].me, flight)).0;
    var a1 := Advanced(q, states[1], InboxFor(states[1].me, flight)).0;
    var a2 := Advanced(q, states[2], InboxFor(states[2].me, flight)).0;
    var t0 := Tally([], [], 0, [], None);
    var t1 := Tally([a0], [], 1, [shares[0]], Some(key));
    var t2 := Tally([a0, a1], [], 2, [shares[0], shares[1]], Some(key));
    var t3 := Tally([a0, a1, a2], [], 3, [shares[0], shares[1], shares[2]], Some(key));
    assert [] + [a0] == t1.states && [a0] + [a1] == t2.states && [a0, a1] + [a2] == t3.states;
    assert [] + [shares[0]] == t1.shares && t1.shares + [shares[1]] == t2.shares && t2.shares + [shares[2]] == t3.shares == shares;
    PassStep(q, states, flight, 0, t0, Done(shares[0], key), t1);
    PassStep(q, states, flight, 1, t1, Done(shares[1], key), t2);
    PassStep(q, states, flight, 2, t2, Done(shares[2], key), t3);
    PassEnd(q, states, flight, t3);
  }

  function Starts(s: Session): seq<PartyState>
    requires Square(s.rows)
  {
    [AfterStart(s, 0), AfterStart(s, 1), AfterStart(s, 2)]
  }

  lemma FirstTwoPasses(s: Session, flight: seq<Envelope>)
    requires ValidSession(s) && forall e :: e in flight <==> e in Flight1(s)
    ensures Pass(s.q, Starts(s), flight, [], None)
         == Success(Tally([AfterRound2(s, 0), AfterRound2(s, 1), AfterRound2(s, 2)], Flight2(s), 0, [], None))
    ensures Pass(s.q, [AfterRound2(s, 0), AfterRound2(s, 1), AfterRound2(s, 2)], Flight2(s), [], None)
         == Success(Tally([AfterRound3(s, 0), AfterRound3(s, 1), AfterRound3(s, 2)], Flight3(s), 0, [], None))
  {
    hide IsPrime, Advanced, Pass, Sent2, Sent3, Delivered2, Delivered3;
    forall me: Member ensures
      && Advanced(s.q, AfterStart(s, me), InboxFor(me, flight)) == (AfterRound2(s, me), Success(Send(Sent2(s, me))))
      && Advanced(s.q, AfterRound2(s, me), InboxFor(me, Flight2(s))) == (AfterRound3(s, me), Success(Send(Sent3(s, me))))
    {
      Flight1Delivers(s, me, flight);
      HonestRound2(s, me, InboxFor(me, flight));
      LaterInboxes(s, me);
      HonestRound3(s, me);
    }
    PassOfSends(s.q, Starts(s), flight, [AfterRound2(s, 0), AfterRound2(s, 1), AfterRound2(s, 2)], [Sent2(s, 0), Sent2(s, 1), Sent2(s, 2)]);
    PassOfSends(s.q, [AfterRound2(s, 0), AfterRound2(s, 1), AfterRound2(s, 2)], Flight2(s),
      [AfterRound3(s, 0), AfterRound3(s, 1), AfterRound3(s, 2)], [Sent3(s, 0), Sent3(s, 1), Sent3(s, 2)]);
  }

  lemma ThirdPass(s: Session)
    requires ValidSession(s)
    ensures Run(s.q, [AfterRound3(s, 0), AfterRound3(s, 1), AfterRound3(s, 2)], Flight3(s), [], None) == Driven(Outcome(s), 1)
  {
    hide IsPrime, Advanced, JointSecret, Sent3, Delivered3;
    forall me: Member ensures Advanced(s.q, AfterRound3(s, me), InboxFor(me, Flight3(s))).1 == Verdict(s, me) {
      LaterInboxes(s, me);
      HonestRound4(s, me);
    }
    var states := [AfterRound3(s, 0), AfterRound3(s, 1), AfterRound3(s, 2)];
    match Outcome(s)
    case Success((shares, key)) =>
      assert forall me: Member :: Verdict(s, me) == Success(Done(shares[me], key));
      LastPass(s.q, states, Flight3(s), shares, key);
    case Failure(e) =>
      assert Verdict(s, 0) == Failure(e);
      assert Pass(s.q, states, Flight3(s), [], None) == Failure(e);
  }

  /** Three honest parties take exactly three passes, for every delivery order of the first flight,
      and the run ends as the sums of the columns decide: with one share for each of the parties
      0, 1 and 2, or with the same refusal at each of them. */
  lemma HonestRun(s: Session, flight: seq<Envelope>)
    requires ValidSession(s) && forall e :: e in flight <==> e in Flight1(s)
    ensures Run(s.q, Starts(s), flight, [], None) == Driven(Outcome(s), 3)
  {
    hide IsPrime, Advanced, Pass, Flight1, Flight2, Flight3, AfterStart, AfterRound2, AfterRound3;
    FirstTwoPasses(s, flight);
    ThirdPass(s);
    var second := [AfterRound2(s, 0), AfterRound2(s, 1), AfterRound2(s, 2)];
    assert Run(s.q, second, Flight2(s), [], None) == Driven(Outcome(s), 2);
  }
}
