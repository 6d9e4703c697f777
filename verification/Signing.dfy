/** The three drivers of the signing exchange: in one process
    (crates/mpc-core/src/protocol.rs:848-890), with the recovery file, and with the server
    (packages/extension/src/protocolRunner.ts:192-260). */
module Signing {
  import opened Prelude
  import opened Keys
  import opened Wire
  import opened Sign

  const MAX_ROUNDS := 6
  const LOCAL_ROUNDS := 4

  /** A signing party behind the wasm boundary. It drops its state when it finishes. */
  datatype SignSession = SignSession(inner: Option<SignState>, outgoing: seq<Envelope>, signature: Option<Signature>)

  datatype SignRunError =
    | Core(error: Error)
    | SessionOver
    | ServerRefused(reply: Reply)
    | ServerFirst
    | RoundLimit
    | Disagree

  datatype SignRun = SignedIn(signature: Signature, iterations: int) | Failed(why: SignRunError)

  datatype Turn = Moved(session: SignSession, out: seq<Envelope>) | Stopped(why: SignRunError)

  function Opened(s: SignState, out: seq<Envelope>): SignSession {
    SignSession(Some(s), out, None)
  }

  /** One session in one iteration; a finished one is skipped. */
  function SignTurn(s: SignSession, me: PartyId, flight: seq<Envelope>, up: Upstream): Turn {
    if s.signature.Some? then Moved(s, [])
    else if s.inner.None? then Stopped(SessionOver)
    else
      var step := SignAdvanced(s.inner.value, InboxFor(me, flight), up);
      match step.answer
      case Failure(e) => Stopped(Core(e))
      case Success(SignSend(out)) => Moved(SignSession(Some(step.state), out, None), out)
      case Success(Signed(signature)) => Moved(SignSession(None, [], Some(signature)), [])
  }

  // ---- with the recovery file ------------------------------------------------------------------------

  /** The offline loop from iteration `n` on; `ua[k]` and `ub[k]` are what the upstream crate does for
      each side in iteration `k`. */
  function OfflineFrom(n: int, a: SignSession, b: SignSession, pa: PartyId, pb: PartyId, flight: seq<Envelope>,
                       ua: seq<Upstream>, ub: seq<Upstream>): SignRun
    requires 0 <= n <= MAX_ROUNDS && |ua| == |ub| == MAX_ROUNDS
    decreases MAX_ROUNDS - n
  {
    if n == MAX_ROUNDS then Failed(RoundLimit)
    else
      var ta := SignTurn(a, pa, flight, ua[n]);
      if ta.Stopped? then Failed(ta.why)
      else
        var tb := SignTurn(b, pb, flight, ub[n]);
        if tb.Stopped? then Failed(tb.why)
        else if ta.session.signature.Some? then SignedIn(ta.session.signature.value, n + 1)
        else OfflineFrom(n + 1, ta.session, tb.session, pa, pb, ta.out + tb.out, ua, ub)
  }

  method SignWithRecoveryFile(a0: SignSession, b0: SignSession, pa: PartyId, pb: PartyId, flight0: seq<Envelope>,
                              ua: seq<Upstream>, ub: seq<Upstream>) returns (r: SignRun)
    requires |ua| == |ub| == MAX_ROUNDS
    ensures r == OfflineFrom(0, a0, b0, pa, pb, flight0, ua, ub)
  {
    hide SignTurn;
    var a, b, inFlight := a0, b0, flight0;
    for round := 0 to MAX_ROUNDS
      invariant OfflineFrom(round, a, b, pa, pb, inFlight, ua, ub) == OfflineFrom(0, a0, b0, pa, pb, flight0, ua, ub)
    {
      var next: seq<Envelope> := [];
      var ta := SignTurn(a, pa, inFlight, ua[round]);
      if ta.Stopped? {
        return Failed(ta.why);
      }
      a, next := ta.session, next + ta.out;
      var tb := SignTurn(b, pb, inFlight, ub[round]);
      if tb.Stopped? {
        return Failed(tb.why);
      }
      b, next := tb.session, next + tb.out;
      if a.signature.Some? {
        return SignedIn(a.signature.value, round + 1);
      }
      assert next == ta.out + tb.out;
      inFlight := next;
    }
    r := Failed(RoundLimit);
  }

  // ---- with the server ---------------------------------------------------------------------------------

  /** The everyday loop from iteration `n` on. `live[k]` says whether the server's row is still there
      in iteration `k`. */
  function OnlineFrom(n: int, a: SignSession, pa: PartyId, row: Option<SignState>, flight: seq<Envelope>,
                      ua: seq<Upstream>, us: seq<Upstream>, live: seq<bool>): SignRun
    requires 0 <= n <= MAX_ROUNDS && |ua| == |us| == |live| == MAX_ROUNDS
    decreases MAX_ROUNDS - n
  {
    if n == MAX_ROUNDS then Failed(RoundLimit)
    else
      var ta := SignTurn(a, pa, flight, ua[n]);
      if ta.Stopped? then Failed(ta.why)
      else
        var served := Serve(row, SignRequest(live[n], InboxFor(2, flight), us[n]));
        match served.reply
        case Completed(_) =>
          if ta.session.signature.None? then Failed(ServerFirst) else SignedIn(ta.session.signature.value, n + 1)
        case InProgress(out) => OnlineFrom(n + 1, ta.session, pa, served.stored, ta.out + out, ua, us, live)
        case _ => Failed(ServerRefused(served.reply))
  }

  method SignWithServer(a0: SignSession, pa: PartyId, server: SignSessions, flight0: seq<Envelope>,
                        ua: seq<Upstream>, us: seq<Upstream>, live: seq<bool>) returns (r: SignRun)
    requires |ua| == |us| == |live| == MAX_ROUNDS
    modifies server
    ensures r == OnlineFrom(0, a0, pa, old(server.row), flight0, ua, us, live)
  {
    hide SignTurn, Serve;
    var a, inFlight := a0, flight0;
    for round := 0 to MAX_ROUNDS
      invariant OnlineFrom(round, a, pa, server.row, inFlight, ua, us, live)
             == OnlineFrom(0, a0, pa, old(server.row), flight0, ua, us, live)
    {
      var next: seq<Envelope> := [];
      var ta := SignTurn(a, pa, inFlight, ua[round]);
      if ta.Stopped? {
        return Failed(ta.why);
      }
      a, next := ta.session, next + ta.out;
      var reply, _ := server.AdvanceSign(SignRequest(live[round], InboxFor(2, inFlight), us[round]));
      if reply.Completed? {
        if a.signature.None? {
          return Failed(ServerFirst);
        }
        return SignedIn(a.signature.value, round + 1);
      }
      if !reply.InProgress? {
        return Failed(ServerRefused(reply));
      }
      assert next + reply.envelopes == ta.out + reply.envelopes;
      inFlight := next + reply.envelopes;
    }
    r := Failed(RoundLimit);
  }

  // ---- in one process ------------------------------------------------------------------------------------

  function LocalFrom(n: int, a: SignState, b: SignState, flight: seq<Envelope>, ua: seq<Upstream>, ub: seq<Upstream>): SignRun
    requires 0 <= n <= LOCAL_ROUNDS && |ua| == |ub| == LOCAL_ROUNDS
    decreases LOCAL_ROUNDS - n
  {
    if n == LOCAL_ROUNDS then Failed(RoundLimit)
    else
      var x := SignAdvanced(a, InboxFor(a.me, flight), ua[n]);
      if x.answer.Failure? then Failed(Core(x.answer.error))
      else
        var y := SignAdvanced(b, InboxFor(b.me, flight), ub[n]);
        if y.answer.Failure? then Failed(Core(y.answer.error))
        else if x.answer.value.Signed? && y.answer.value.Signed? && x.answer.value != y.answer.value then Failed(Disagree)
        else if y.answer.value.Signed? then SignedIn(y.answer.value.signature, n + 1)
        else if x.answer.value.Signed? then SignedIn(x.answer.value.signature, n + 1)
        else LocalFrom(n + 1, x.state, y.state, x.answer.value.envelopes + y.answer.value.envelopes, ua, ub)
  }

  method SignLocally(a: SignParty, b: SignParty, flight0: seq<Envelope>, ua: seq<Upstream>, ub: seq<Upstream>) returns (r: SignRun)
    requires a != b && |ua| == |ub| == LOCAL_ROUNDS
    modifies a, b
    ensures r == LocalFrom(0, old(a.State()), old(b.State()), flight0, ua, ub)
  {
    hide SignAdvanced;
    var inFlight := flight0;
    for pass := 0 to LOCAL_ROUNDS
      invariant LocalFrom(pass, a.State(), b.State(), inFlight, ua, ub)
             == LocalFrom(0, old(a.State()), old(b.State()), flight0, ua, ub)
    {
      var next: seq<Envelope>, signature: Option<Signature> := [], None;
      ghost var a0, b0 := a.State(), b.State();
      var x, _ := a.Advance(InboxFor(a.me, inFlight), ua[pass]);
      match x {
        case Failure(e) => return Failed(Core(e));
        case Success(SignSend(out)) => next := next + out;
        case Success(Signed(sig)) => signature := Some(sig);
      }
      assert b.State() == b0 && a.State() == SignAdvanced(a0, InboxFor(a0.me, inFlight), ua[pass]).state;
      var y, _ := b.Advance(InboxFor(b.me, inFlight), ub[pass]);
      match y {
        case Failure(e) => return Failed(Core(e));
        case Success(SignSend(out)) => next := next + out;
        case Success(Signed(sig)) =>
          if signature.Some? && signature.value != sig {
            return Failed(Disagree);
          }
          signature := Some(sig);
      }
      if signature.Some? {
        return SignedIn(signature.value, pass + 1);
      }
      assert next == x.value.envelopes + y.value.envelopes;
      inFlight := next;
    }
    r := Failed(RoundLimit);
  }

  // ---- whatever the messages and the upstream crate do --------------------------------------------------

  lemma SuccessMovesOneRound(s: SignState, inbox: seq<Envelope>, up: Upstream)
    ensures var step := SignAdvanced(s, inbox, up);
      step.answer.Success? ==> (
        && 1 <= s.round <= 3 && step.state.round == s.round + 1 && step.state.me == s.me
        && (step.answer.value.Signed? <==> s.round == 3))
  {
    hide SignHeaderFault, Bodies, SignEnvelopes;
  }

  /** Fresh sessions, any messages and any upstream behaviour: a signature can only come in the third
      iteration, and the loop never runs out of rounds or into a finished session. */
  lemma {:induction false} OfflineEndsInThree(n: int, a: SignState, ao: seq<Envelope>, b: SignState, bo: seq<Envelope>,
                                              flight: seq<Envelope>, ua: seq<Upstream>, ub: seq<Upstream>)
    requires 0 <= n <= 2 && |ua| == |ub| == MAX_ROUNDS && a.round == b.round == n + 1
    ensures var r := OfflineFrom(n, Opened(a, ao), Opened(b, bo), a.me, b.me, flight, ua, ub);
      && (r.SignedIn? ==> r.iterations == 3) && r != Failed(RoundLimit) && r != Failed(SessionOver)
    decreases 2 - n
  {
    hide SignAdvanced, InboxFor;
    SuccessMovesOneRound(a, InboxFor(a.me, flight), ua[n]);
    SuccessMovesOneRound(b, InboxFor(b.me, flight), ub[n]);
    var ta, tb := SignTurn(Opened(a, ao), a.me, flight, ua[n]), SignTurn(Opened(b, bo), b.me, flight, ub[n]);
    if n < 2 && ta.Moved? && tb.Moved? {
      OfflineEndsInThree(n + 1, ta.session.inner.value, ta.out, tb.session.inner.value, tb.out, ta.out + tb.out, ua, ub);
    }
  }

  /** The same for the everyday path, and the server never finishes first. */
  lemma {:induction false} OnlineEndsInThree(n: int, a: SignState, ao: seq<Envelope>, row: SignState, flight: seq<Envelope>,
                                             ua: seq<Upstream>, us: seq<Upstream>, live: seq<bool>)
    requires 0 <= n <= 2 && |ua| == |us| == |live| == MAX_ROUNDS && a.round == row.round == n + 1
    ensures var r := OnlineFrom(n, Opened(a, ao), a.me, Some(row), flight, ua, us, live);
      && (r.SignedIn? ==> r.iterations == 3) && r != Failed(RoundLimit) && r != Failed(SessionOver) && r != Failed(ServerFirst)
    decreases 2 - n
  {
    hide SignAdvanced, InboxFor;
    SuccessMovesOneRound(a, InboxFor(a.me, flight), ua[n]);
    SuccessMovesOneRound(row, InboxFor(2, flight), us[n]);
    var ta := SignTurn(Opened(a, ao), a.me, flight, ua[n]);
    var served := Serve(Some(row), SignRequest(live[n], InboxFor(2, flight), us[n]));
    if n < 2 && ta.Moved? && served.reply.InProgress? {
      OnlineEndsInThree(n + 1, ta.session.inner.value, ta.out, served.stored.value, ta.out + served.reply.envelopes, ua, us, live);
    }
  }

  /** The same for the harness, which allows four passes. */
  lemma {:induction false} LocalEndsInThree(n: int, a: SignState, b: SignState, flight: seq<Envelope>, ua: seq<Upstream>, ub: seq<Upstream>)
    requires 0 <= n <= 2 && |ua| == |ub| == LOCAL_ROUNDS && a.round == b.round == n + 1
    ensures var r := LocalFrom(n, a, b, flight, ua, ub);
      (r.SignedIn? ==> r.iterations == 3) && r != Failed(RoundLimit)
    decreases 2 - n
  {
    hide SignAdvanced, InboxFor;
    SuccessMovesOneRound(a, InboxFor(a.me, flight), ua[n]);
    SuccessMovesOneRound(b, InboxFor(b.me, flight), ub[n]);
    var x, y := SignAdvanced(a, InboxFor(a.me, flight), ua[n]), SignAdvanced(b, InboxFor(b.me, flight), ub[n]);
    if n < 2 && x.answer.Success? && y.answer.Success? {
      LocalEndsInThree(n + 1, x.state, y.state, x.answer.value.envelopes + y.answer.value.envelopes, ua, ub);
    }
  }

  // ---- two honest parties --------------------------------------------------------------------------------

  /** What the upstream crate produces for one honest party over the four phases. */
  datatype Script = Script(kept1: int, post1: int, kept2: int, post2: int, x: int, broadcast: int, s: int, recoveryId: int)

  /** The upstream's answer in phase `phase`, with one message for the one peer. */
  function Honestly(sc: Script, phase: int, peer: PartyId): Upstream {
    Upstream(true, if phase == 1 then sc.kept1 else sc.kept2, [Post(peer, if phase == 1 then sc.post1 else sc.post2)],
             Digits(sc.x), sc.broadcast, Digits(sc.s), sc.recoveryId, true)
  }

  function SignAfter(k: int, share: KeyShare, peer: PartyId, sc: Script): SignState {
    if k == 1 then SignState(share.party, peer, 1, share, Some(sc.kept1), None, None, [])
    else if k == 2 then SignState(share.party, peer, 2, share, None, Some(sc.kept2), None, [])
    else SignState(share.party, peer, 3, share, None, None, Some(Digits(sc.x)), [sc.broadcast])
  }

  function SignSent(k: int, me: PartyId, peer: PartyId, sc: Script): seq<Envelope> {
    if k == 1 then [Envelope(1, me, Some(peer), SignMessage(1, sc.post1))]
    else if k == 2 then [Envelope(2, me, Some(peer), SignMessage(2, sc.post2))]
    else [Envelope(3, me, None, SignMessage(3, sc.broadcast))]
  }

  /** Starting works, and each round takes in exactly the peer's message of that round; the last one
      hands phase 4 both broadcasts, its own first. */
  lemma HonestSignStep(share: KeyShare, peer: PartyId, mine: Script, theirs: Script)
    requires share.secret.Some? && share.party != peer && peer < 3
    ensures SignStarted(share, peer, Honestly(mine, 1, peer)) == Success((SignAfter(1, share, peer, mine), SignSent(1, share.party, peer, mine)))
    ensures SignAdvanced(SignAfter(1, share, peer, mine), SignSent(1, peer, share.party, theirs), Honestly(mine, 2, peer))
         == SignStep(SignAfter(2, share, peer, mine), Success(SignSend(SignSent(2, share.party, peer, mine))),
                     Some(Use2(mine.kept1, [theirs.post1], Some(mine.kept2))))
    ensures SignAdvanced(SignAfter(2, share, peer, mine), SignSent(2, peer, share.party, theirs), Honestly(mine, 3, peer))
         == SignStep(SignAfter(3, share, peer, mine), Success(SignSend(SignSent(3, share.party, peer, mine))),
                     Some(Use3(mine.kept2, [theirs.post2], Some(Digits(mine.x)))))
    ensures SignAdvanced(SignAfter(3, share, peer, mine), SignSent(3, peer, share.party, theirs), Honestly(mine, 4, peer)).answer
         == Success(Signed(Signature(mine.x, mine.s, mine.recoveryId)))
    ensures SignAdvanced(SignAfter(3, share, peer, mine), SignSent(3, peer, share.party, theirs), Honestly(mine, 4, peer)).use
         == Some(Use4(Digits(mine.x), [mine.broadcast, theirs.broadcast], Some(Digits(mine.s))))
  {
    var in1, in2, in3 := SignSent(1, peer, share.party, theirs), SignSent(2, peer, share.party, theirs), SignSent(3, peer, share.party, theirs);
    OneBody(in1[0], 1);
    OneBody(in2[0], 2);
    OneBody(in3[0], 3);
    assert in1 == [in1[0]] && in2 == [in2[0]] && in3 == [in3[0]];
    assert SignHeaderFault(SignAfter(1, share, peer, mine), in1).None?;
    assert SignHeaderFault(SignAfter(2, share, peer, mine), in2).None?;
    assert SignHeaderFault(SignAfter(3, share, peer, mine), in3).None?;
    assert [mine.broadcast] + [theirs.broadcast] == [mine.broadcast, theirs.broadcast];
    assert SignEnvelopes(share.party, 1, [Post(peer, mine.post1)]) == SignSent(1, share.party, peer, mine);
    assert SignEnvelopes(share.party, 2, [Post(peer, mine.post2)]) == SignSent(2, share.party, peer, mine);
  }

  lemma OneBody(e: Envelope, stage: int)
    ensures Bodies([e], stage) == if e.payload.SignMessage? && e.payload.stage == stage then ([e.payload.content], true) else ([], false)
  {
    assert [e][..0] == [];
    if e.payload.SignMessage? {
      assert [] + [e.payload.content] == [e.payload.content];
    }
  }

  lemma OwnAndPeers(k: int, a: PartyId, b: PartyId, sa: Script, sb: Script)
    requires a != b
    ensures InboxFor(a, SignSent(k, a, b, sa) + SignSent(k, b, a, sb)) == SignSent(k, b, a, sb)
    ensures InboxFor(b, SignSent(k, a, b, sa) + SignSent(k, b, a, sb)) == SignSent(k, a, b, sa)
  {
    var x, y := SignSent(k, a, b, sa), SignSent(k, b, a, sb);
    assert x == [x[0]] && y == [y[0]];
    InboxConcat(a, x, y);
    InboxConcat(b, x, y);
    InboxOfOne(a, x[0]);
    InboxOfOne(a, y[0]);
    InboxOfOne(b, x[0]);
    InboxOfOne(b, y[0]);
  }

  /** The upstream behaves honestly in the first three iterations. */
  ghost predicate HonestUps(ups: seq<Upstream>, sc: Script, peer: PartyId) {
    |ups| >= 3 && ups[0] == Honestly(sc, 2, peer) && ups[1] == Honestly(sc, 3, peer) && ups[2] == Honestly(sc, 4, peer)
  }

  ghost predicate TwoParties(sa: KeyShare, sb: KeyShare) {
    sa.secret.Some? && sb.secret.Some? && sa.party != sb.party && sa.party < 3 && sb.party < 3
  }

  /** With the recovery file: the third iteration returns the extension's signature. */
  lemma HonestOffline(sa: KeyShare, sb: KeyShare, a: Script, b: Script, ua: seq<Upstream>, ub: seq<Upstream>)
    requires TwoParties(sa, sb) && |ua| == |ub| == MAX_ROUNDS && HonestUps(ua, a, sb.party) && HonestUps(ub, b, sa.party)
    ensures var pa, pb := sa.party, sb.party;
      OfflineFrom(0, Opened(SignAfter(1, sa, pb, a), SignSent(1, pa, pb, a)), Opened(SignAfter(1, sb, pa, b), SignSent(1, pb, pa, b)), pa, pb,
                  SignSent(1, pa, pb, a) + SignSent(1, pb, pa, b), ua, ub)
        == SignedIn(Signature(a.x, a.s, a.recoveryId), 3)
  {
    hide SignAdvanced, InboxFor, SignAfter, SignSent, SignStarted;
    var pa, pb := sa.party, sb.party;
    HonestSignStep(sa, pb, a, b);
    HonestSignStep(sb, pa, b, a);
    OwnAndPeers(1, pa, pb, a, b);
    OwnAndPeers(2, pa, pb, a, b);
    OwnAndPeers(3, pa, pb, a, b);
    var f1 := SignSent(1, pa, pb, a) + SignSent(1, pb, pa, b);
    var f2 := SignSent(2, pa, pb, a) + SignSent(2, pb, pa, b);
    var f3 := SignSent(3, pa, pb, a) + SignSent(3, pb, pa, b);
    var a1, b1 := Opened(SignAfter(1, sa, pb, a), SignSent(1, pa, pb, a)), Opened(SignAfter(1, sb, pa, b), SignSent(1, pb, pa, b));
    var a2, b2 := Opened(SignAfter(2, sa, pb, a), SignSent(2, pa, pb, a)), Opened(SignAfter(2, sb, pa, b), SignSent(2, pb, pa, b));
    var a3, b3 := Opened(SignAfter(3, sa, pb, a), SignSent(3, pa, pb, a)), Opened(SignAfter(3, sb, pa, b), SignSent(3, pb, pa, b));
    assert OfflineFrom(2, a3, b3, pa, pb, f3, ua, ub) == SignedIn(Signature(a.x, a.s, a.recoveryId), 3);
    assert OfflineFrom(1, a2, b2, pa, pb, f2, ua, ub) == OfflineFrom(2, a3, b3, pa, pb, f3, ua, ub);
    assert OfflineFrom(0, a1, b1, pa, pb, f1, ua, ub) == OfflineFrom(1, a2, b2, pa, pb, f2, ua, ub);
  }

  /** With an honest server whose row lives on: the third iteration, too. */
  lemma HonestOnline(sa: KeyShare, sb: KeyShare, a: Script, b: Script, ua: seq<Upstream>, us: seq<Upstream>, live: seq<bool>)
    requires TwoParties(sa, sb) && sb.party == 2 && |ua| == |us| == |live| == MAX_ROUNDS && HonestUps(ua, a, sb.party) && HonestUps(us, b, sa.party)
    requires live[0] && live[1] && live[2]
    ensures var pa, pb := sa.party, sb.party;
      OnlineFrom(0, Opened(SignAfter(1, sa, pb, a), SignSent(1, pa, pb, a)), pa, Some(SignAfter(1, sb, pa, b)),
                 SignSent(1, pa, pb, a) + SignSent(1, pb, pa, b), ua, us, live)
        == SignedIn(Signature(a.x, a.s, a.recoveryId), 3)
  {
    hide SignAdvanced, InboxFor, SignAfter, SignSent, SignStarted;
    var pa, pb := sa.party, sb.party;
    HonestSignStep(sa, pb, a, b);
    HonestSignStep(sb, pa, b, a);
    OwnAndPeers(1, pa, pb, a, b);
    OwnAndPeers(2, pa, pb, a, b);
    OwnAndPeers(3, pa, pb, a, b);
    var f1 := SignSent(1, pa, pb, a) + SignSent(1, pb, pa, b);
    var f2 := SignSent(2, pa, pb, a) + SignSent(2, pb, pa, b);
    var f3 := SignSent(3, pa, pb, a) + SignSent(3, pb, pa, b);
    var a1 := Opened(SignAfter(1, sa, pb, a), SignSent(1, pa, pb, a));
    var a2 := Opened(SignAfter(2, sa, pb, a), SignSent(2, pa, pb, a));
    var a3 := Opened(SignAfter(3, sa, pb, a), SignSent(3, pa, pb, a));
    assert OnlineFrom(2, a3, pa, Some(SignAfter(3, sb, pa, b)), f3, ua, us, live) == SignedIn(Signature(a.x, a.s, a.recoveryId), 3);
    assert OnlineFrom(1, a2, pa, Some(SignAfter(2, sb, pa, b)), f2, ua, us, live)
        == OnlineFrom(2, a3, pa, Some(SignAfter(3, sb, pa, b)), f3, ua, us, live);
    assert OnlineFrom(0, a1, pa, Some(SignAfter(1, sb, pa, b)), f1, ua, us, live)
        == OnlineFrom(1, a2, pa, Some(SignAfter(2, sb, pa, b)), f2, ua, us, live);
  }

  /** In one process: the third pass, with a signature exactly when both parties computed the same one. */
  lemma HonestLocal(sa: KeyShare, sb: KeyShare, a: Script, b: Script, ua: seq<Upstream>, ub: seq<Upstream>)
    requires TwoParties(sa, sb) && |ua| == |ub| == LOCAL_ROUNDS && HonestUps(ua, a, sb.party) && HonestUps(ub, b, sa.party)
    ensures var pa, pb := sa.party, sb.party;
      LocalFrom(0, SignAfter(1, sa, pb, a), SignAfter(1, sb, pa, b), SignSent(1, pa, pb, a) + SignSent(1, pb, pa, b), ua, ub)
        == if a.x == b.x && a.s == b.s && a.recoveryId == b.recoveryId then SignedIn(Signature(a.x, a.s, a.recoveryId), 3) else Failed(Disagree)
  {
    hide SignAdvanced, InboxFor, SignSent, SignStarted;
    var pa, pb := sa.party, sb.party;
    HonestSignStep(sa, pb, a, b);
    HonestSignStep(sb, pa, b, a);
    OwnAndPeers(1, pa, pb, a, b);
    OwnAndPeers(2, pa, pb, a, b);
    OwnAndPeers(3, pa, pb, a, b);
    var f2, f3 := SignSent(2, pa, pb, a) + SignSent(2, pb, pa, b), SignSent(3, pa, pb, a) + SignSent(3, pb, pa, b);
    assert LocalFrom(1, SignAfter(2, sa, pb, a), SignAfter(2, sb, pa, b), f2, ua, ub)
        == LocalFrom(2, SignAfter(3, sa, pb, a), SignAfter(3, sb, pa, b), f3, ua, ub);
  }
}
