/** The extension's drivers: parties 0 and 1 locally, party 2 on the server
    (packages/extension/src/protocolRunner.ts). */
module Runner {
  import opened Prelude
  import opened Modular
  import opened Shamir
  import opened Upstream
  import opened Keys
  import opened Wire
  import opened Dkg
  import opened Drive
  import opened Honest
  import opened Backend
  import opened Ceremony

  const MAX_ROUNDS := 6

  /** A party behind the wasm boundary. It drops its state when it finishes. */
  datatype DkgSession = DkgSession(inner: Option<PartyState>, outgoing: seq<Envelope>, share: Option<KeyShare>, key: Option<PublicKey>)
  {
    predicate Finished() { share.Some? }
  }

  datatype RunError =
    | Core(error: Error)
    | AlreadyFinished
    | ServerFinishedFirst
    | ServerDisagrees
    | AddressWouldChange
    | RoundLimit

  datatype RunResult = Finished(extensionShare: KeyShare, recoveryShare: KeyShare, key: PublicKey) | Failed(why: RunError)

  function Open(s: PartyState, outgoing: seq<Envelope>): DkgSession {
    DkgSession(Some(s), outgoing, None, None)
  }

  datatype SessionStep = Moved(session: DkgSession) | Refused(why: RunError)

  /** `DkgSession.advance`: one round of the party inside. */
  function SessionAdvanced(q: int, s: DkgSession, inbox: seq<Envelope>): SessionStep
    requires FieldOrder(q)
  {
    if s.inner.None? then Refused(AlreadyFinished)
    else
      var (state, answer) := Advanced(q, s.inner.value, inbox);
      match answer
      case Failure(e) => Refused(Core(e))
      case Success(Send(out)) => Moved(s.(inner := Some(state), outgoing := out))
      case Success(Done(share, key)) => Moved(DkgSession(None, [], Some(share), Some(key)))
  }

  /** One local session in one iteration: a finished one is skipped. */
  function LocalTurn(q: int, s: DkgSession, me: PartyId, flight: seq<Envelope>): (SessionStep, seq<Envelope>)
    requires FieldOrder(q)
  {
    if s.Finished() then (Moved(s), [])
    else
      var step := SessionAdvanced(q, s, InboxFor(me, flight));
      (step, if step.Moved? then step.session.outgoing else [])
  }

  /** How the loop ends when the server reports its key. */
  function Close(extension: DkgSession, recovery: DkgSession, serverKey: PublicKey, wanted: Option<PublicKey>): RunResult {
    if extension.share.None? || recovery.share.None? || extension.key.None? then Failed(ServerFinishedFirst)
    else if wanted.Some? && extension.key.value != wanted.value then Failed(AddressWouldChange)
    else if extension.key.value != serverKey then Failed(if wanted.Some? then AddressWouldChange else ServerDisagrees)
    else Finished(extension.share.value, recovery.share.value, serverKey)
  }

  datatype Remote = Remote(result: RunResult, iterations: int)

  /** The loop from iteration `n` on. `wanted` is the wallet's key in a reshare, nothing in key
      generation. */
  function RunFrom(q: int, n: int, extension: DkgSession, recovery: DkgSession, server: PartyState, flight: seq<Envelope>,
                   wanted: Option<PublicKey>): Remote
    requires FieldOrder(q) && 0 <= n <= MAX_ROUNDS
    decreases MAX_ROUNDS - n
  {
    if n == MAX_ROUNDS then Remote(Failed(RoundLimit), n)
    else
      var (e, eOut) := LocalTurn(q, extension, 0, flight);
      if e.Refused? then Remote(Failed(e.why), n + 1)
      else
        var (r, rOut) := LocalTurn(q, recovery, 1, flight);
        if r.Refused? then Remote(Failed(r.why), n + 1)
        else
          var (s, answer) := Advanced(q, server, InboxFor(2, flight));
          match answer
          case Failure(error) => Remote(Failed(Core(error)), n + 1)
          case Success(Done(_, key)) => Remote(Close(e.session, r.session, key, wanted), n + 1)
          case Success(Send(out)) => RunFrom(q, n + 1, e.session, r.session, s, eOut + rOut + out, wanted)
  }

  /** The loop of `runDkg` and `runReshare`. In a reshare (`wanted` given) every failure also tells
      the server to let go. */
  method RunRounds(q: int, extension0: DkgSession, recovery0: DkgSession, server0: PartyState, flight0: seq<Envelope>,
                   wanted: Option<PublicKey>) returns (r: RunResult, abortSent: bool)
    requires FieldOrder(q)
    ensures r == RunFrom(q, 0, extension0, recovery0, server0, flight0, wanted).result
    ensures abortSent <==> wanted.Some? && r.Failed?
  {
    hide IsPrime, Advanced, InboxFor;
    var extension, recovery, server, inFlight := extension0, recovery0, server0, flight0;
    for round := 0 to MAX_ROUNDS
      invariant RunFrom(q, round, extension, recovery, server, inFlight, wanted).result
             == RunFrom(q, 0, extension0, recovery0, server0, flight0, wanted).result
    {
      var next: seq<Envelope> := [];
      var (e, eOut) := LocalTurn(q, extension, 0, inFlight);
      if e.Refused? {
        return Failed(e.why), wanted.Some?;
      }
      extension, next := e.session, next + eOut;
      var (b, bOut) := LocalTurn(q, recovery, 1, inFlight);
      if b.Refused? {
        return Failed(b.why), wanted.Some?;
      }
      recovery, next := b.session, next + bOut;
      var (s, answer) := Advanced(q, server, InboxFor(2, inFlight));
      match answer
      case Failure(error) =>
        return Failed(Core(error)), wanted.Some?;
      case Success(Done(_, key)) =>
        r := Close(extension, recovery, key, wanted);
        abortSent := wanted.Some? && r.Failed?;
        return;
      case Success(Send(out)) =>
        assert [] + eOut + bOut + out == eOut + bOut + out;
        next := next + out;
        server, inFlight := s, next;
    }
    r, abortSent := Failed(RoundLimit), wanted.Some?;
  }

  // ---- agreement between the extension and the server --------------------------------------------

  /** A session's share, once there, is under the key it reports. */
  ghost predicate SessionAgrees(q: int, s: DkgSession)
    requires 0 < q
  {
    (s.share.Some? <==> s.key.Some?) && (s.share.Some? ==> UnderKey(q, [s.share.value], s.key.value))
  }

  lemma TurnAgrees(q: int, s: DkgSession, me: PartyId, flight: seq<Envelope>)
    requires FieldOrder(q) && SessionAgrees(q, s)
    ensures var step := LocalTurn(q, s, me, flight).0;
      step.Moved? ==> SessionAgrees(q, step.session)
  {
    hide IsPrime, Advanced, InboxFor;
    if s.share.None? && s.inner.Some? {
      AdvanceMovesOneRound(q, s.inner.value, InboxFor(me, flight));
      var answer := Advanced(q, s.inner.value, InboxFor(me, flight)).1;
      if s.inner.value.round == 3 {
        LastRoundSucceedsOnlyIf(q, s.inner.value, InboxFor(me, flight));
        if answer.Success? {
          assert UnderKey(q, [answer.value.share], answer.value.publicKey);
          assert SessionAgrees(q, DkgSession(None, [], Some(answer.value.share), Some(answer.value.publicKey)));
        }
      }
    }
  }

  /** For any parties, messages and server: a run that finishes does so under a key that the extension's own
      share lies under, that the server reported in the end, and that is the wanted one if there is one. */
  lemma {:induction false} FinishedMeansAgreement(q: int, n: int, extension: DkgSession, recovery: DkgSession, server: PartyState,
                                                  flight: seq<Envelope>, wanted: Option<PublicKey>)
    requires FieldOrder(q) && 0 <= n <= MAX_ROUNDS && SessionAgrees(q, extension) && SessionAgrees(q, recovery)
    ensures var r := RunFrom(q, n, extension, recovery, server, flight, wanted).result;
      r.Finished? ==> (
        && UnderKey(q, [r.extensionShare], r.key)
        && r.recoveryShare.secret.Some?
        && (wanted.Some? ==> r.key == wanted.value)
        && exists state: PartyState, inbox: seq<Envelope> ::
             Advanced(q, state, inbox).1.Success? && Advanced(q, state, inbox).1.value.Done? && Advanced(q, state, inbox).1.value.publicKey == r.key)
    decreases MAX_ROUNDS - n
  {
    hide IsPrime, Advanced, InboxFor, LocalTurn, SessionAgrees;
    if n < MAX_ROUNDS {
      TurnAgrees(q, extension, 0, flight);
      TurnAgrees(q, recovery, 1, flight);
      var (e, eOut) := LocalTurn(q, extension, 0, flight);
      var (r, rOut) := LocalTurn(q, recovery, 1, flight);
      if e.Moved? && r.Moved? {
        var (s, answer) := Advanced(q, server, InboxFor(2, flight));
        if answer.Success? {
          if answer.value.Send? {
            FinishedMeansAgreement(q, n + 1, e.session, r.session, s, eOut + rOut + answer.value.envelopes, wanted);
          } else {
            ClosedInAgreement(q, e.session, r.session, answer.value.publicKey, wanted);
          }
        }
      }
    }
  }

  /** How the loop ends when the server reports its key: nobody may be behind it, and the extension's key has
      to be both the wanted one and the server's; a reshare reports either difference as a changed address. */
  lemma ClosedInAgreement(q: int, extension: DkgSession, recovery: DkgSession, serverKey: PublicKey, wanted: Option<PublicKey>)
    requires FieldOrder(q) && SessionAgrees(q, extension) && SessionAgrees(q, recovery)
    ensures var r := Close(extension, recovery, serverKey, wanted);
      && (r.Finished? <==> extension.share.Some? && recovery.share.Some? && extension.key == Some(serverKey)
                           && (wanted.Some? ==> wanted.value == serverKey))
      && (r.Finished? ==> UnderKey(q, [r.extensionShare], serverKey) && r.recoveryShare.secret.Some? && r.key == serverKey
                          && (wanted.Some? ==> r.key == wanted.value))
      && (r.Failed? ==> r.why == (if extension.share.None? || recovery.share.None? then ServerFinishedFirst
                                  else if wanted.Some? then AddressWouldChange else ServerDisagrees))
  {
    hide IsPrime;
    if recovery.share.Some? {
      assert [recovery.share.value][0].secret.Some?;
    }
  }

  // ---- the message-passing run refines the one-process harness -----------------------------------

  ghost predicate InStep(s0: PartyState, s1: PartyState, s2: PartyState, round: int) {
    && s0.me == 0 && s1.me == 1 && s2.me == 2
    && s0.round == s1.round == s2.round == round
  }

  /** One iteration in rounds 1 and 2 is one pass of the harness, error for error and envelope for
      envelope. */
  lemma EarlyIterationIsAPass(q: int, s0: PartyState, s1: PartyState, s2: PartyState, flight: seq<Envelope>)
    requires FieldOrder(q) && InStep(s0, s1, s2, s0.round) && 1 <= s0.round <= 2
    ensures var (t0, a0) := Advanced(q, s0, InboxFor(0, flight));
      var (t1, a1) := Advanced(q, s1, InboxFor(1, flight));
      var (t2, a2) := Advanced(q, s2, InboxFor(2, flight));
      Pass(q, [s0, s1, s2], flight, [], None) ==
        if a0.Failure? then Failure(a0.error) else if a1.Failure? then Failure(a1.error) else if a2.Failure? then Failure(a2.error)
        else Success(Tally([t0, t1, t2], a0.value.envelopes + a1.value.envelopes + a2.value.envelopes, 0, [], None))
    ensures var (t0, a0) := Advanced(q, s0, InboxFor(0, flight));
      var (t1, a1) := Advanced(q, s1, InboxFor(1, flight));
      var (t2, a2) := Advanced(q, s2, InboxFor(2, flight));
      && (a0.Success? ==> a0.value.Send?) && (a1.Success? ==> a1.value.Send?) && (a2.Success? ==> a2.value.Send?)
      && (a0.Success? && a1.Success? && a2.Success? ==> InStep(t0, t1, t2, s0.round + 1))
  {
    hide IsPrime, Advanced, InboxFor, PassFrom;
    var states := [s0, s1, s2];
    AdvanceMovesOneRound(q, s0, InboxFor(0, flight));
    AdvanceMovesOneRound(q, s1, InboxFor(1, flight));
    AdvanceMovesOneRound(q, s2, InboxFor(2, flight));
    var (t0, a0) := Advanced(q, s0, InboxFor(0, flight));
    var (t1, a1) := Advanced(q, s1, InboxFor(1, flight));
    var (t2, a2) := Advanced(q, s2, InboxFor(2, flight));
    PassUnfolds(q, states, flight, 0, Tally([], [], 0, [], None));
    if a0.Success? {
      var u1 := Tally([t0], a0.value.envelopes, 0, [], None);
      assert [] + [t0] == [t0] && [] + a0.value.envelopes == a0.value.envelopes;
      PassUnfolds(q, states, flight, 1, u1);
      if a1.Success? {
        var u2 := Tally([t0, t1], a0.value.envelopes + a1.value.envelopes, 0, [], None);
        assert [t0] + [t1] == [t0, t1];
        PassUnfolds(q, states, flight, 2, u2);
        if a2.Success? {
          assert [t0, t1] + [t2] == [t0, t1, t2];
          PassEnd(q, states, flight, Tally([t0, t1, t2], a0.value.envelopes + a1.value.envelopes + a2.value.envelopes, 0, [], None));
        }
      }
    }
  }

  /** The last iteration and the last pass: the same three answers. The harness compares all three
      keys; the extension compares its own with the server's. */
  lemma LastIterationIsAPass(q: int, s0: PartyState, s1: PartyState, s2: PartyState, flight: seq<Envelope>)
    requires FieldOrder(q) && InStep(s0, s1, s2, 3)
    ensures var a0 := Advanced(q, s0, InboxFor(0, flight)).1;
      var a1 := Advanced(q, s1, InboxFor(1, flight)).1;
      var a2 := Advanced(q, s2, InboxFor(2, flight)).1;
      && (a0.Success? ==> a0.value.Done?) && (a1.Success? ==> a1.value.Done?) && (a2.Success? ==> a2.value.Done?)
      && Run(q, [s0, s1, s2], flight, [], None).passes == 1
      && (Run(q, [s0, s1, s2], flight, [], None).result.Success? <==>
            a0.Success? && a1.Success? && a2.Success? && a0.value.publicKey == a1.value.publicKey == a2.value.publicKey)
      && (Run(q, [s0, s1, s2], flight, [], None).result.Success? ==>
            Run(q, [s0, s1, s2], flight, [], None).result.value
              == ([a0.value.share, a1.value.share, a2.value.share], a0.value.publicKey))
  {
    hide IsPrime, Advanced, InboxFor, PassFrom;
    var states := [s0, s1, s2];
    AdvanceMovesOneRound(q, s0, InboxFor(0, flight));
    AdvanceMovesOneRound(q, s1, InboxFor(1, flight));
    AdvanceMovesOneRound(q, s2, InboxFor(2, flight));
    var (t0, a0) := Advanced(q, s0, InboxFor(0, flight));
    var (t1, a1) := Advanced(q, s1, InboxFor(1, flight));
    var (t2, a2) := Advanced(q, s2, InboxFor(2, flight));
    PassUnfolds(q, states, flight, 0, Tally([], [], 0, [], None));
    if a0.Success? {
      var u1 := Tally([t0], [], 1, [a0.value.share], Some(a0.value.publicKey));
      assert [] + [t0] == [t0] && [] + [a0.value.share] == [a0.value.share];
      PassUnfolds(q, states, flight, 1, u1);
      if a1.Success? && a1.value.publicKey == a0.value.publicKey {
        var u2 := Tally([t0, t1], [], 2, [a0.value.share, a1.value.share], Some(a0.value.publicKey));
        assert [t0] + [t1] == [t0, t1] && [a0.value.share] + [a1.value.share] == u2.shares;
        PassUnfolds(q, states, flight, 2, u2);
        if a2.Success? && a2.value.publicKey == a0.value.publicKey {
          var u3 := Tally([t0, t1, t2], [], 3, [a0.value.share, a1.value.share, a2.value.share], Some(a0.value.publicKey));
          assert [t0, t1] + [t2] == u3.states && u2.shares + [a2.value.share] == u3.shares;
          PassEnd(q, states, flight, u3);
        }
      }
    }
  }

  /** What the harness's answer means for the extension's driver. */
  ghost predicate Refines(remote: Remote, n: int, local: Driven, wanted: Option<PublicKey>) {
    && remote.iterations == n + local.passes
    && (local.result.Failure? && local.result.error != Backend(KeysDisagree) ==> remote.result == Failed(Core(local.result.error)))
    && (local.result.Success? ==> (
          && |local.result.value.0| == 3
          && remote.result == (if wanted.Some? && wanted.value != local.result.value.1 then Failed(AddressWouldChange)
                               else Finished(local.result.value.0[0], local.result.value.0[1], local.result.value.1))))
    && (remote.result.Finished? ==> (
          && (local.result.Success? || local.result == Failure(Backend(KeysDisagree)))
          && (wanted.Some? ==> remote.result.key == wanted.value)))
    && remote.result != Failed(RoundLimit)
    && remote.result != Failed(ServerFinishedFirst)
    && remote.result != Failed(AlreadyFinished)
  }

  /** For parties in the same round and any contents in flight, the message-passing run ends as the
      one-process run does: in the same round, with the same shares and key or with the same error. The
      two part only when the parties' keys disagree, which the harness notices between any two of them
      and the driver between the extension and the server; and the driver never runs into the round
      limit, a server that finishes first, or a session that is already over. */
  lemma {:induction false} MessagePassingRefinesHarness(q: int, n: int, s0: PartyState, o0: seq<Envelope>, s1: PartyState, o1: seq<Envelope>,
                                                        s2: PartyState, flight: seq<Envelope>, wanted: Option<PublicKey>)
    requires FieldOrder(q) && InStep(s0, s1, s2, s0.round) && 1 <= s0.round <= 3 && 0 <= n && n + (4 - s0.round) <= MAX_ROUNDS
    ensures Refines(RunFrom(q, n, Open(s0, o0), Open(s1, o1), s2, flight, wanted), n, Run(q, [s0, s1, s2], flight, [], None), wanted)
    decreases 4 - s0.round
  {
    hide IsPrime, Advanced, InboxFor, Pass;
    var (t0, a0) := Advanced(q, s0, InboxFor(0, flight));
    var (t1, a1) := Advanced(q, s1, InboxFor(1, flight));
    var (t2, a2) := Advanced(q, s2, InboxFor(2, flight));
    if s0.round == 3 {
      LastIterationIsAPass(q, s0, s1, s2, flight);
      LastPassErrors(q, s0, s1, s2, flight);
    } else {
      EarlyIterationIsAPass(q, s0, s1, s2, flight);
      if a0.Success? && a1.Success? && a2.Success? {
        MessagePassingRefinesHarness(q, n + 1, t0, a0.value.envelopes, t1, a1.value.envelopes, t2,
          a0.value.envelopes + a1.value.envelopes + a2.value.envelopes, wanted);
      }
    }
  }

  /** A last pass that fails does so with the first party's error, or with keys that disagree. */
  lemma LastPassErrors(q: int, s0: PartyState, s1: PartyState, s2: PartyState, flight: seq<Envelope>)
    requires FieldOrder(q) && InStep(s0, s1, s2, 3)
    ensures var a0 := Advanced(q, s0, InboxFor(0, flight)).1;
      var a1 := Advanced(q, s1, InboxFor(1, flight)).1;
      var a2 := Advanced(q, s2, InboxFor(2, flight)).1;
      var r := Run(q, [s0, s1, s2], flight, [], None).result;
      && (a0.Failure? ==> r == Failure(a0.error))
      && (a0.Success? && a1.Failure? ==> r == Failure(a1.error))
      && (a0.Success? && a1.Success? && a0.value.Done? && a1.value.Done? ==>
            if a0.value.publicKey != a1.value.publicKey then r == Failure(Backend(KeysDisagree))
            else if a2.Failure? then r == Failure(a2.error)
            else a2.value.Done? && a2.value.publicKey != a0.value.publicKey ==> r == Failure(Backend(KeysDisagree)))
  {
    hide IsPrime, Advanced, InboxFor, PassFrom;
    var states := [s0, s1, s2];
    var (t0, a0) := Advanced(q, s0, InboxFor(0, flight));
    var (t1, a1) := Advanced(q, s1, InboxFor(1, flight));
    PassUnfolds(q, states, flight, 0, Tally([], [], 0, [], None));
    if a0.Success? && a0.value.Done? {
      var key := a0.value.publicKey;
      assert [] + [t0] == [t0] && [] + [a0.value.share] == [a0.value.share];
      PassUnfolds(q, states, flight, 1, Tally([t0], [], 1, [a0.value.share], Some(key)));
      if a1.Success? && a1.value.Done? && a1.value.publicKey == key {
        assert [t0] + [t1] == [t0, t1] && [a0.value.share] + [a1.value.share] == [a0.value.share, a1.value.share];
        PassUnfolds(q, states, flight, 2, Tally([t0, t1], [], 2, [a0.value.share, a1.value.share], Some(key)));
      }
    }
    AdvanceMovesOneRound(q, s0, InboxFor(0, flight));
  }

  lemma StartsInStep(s: Session)
    requires ValidSession(s)
    ensures InStep(AfterStart(s, 0), AfterStart(s, 1), AfterStart(s, 2), 1)
    ensures AfterStart(s, 0).round == 1
    ensures Starts(s) == [AfterStart(s, 0), AfterStart(s, 1), AfterStart(s, 2)]
  {
  }

  /** The extension's run of a session with an honest server, from the first flight in any order. */
  function HonestRemote(s: Session, flight: seq<Envelope>): Remote
    requires ValidSession(s)
  {
    RunFrom(s.q, 0, Open(AfterStart(s, 0), Sent1(s, 0)), Open(AfterStart(s, 1), Sent1(s, 1)), AfterStart(s, 2), flight, s.expected)
  }

  /** Against an honest server, key generation and reshare both end as the rows decide: a good run
      in the third of the six iterations with the extension's and the recovery share, any other in the
      third iteration with the very refusal the parties give, never with a driver error. */
  lemma HonestRunsTakeThreeIterations(s: Session, flight: seq<Envelope>)
    requires ValidSession(s) && forall e :: e in flight <==> e in Flight1(s)
    ensures var remote := HonestRemote(s, flight);
      && (Outcome(s).Success? ==>
            remote == Remote(Finished(Outcome(s).value.0[0], Outcome(s).value.0[1], Outcome(s).value.1), 3))
      && (Outcome(s).Failure? ==> remote == Remote(Failed(Core(Outcome(s).error)), 3))
  {
    hide IsPrime, Run, RunFrom, Flight1, Outcome, AfterStart, Sent1, Starts, InStep, Advanced;
    HonestRun(s, flight);
    StartsInStep(s);
    OutcomeMeetsExpected(s);
    MessagePassingRefinesHarness(s.q, 0, AfterStart(s, 0), Sent1(s, 0), AfterStart(s, 1), Sent1(s, 1), AfterStart(s, 2), flight, s.expected);
  }

  lemma OutcomeMeetsExpected(s: Session)
    requires ValidSession(s)
    ensures Outcome(s).Success? && s.expected.Some? ==> s.expected.value == Outcome(s).value.1
    ensures Outcome(s) != Failure(Backend(KeysDisagree))
  {
    hide IsPrime, JointSecret;
  }

  /** A reshare between the extension and the server: survivors B and C of one line, A joining, for
      every wallet key and all fresh slopes. It finishes in the third iteration under the wallet's
      key, and the two shares the extension comes out with export the wallet's secret. */
  lemma ReshareWithServerKeepsTheKey(s: Session, secret: int, slope: int, rb: int, rc: int, flight: seq<Envelope>)
    requires ValidSession(s) && secret % s.q != 0 && s.expected == Some(PointOf(secret % s.q))
    requires forall p: Member :: RoleRow(s.q, p, RoleOf(p, 1, HeldShare(s.q, secret, slope, 2), rb, 2, HeldShare(s.q, secret, slope, 3), rc))
                              == Success(s.rows[p])
    requires forall e :: e in flight <==> e in Flight1(s)
    ensures var remote := HonestRemote(s, flight);
      && remote.iterations == 3 && remote.result.Finished? && remote.result.key == PointOf(secret % s.q)
      && Export(s.q, [remote.result.extensionShare, remote.result.recoveryShare], PointOf(secret % s.q)) == Success(secret % s.q)
  {
    hide IsPrime, RunFrom, Outcome, HonestRemote, Flight1, Export, ReshareOutcome, RoleRow, Interpolate;
    var b, c := HeldShare(s.q, secret, slope, 2), HeldShare(s.q, secret, slope, 3);
    ReshareSessionOutcome(s, 1, b, rb, 2, c, rc, PointOf(secret % s.q));
    ReshareKeepsTheKey(s.q, secret, slope, 1, rb, 2, rc, 1, 2);
    HonestRunsTakeThreeIterations(s, flight);
  }
}
