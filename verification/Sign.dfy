/** One party of two-party signing, its stored form on the server, and what is spent along the way
    (crates/mpc-core/src/protocol.rs:584-827, crates/mpc-server/src/api.rs:439-502). */
module Sign {
  import opened Prelude
  import opened Keys
  import opened Wire

  /** Hex text out of the upstream phases, which is only parsed at the very end. */
  datatype HexText = Digits(value: int) | Malformed

  datatype Post = Post(to: PartyId, content: int)

  /** What the upstream crate does in one call, whichever of its phases that call reaches. */
  datatype Upstream = Upstream(
    accepts: bool,
    kept: int,
    posts: seq<Post>,
    xCoord: HexText,
    broadcast: int,
    s: HexText,
    recoveryId: int,
    encodes: bool)

  datatype Signature = Signature(r: int, s: int, recoveryId: int)

  datatype SignProgress = SignSend(envelopes: seq<Envelope>) | Signed(signature: Signature)

  datatype SignState = SignState(
    me: PartyId,
    counterparty: PartyId,
    round: int,
    share: KeyShare,
    keep1to2: Option<int>,
    keep2to3: Option<int>,
    xCoord: Option<HexText>,
    broadcasts: seq<int>)

  /** One run of an upstream phase: what it spent, what it was given, and what it handed on (`None`
      when it refused). */
  datatype Use =
    | Use2(kept: int, received: seq<int>, next: Option<int>)
    | Use3(kept: int, received: seq<int>, nextX: Option<HexText>)
    | Use4(x: HexText, broadcasts: seq<int>, s: Option<HexText>)
  {
    predicate Accepted() {
      match this case Use2(_, _, n) => n.Some? case Use3(_, _, n) => n.Some? case Use4(_, _, n) => n.Some?
    }
  }

  datatype SignStep = SignStep(state: SignState, answer: Result<SignProgress>, use: Option<Use>)

  // ---- the specification of one call ---------------------------------------------------------------

  function SignEnvelopes(me: PartyId, round: int, posts: seq<Post>): seq<Envelope> {
    seq(|posts|, i requires 0 <= i < |posts| => Envelope(round, me, Some(posts[i].to), SignMessage(round, posts[i].content)))
  }

  function SignStarted(share: KeyShare, counterparty: PartyId, up: Upstream): Result<(SignState, seq<Envelope>)> {
    if share.party == counterparty then Failure(Backend(OwnCounterparty))
    else if share.secret.None? then Failure(Backend(ShareDecode))
    else if counterparty == 255 then Failure(Backend(BadPartyIndex))
    else if !up.accepts then Failure(Backend(PhaseFailed))
    else if !up.encodes && up.posts != [] then Failure(Backend(EnvelopeEncode))
    else Success((SignState(share.party, counterparty, 1, share, Some(up.kept), None, None, []),
                  SignEnvelopes(share.party, 1, up.posts)))
  }

  function SignHeaderFault(s: SignState, inbox: seq<Envelope>): Option<Error> {
    if inbox == [] then None
    else
      var e := inbox[0];
      if e.round != s.round then Some(UnexpectedRound(s.round, e.round))
      else if e.from != s.counterparty then Some(Backend(WrongSender))
      else if e.to.Some? && e.to.value != s.me then Some(Backend(WrongAddressee))
      else SignHeaderFault(s, inbox[1..])
  }

  /** The bodies for one stage in order, up to the first that does not decode. */
  function Bodies(inbox: seq<Envelope>, stage: int): (seq<int>, bool) {
    if inbox == [] then ([], true)
    else
      var (before, ok) := Bodies(inbox[..|inbox| - 1], stage);
      var p := inbox[|inbox| - 1].payload;
      if ok && p.SignMessage? && p.stage == stage then (before + [p.content], true) else (before, false)
  }

  function SignRound2(s: SignState, inbox: seq<Envelope>, up: Upstream): SignStep {
    var (received, ok) := Bodies(inbox, 1);
    if !ok then SignStep(s, Failure(Backend(EnvelopeDecode)), None)
    else if s.keep1to2.None? then SignStep(s, Failure(Backend(OutOfOrder)), None)
    else
      var spent := s.keep1to2.value;
      if !up.accepts then SignStep(s.(keep1to2 := None), Failure(Backend(PhaseFailed)), Some(Use2(spent, received, None)))
      else
        var s2 := s.(keep1to2 := None, keep2to3 := Some(up.kept));
        var use := Use2(spent, received, Some(up.kept));
        if !up.encodes && up.posts != [] then SignStep(s2, Failure(Backend(EnvelopeEncode)), Some(use))
        else SignStep(s2.(round := 2), Success(SignSend(SignEnvelopes(s.me, 2, up.posts))), Some(use))
  }

  function SignRound3(s: SignState, inbox: seq<Envelope>, up: Upstream): SignStep {
    var (received, ok) := Bodies(inbox, 2);
    if !ok then SignStep(s, Failure(Backend(EnvelopeDecode)), None)
    else if s.keep2to3.None? then SignStep(s, Failure(Backend(OutOfOrder)), None)
    else
      var spent := s.keep2to3.value;
      if !up.accepts then SignStep(s.(keep2to3 := None), Failure(Backend(PhaseFailed)), Some(Use3(spent, received, None)))
      else
        // The round moves before the broadcast is encoded.
        var s3 := s.(keep2to3 := None, xCoord := Some(up.xCoord), broadcasts := s.broadcasts + [up.broadcast], round := 3);
        SignStep(s3,
          if up.encodes then Success(SignSend([Envelope(3, s.me, None, SignMessage(3, up.broadcast))])) else Failure(Backend(EnvelopeEncode)),
          Some(Use3(spent, received, Some(up.xCoord))))
  }

  function SignRound4(s: SignState, inbox: seq<Envelope>, up: Upstream): SignStep {
    var (received, ok) := Bodies(inbox, 3);
    // What decodes before a body that does not stays in the list.
    var s1 := s.(broadcasts := s.broadcasts + received);
    if !ok then SignStep(s1, Failure(Backend(EnvelopeDecode)), None)
    else if s.xCoord.None? then SignStep(s1, Failure(Backend(OutOfOrder)), None)
    else
      var x := s.xCoord.value;
      var s4 := s1.(xCoord := None);
      if !up.accepts then SignStep(s4, Failure(Backend(PhaseFailed)), Some(Use4(x, s1.broadcasts, None)))
      else
        var use := Use4(x, s1.broadcasts, Some(up.s));
        if x.Malformed? || up.s.Malformed? then SignStep(s4, Failure(Backend(MalformedSignature)), Some(use))
        else SignStep(s4.(round := 4), Success(Signed(Signature(x.value, up.s.value, up.recoveryId))), Some(use))
  }

  /** One call of `advance`. */
  function SignAdvanced(s: SignState, inbox: seq<Envelope>, up: Upstream): SignStep {
    match SignHeaderFault(s, inbox)
    case Some(error) => SignStep(s, Failure(error), None)
    case None =>
      if s.share.secret.None? then SignStep(s, Failure(Backend(ShareDecode)), None)
      else if s.round == 1 then SignRound2(s, inbox, up)
      else if s.round == 2 then SignRound3(s, inbox, up)
      else if s.round == 3 then SignRound4(s, inbox, up)
      else SignStep(s, Failure(Backend(NoSuchRound)), None)
  }

  // ---- the party itself ------------------------------------------------------------------------------

  /** The mutable session object. Each call changes its fields exactly as `SignAdvanced` says; the
      ghost result names what the call spent. */
  class SignParty {
    const me: PartyId
    const counterparty: PartyId
    const share: KeyShare
    var round: int
    var keep1to2: Option<int>
    var keep2to3: Option<int>
    var xCoord: Option<HexText>
    var broadcasts: seq<int>

    ghost function State(): SignState
      reads this
    {
      SignState(me, counterparty, round, share, keep1to2, keep2to3, xCoord, broadcasts)
    }

    constructor (share: KeyShare, counterparty: PartyId, kept: int)
      ensures State() == SignState(share.party, counterparty, 1, share, Some(kept), None, None, [])
    {
      this.me, this.counterparty, this.share, round := share.party, counterparty, share, 1;
      keep1to2, keep2to3, xCoord, broadcasts := Some(kept), None, None, [];
    }

    /** Opens a session and produces the round 1 messages. */
    static method Start(share: KeyShare, counterparty: PartyId, up: Upstream)
      returns (party: Option<SignParty>, outgoing: seq<Envelope>, error: Option<Error>)
      ensures match SignStarted(share, counterparty, up)
        case Success((state, out)) => party.Some? && fresh(party.value) && party.value.State() == state && outgoing == out && error.None?
        case Failure(e) => party.None? && outgoing == [] && error == Some(e)
    {
      party, outgoing, error := None, [], None;
      if share.party == counterparty {
        error := Some(Backend(OwnCounterparty));
      } else if share.secret.None? {
        error := Some(Backend(ShareDecode));
      } else if counterparty == 255 {
        error := Some(Backend(BadPartyIndex));
      } else if !up.accepts {
        error := Some(Backend(PhaseFailed));
      } else if !up.encodes && up.posts != [] {
        error := Some(Backend(EnvelopeEncode));
      } else {
        var p := new SignParty(share, counterparty, up.kept);
        party, outgoing := Some(p), SignEnvelopes(share.party, 1, up.posts);
      }
    }

    method Advance(inbox: seq<Envelope>, up: Upstream) returns (r: Result<SignProgress>, ghost use: Option<Use>)
      modifies this
      ensures SignStep(State(), r, use) == SignAdvanced(old(State()), inbox, up)
    {
      for k := 0 to |inbox|
        invariant State() == old(State())
        invariant SignHeaderFault(State(), inbox) == SignHeaderFault(State(), inbox[k..])
      {
        var e := inbox[k];
        if e.round != round {
          return Failure(UnexpectedRound(round, e.round)), None;
        }
        if e.from != counterparty {
          return Failure(Backend(WrongSender)), None;
        }
        if e.to.Some? && e.to.value != me {
          return Failure(Backend(WrongAddressee)), None;
        }
      }
      if share.secret.None? {
        return Failure(Backend(ShareDecode)), None;
      }
      if round == 1 {
        r, use := AdvanceToRound2(inbox, up);
      } else if round == 2 {
        r, use := AdvanceToRound3(inbox, up);
      } else if round == 3 {
        r, use := AdvanceToRound4(inbox, up);
      } else {
        return Failure(Backend(NoSuchRound)), None;
      }
    }

    method AdvanceToRound2(inbox: seq<Envelope>, up: Upstream) returns (r: Result<SignProgress>, ghost use: Option<Use>)
      modifies this
      ensures SignStep(State(), r, use) == SignRound2(old(State()), inbox, up)
    {
      var received, ok := DecodeAll(inbox, 1);
      if !ok {
        return Failure(Backend(EnvelopeDecode)), None;
      }
      var taken := keep1to2;
      keep1to2 := None;
      if taken.None? {
        return Failure(Backend(OutOfOrder)), None;
      }
      if !up.accepts {
        return Failure(Backend(PhaseFailed)), Some(Use2(taken.value, received, None));
      }
      keep2to3 := Some(up.kept);
      use := Some(Use2(taken.value, received, Some(up.kept)));
      if !up.encodes && up.posts != [] {
        r := Failure(Backend(EnvelopeEncode));
        return;
      }
      round := 2;
      r := Success(SignSend(SignEnvelopes(me, 2, up.posts)));
    }

    method AdvanceToRound3(inbox: seq<Envelope>, up: Upstream) returns (r: Result<SignProgress>, ghost use: Option<Use>)
      modifies this
      ensures SignStep(State(), r, use) == SignRound3(old(State()), inbox, up)
    {
      var received, ok := DecodeAll(inbox, 2);
      if !ok {
        return Failure(Backend(EnvelopeDecode)), None;
      }
      var taken := keep2to3;
      keep2to3 := None;
      if taken.None? {
        return Failure(Backend(OutOfOrder)), None;
      }
      if !up.accepts {
        return Failure(Backend(PhaseFailed)), Some(Use3(taken.value, received, None));
      }
      xCoord := Some(up.xCoord);
      broadcasts := broadcasts + [up.broadcast];
      round := 3;
      use := Some(Use3(taken.value, received, Some(up.xCoord)));
      if !up.encodes {
        r := Failure(Backend(EnvelopeEncode));
        return;
      }
      r := Success(SignSend([Envelope(3, me, None, SignMessage(3, up.broadcast))]));
    }

    method AdvanceToRound4(inbox: seq<Envelope>, up: Upstream) returns (r: Result<SignProgress>, ghost use: Option<Use>)
      modifies this
      ensures SignStep(State(), r, use) == SignRound4(old(State()), inbox, up)
    {
      for k := 0 to |inbox|
        invariant State() == old(State()).(broadcasts := old(broadcasts) + Bodies(inbox[..k], 3).0)
        invariant Bodies(inbox[..k], 3).1
      {
        assert inbox[..k + 1][..k] == inbox[..k];
        BodiesStop(inbox, 3, k + 1);
        if !inbox[k].payload.SignMessage? || inbox[k].payload.stage != 3 {
          return Failure(Backend(EnvelopeDecode)), None;
        }
        broadcasts := broadcasts + [inbox[k].payload.content];
      }
      assert inbox[..|inbox|] == inbox;
      var taken := xCoord;
      xCoord := None;
      if taken.None? {
        return Failure(Backend(OutOfOrder)), None;
      }
      if !up.accepts {
        return Failure(Backend(PhaseFailed)), Some(Use4(taken.value, broadcasts, None));
      }
      use := Some(Use4(taken.value, broadcasts, Some(up.s)));
      if taken.value.Malformed? || up.s.Malformed? {
        r := Failure(Backend(MalformedSignature));
        return;
      }
      round := 4;
      r := Success(Signed(Signature(taken.value.value, up.s.value, up.recoveryId)));
    }
  }

  /** Decodes a whole inbox, or stops at the first body that is not of the stage. */
  method DecodeAll(inbox: seq<Envelope>, stage: int) returns (received: seq<int>, ok: bool)
    ensures (received, ok) == Bodies(inbox, stage)
  {
    received := [];
    for k := 0 to |inbox|
      invariant Bodies(inbox[..k], stage) == (received, true)
    {
      assert inbox[..k + 1][..k] == inbox[..k];
      BodiesStop(inbox, stage, k + 1);
      var p := inbox[k].payload;
      if !p.SignMessage? || p.stage != stage {
        return received, false;
      }
      received := received + [p.content];
    }
    assert inbox[..|inbox|] == inbox;
    ok := true;
  }

  lemma {:induction false} BodiesStop(inbox: seq<Envelope>, stage: int, k: int)
    requires 0 <= k <= |inbox|
    ensures !Bodies(inbox[..k], stage).1 ==> Bodies(inbox, stage) == Bodies(inbox[..k], stage)
    decreases |inbox|
  {
    if k == |inbox| {
      assert inbox[..k] == inbox;
    } else {
      var init := inbox[..|inbox| - 1];
      assert init[..k] == inbox[..k];
      BodiesStop(init, stage, k);
    }
  }

  // ---- which inboxes are let in ---------------------------------------------------------------------------

  /** Not of the party's round, not from its counterparty, or meant for somebody else. */
  predicate Foreign(s: SignState, e: Envelope) {
    e.round != s.round || e.from != s.counterparty || (e.to.Some? && e.to.value != s.me)
  }

  /** Which of the three, in this order. */
  function ForeignError(s: SignState, e: Envelope): Error {
    if e.round != s.round then UnexpectedRound(s.round, e.round)
    else if e.from != s.counterparty then Backend(WrongSender)
    else Backend(WrongAddressee)
  }

  predicate FirstForeign(s: SignState, inbox: seq<Envelope>, k: int) {
    0 <= k < |inbox| && Foreign(s, inbox[k]) && forall i :: 0 <= i < k ==> !Foreign(s, inbox[i])
  }

  lemma {:induction false} FirstFaultIsForeign(s: SignState, inbox: seq<Envelope>)
    ensures SignHeaderFault(s, inbox).None? <==> forall k :: 0 <= k < |inbox| ==> !Foreign(s, inbox[k])
    ensures forall k :: FirstForeign(s, inbox, k) ==> SignHeaderFault(s, inbox) == Some(ForeignError(s, inbox[k]))
  {
    if inbox != [] {
      FirstFaultIsForeign(s, inbox[1..]);
      assert forall k :: 1 <= k < |inbox| ==> inbox[k] == inbox[1..][k - 1];
      forall k | FirstForeign(s, inbox, k) ensures SignHeaderFault(s, inbox) == Some(ForeignError(s, inbox[k])) {
        if k > 0 {
          assert !Foreign(s, inbox[0]) && FirstForeign(s, inbox[1..], k - 1);
        }
      }
    }
  }

  /** For every inbox: one foreign envelope anywhere, and the call changes nothing, spends nothing and
      reports the first of them; with none, no such error is reported. A share that does not decode
      stops the call next, and then nothing is spent either. */
  lemma ForeignEnvelopesSpendNothing(s: SignState, inbox: seq<Envelope>, up: Upstream)
    ensures var step := SignAdvanced(s, inbox, up);
      && (forall k :: FirstForeign(s, inbox, k) ==> step == SignStep(s, Failure(ForeignError(s, inbox[k])), None))
      && ((exists k :: 0 <= k < |inbox| && Foreign(s, inbox[k])) ==> step.state == s && step.use.None? && step.answer.Failure?)
      && ((forall k :: 0 <= k < |inbox| ==> !Foreign(s, inbox[k])) ==> (
            && !(step.answer.Failure? && step.answer.error.UnexpectedRound?)
            && step.answer != Failure(Backend(WrongSender)) && step.answer != Failure(Backend(WrongAddressee))
            && (s.share.secret.None? ==> step == SignStep(s, Failure(Backend(ShareDecode)), None))))
  {
    hide Bodies, SignHeaderFault;
    FirstFaultIsForeign(s, inbox);
    if k :| 0 <= k < |inbox| && Foreign(s, inbox[k]) {
      var _ := FirstForeignExists(s, inbox, k);
    }
  }

  lemma {:induction false} FirstForeignExists(s: SignState, inbox: seq<Envelope>, n: int) returns (k: int)
    requires 0 <= n < |inbox| && Foreign(s, inbox[n])
    ensures FirstForeign(s, inbox, k)
    decreases n
  {
    if i :| 0 <= i < n && Foreign(s, inbox[i]) {
      k := FirstForeignExists(s, inbox, i);
    } else {
      k := n;
    }
  }

  /** All bodies decode exactly when each is a message of the stage, and then each is taken, in order. */
  lemma {:induction false} BodiesAreTheContents(inbox: seq<Envelope>, stage: int)
    ensures Bodies(inbox, stage).1 <==> forall k :: 0 <= k < |inbox| ==> inbox[k].payload.SignMessage? && inbox[k].payload.stage == stage
    ensures Bodies(inbox, stage).1 ==> (
      && |Bodies(inbox, stage).0| == |inbox|
      && forall k :: 0 <= k < |inbox| ==> inbox[k].payload.SignMessage? && Bodies(inbox, stage).0[k] == inbox[k].payload.content)
  {
    if inbox != [] {
      BodiesAreTheContents(inbox[..|inbox| - 1], stage);
    }
  }

  /** The messages of a well-formed inbox, in order. */
  function Contents(inbox: seq<Envelope>): seq<int>
    requires forall k :: 0 <= k < |inbox| ==> inbox[k].payload.SignMessage?
  {
    seq(|inbox|, k requires 0 <= k < |inbox| => inbox[k].payload.content)
  }

  /** What a call spends and hands to the upstream phase, for a party at a round boundary: nothing unless
      every envelope is well-formed, and otherwise the kept value of its round with all the messages in
      order, in the last phase after the party's own broadcasts. */
  lemma PhaseGetsTheMessages(s: SignState, inbox: seq<Envelope>, up: Upstream)
    requires AtBoundary(s)
    ensures var step := SignAdvanced(s, inbox, up);
      && step.use == (
           if !WellFormed(s, s.round, inbox) then None
           else if s.round == 1 then Some(Use2(s.keep1to2.value, Contents(inbox), if up.accepts then Some(up.kept) else None))
           else if s.round == 2 then Some(Use3(s.keep2to3.value, Contents(inbox), if up.accepts then Some(up.xCoord) else None))
           else Some(Use4(s.xCoord.value, s.broadcasts + Contents(inbox), if up.accepts then Some(up.s) else None)))
      && (step.use.None? ==> step.answer.Failure? && step.state.round == s.round)
  {
    hide Bodies, SignHeaderFault, SignEnvelopes;
    FirstFaultIsForeign(s, inbox);
    BodiesAreTheContents(inbox, s.round);
    if Bodies(inbox, s.round).1 {
      assert Bodies(inbox, s.round).0 == Contents(inbox);
    }
  }

  // ---- every sequence of calls on one party -------------------------------------------------------------

  datatype Call = Call(inbox: seq<Envelope>, up: Upstream)

  datatype Trace = Trace(state: SignState, uses: seq<Use>, answers: seq<Result<SignProgress>>)

  /** The calls in order, errors and all. */
  function Calls(s: SignState, calls: seq<Call>): (t: Trace)
    ensures |t.answers| == |calls|
  {
    if calls == [] then Trace(s, [], [])
    else
      var t := Calls(s, calls[..|calls| - 1]);
      var step := SignAdvanced(t.state, calls[|calls| - 1].inbox, calls[|calls| - 1].up);
      Trace(step.state, if step.use.Some? then t.uses + [step.use.value] else t.uses, t.answers + [step.answer])
  }

  ghost predicate Fresh(s: SignState) {
    s.round == 1 && s.keep1to2.Some? && s.keep2to3.None? && s.xCoord.None? && s.broadcasts == [] && s.share.secret.Some?
  }

  /** When a session opens, and what it then is: the state the results over whole runs start from. */
  lemma StartIsFresh(share: KeyShare, counterparty: PartyId, up: Upstream)
    ensures var r := SignStarted(share, counterparty, up);
      && (r.Success? <==> share.party != counterparty && share.secret.Some? && counterparty < 255 && up.accepts && (up.encodes || up.posts == []))
      && (r.Success? ==> (
            && Fresh(r.value.0) && AtBoundary(r.value.0) && r.value.0.round == 1
            && r.value.0.me == share.party && r.value.0.counterparty == counterparty && r.value.0.keep1to2 == Some(up.kept)
            && |r.value.1| == |up.posts|
            && forall k :: 0 <= k < |up.posts| ==>
                 r.value.1[k].round == 1 && r.value.1[k].from == share.party && r.value.1[k].to == Some(up.posts[k].to)))
  {
  }

  /** The phases ran in order, each at most once, each spent what the phase before handed on, and only
      the last can have refused. */
  ghost predicate Chain(first: int, uses: seq<Use>) {
    && |uses| <= 3
    && (|uses| >= 1 ==> uses[0].Use2? && uses[0].kept == first)
    && (|uses| >= 2 ==> uses[1].Use3? && uses[0].next == Some(uses[1].kept))
    && (|uses| >= 3 ==> uses[2].Use4? && uses[1].nextX == Some(uses[2].x))
  }

  /** What the fields hold says exactly how far the chain has come. */
  ghost predicate AtStage(first: int, s: SignState, uses: seq<Use>) {
    && 1 <= s.round <= 4 && s.share.secret.Some?
    && Chain(first, uses)
    && (s.keep1to2.Some? ==> s.keep1to2.value == first)
    && (s.keep1to2.Some? <==> uses == [])
    && (s.keep2to3.Some? <==> |uses| == 1 && uses[0].Accepted())
    && (s.keep2to3.Some? ==> s.keep2to3 == uses[0].next)
    && (s.xCoord.Some? <==> |uses| == 2 && uses[1].Accepted())
    && (s.xCoord.Some? ==> s.xCoord == uses[1].nextX)
    && (s.round == 1 ==> |uses| <= 1)
    && (s.round == 2 ==> 1 <= |uses| <= 2 && (|uses| == 2 ==> !uses[1].Accepted()))
    && (s.round == 3 ==> 2 <= |uses| && uses[1].Accepted())
    && (s.round == 4 ==> |uses| == 3 && uses[2].Accepted())
  }

  lemma StageIsKept(first: int, s: SignState, uses: seq<Use>, c: Call)
    requires AtStage(first, s, uses)
    ensures var step := SignAdvanced(s, c.inbox, c.up);
      && AtStage(first, step.state, if step.use.Some? then uses + [step.use.value] else uses)
      && s.round <= step.state.round <= s.round + 1
      && (step.answer.Success? ==> (
            && step.use.Some? && step.use.value.Accepted() && step.state.round == s.round + 1
            && (step.answer.value.Signed? <==> s.round == 3)))
      && (step.answer.Success? && step.answer.value.Signed? ==> (
            && step.use.value.Use4? && step.use.value.x == Digits(step.answer.value.signature.r)
            && step.use.value.s == Some(Digits(step.answer.value.signature.s))))
      && (uses != [] && !uses[|uses| - 1].Accepted() ==> step.use.None? && step.answer.Failure? && step.state.round == s.round)
      && (s.round == 4 ==> step.use.None? && step.answer.Failure?)
  {
    hide SignHeaderFault, Bodies, SignEnvelopes;
  }

  predicate IsSignature(r: Result<SignProgress>) {
    r.Success? && r.value.Signed?
  }

  /** For every sequence of calls on a freshly started party: the rounds only rise, from 1 to at most
      4; each kept value is spent by at most one upstream phase; and a signature is the work of phases
      2, 3 and 4, once each, in that order, and is given out at most once. */
  lemma {:induction false} KeptValuesAreSpentOnce(s: SignState, calls: seq<Call>)
    requires Fresh(s)
    ensures var t := Calls(s, calls);
      && AtStage(s.keep1to2.value, t.state, t.uses)
      && (forall i :: 0 <= i < |calls| && IsSignature(t.answers[i]) ==>
            && t.state.round == 4 && |t.uses| == 3 && t.uses[0].Accepted() && t.uses[1].Accepted() && t.uses[2].Accepted()
            && t.uses[2].x == Digits(t.answers[i].value.signature.r) && t.uses[2].s == Some(Digits(t.answers[i].value.signature.s)))
      && (forall i, j :: 0 <= i < j < |calls| && IsSignature(t.answers[i]) ==> t.answers[j].Failure?)
  {
    hide SignAdvanced;
    if calls != [] {
      var init, last := calls[..|calls| - 1], calls[|calls| - 1];
      KeptValuesAreSpentOnce(s, init);
      var t := Calls(s, init);
      StageIsKept(s.keep1to2.value, t.state, t.uses, last);
    }
  }

  /** Once an upstream phase has refused, nothing more is spent and no later call answers anything but
      an error. */
  lemma {:induction false} NothingAfterARefusal(s: SignState, before: seq<Call>, after: seq<Call>)
    requires Fresh(s)
    requires exists u :: u in Calls(s, before).uses && !u.Accepted()
    ensures var t, t' := Calls(s, before), Calls(s, before + after);
      && t'.uses == t.uses && t'.state.round == t.state.round
      && (forall i :: |before| <= i < |before| + |after| ==> t'.answers[i].Failure?)
      && (forall i :: 0 <= i < |before| ==> t'.answers[i] == t.answers[i])
  {
    hide SignAdvanced;
    KeptValuesAreSpentOnce(s, before);
    if after == [] {
      assert before + after == before;
    } else {
      var init, last := after[..|after| - 1], after[|after| - 1];
      assert (before + after)[..|before + after| - 1] == before + init;
      NothingAfterARefusal(s, before, init);
      KeptValuesAreSpentOnce(s, before + init);
      var t := Calls(s, before + init);
      OnlyTheLastRefuses(s.keep1to2.value, t.uses);
      StageIsKept(s.keep1to2.value, t.state, t.uses, last);
    }
  }

  lemma OnlyTheLastRefuses(first: int, uses: seq<Use>)
    requires Chain(first, uses) && exists u :: u in uses && !u.Accepted()
    ensures uses != [] && !uses[|uses| - 1].Accepted()
  {
  }

  // ---- the stored session on the server -------------------------------------------------------------------

  /** One request for the next round: `live` is false once the row has expired. */
  datatype SignRequest = SignRequest(live: bool, inbox: seq<Envelope>, up: Upstream)

  datatype Reply = UnknownSession | Refused(error: Error) | InProgress(envelopes: seq<Envelope>) | Completed(signature: Signature)

  datatype Served = Served(stored: Option<SignState>, reply: Reply, use: Option<Use>)

  /** The handler reads the row, advances the party in memory, and writes it back only when the round
      succeeded. A finished session's row is deleted. */
  function Serve(stored: Option<SignState>, r: SignRequest): Served {
    if stored.None? || !r.live then Served(None, UnknownSession, None)
    else
      var step := SignAdvanced(stored.value, r.inbox, r.up);
      match step.answer
      case Failure(e) => Served(stored, Refused(e), step.use)
      case Success(SignSend(out)) => Served(Some(step.state), InProgress(out), step.use)
      case Success(Signed(signature)) => Served(None, Completed(signature), step.use)
  }

  /** The table row, as the handler changes it. */
  class SignSessions {
    var row: Option<SignState>

    constructor (s: SignState)
      ensures row == Some(s)
    {
      row := Some(s);
    }

    method AdvanceSign(r: SignRequest) returns (reply: Reply, ghost use: Option<Use>)
      modifies this
      ensures Served(row, reply, use) == Serve(old(row), r)
    {
      if row.None? || !r.live {
        row := None;
        return UnknownSession, None;
      }
      var step := SignAdvanced(row.value, r.inbox, r.up);
      use := step.use;
      match step.answer
      case Failure(e) => reply := Refused(e);
      case Success(SignSend(out)) =>
        row := Some(step.state);
        reply := InProgress(out);
      case Success(Signed(signature)) =>
        row := None;
        reply := Completed(signature);
    }
  }

  /** What a run of requests spent, request by request. */
  datatype ServedTrace = ServedTrace(stored: Option<SignState>, uses: seq<Option<Use>>, replies: seq<Reply>)

  function ServeAll(stored: Option<SignState>, rs: seq<SignRequest>): (t: ServedTrace)
    ensures |t.uses| == |t.replies| == |rs|
  {
    if rs == [] then ServedTrace(stored, [], [])
    else
      var t := ServeAll(stored, rs[..|rs| - 1]);
      var one := Serve(t.stored, rs[|rs| - 1]);
      ServedTrace(one.stored, t.uses + [one.use], t.replies + [one.reply])
  }

  predicate Worked(r: Reply) {
    r.InProgress? || r.Completed?
  }

  /** The stage of a use: which kept slot it spent. */
  function Slot(u: Use): int {
    if u.Use2? then 2 else if u.Use3? then 3 else 4
  }

  /** The stored row is always a party at a round boundary: exactly the kept value of its round is there. */
  ghost predicate AtBoundary(s: SignState) {
    && s.share.secret.Some?
    && ((s.round == 1 && s.keep1to2.Some?) || (s.round == 2 && s.keep2to3.Some?) || (s.round == 3 && s.xCoord.Some?))
  }

  /** The kept value a boundary row would spend next. */
  ghost predicate Spends(s: SignState, u: Use) {
    || (s.round == 1 && u.Use2? && s.keep1to2 == Some(u.kept))
    || (s.round == 2 && u.Use3? && s.keep2to3 == Some(u.kept))
    || (s.round == 3 && u.Use4? && s.xCoord == Some(u.x))
  }

  lemma ServeKeepsBoundary(s: SignState, r: SignRequest)
    requires AtBoundary(s)
    ensures var one := Serve(Some(s), r);
      && (one.use.Some? ==> Spends(s, one.use.value) && Slot(one.use.value) == s.round + 1)
      && (one.stored.Some? ==> AtBoundary(one.stored.value))
      && (Worked(one.reply) ==> one.use.Some? && (one.stored.Some? ==> one.stored.value.round == s.round + 1)
                                && (one.reply.Completed? <==> s.round == 3) && (one.stored.None? <==> s.round == 3))
      && (!Worked(one.reply) ==> one.stored == (if r.live then Some(s) else None))
      && (!r.live ==> one.use.None?)
  {
    hide SignHeaderFault, Bodies, SignEnvelopes;
  }

  /** The row after a run is at a boundary, past exactly the rounds that worked. */
  lemma {:induction false} RowsAreAtBoundaries(s: SignState, rs: seq<SignRequest>)
    requires AtBoundary(s) && s.round == 1
    ensures var t := ServeAll(Some(s), rs);
      && (t.stored.Some? ==> AtBoundary(t.stored.value))
      && (forall i :: 0 <= i < |rs| && t.uses[i].Some? && Worked(t.replies[i]) && t.stored.Some? ==> Slot(t.uses[i].value) <= t.stored.value.round)
      && (forall i :: 0 <= i < |rs| && t.uses[i].Some? && t.stored.Some? ==> Slot(t.uses[i].value) <= t.stored.value.round + 1)
      && (forall i :: 0 <= i < |rs| && t.replies[i].Completed? ==> t.stored.None?)
  {
    hide Serve;
    if rs != [] {
      var init, last := rs[..|rs| - 1], rs[|rs| - 1];
      RowsAreAtBoundaries(s, init);
      var t := ServeAll(Some(s), init);
      if t.stored.Some? {
        ServeKeepsBoundary(t.stored.value, last);
      } else {
        NoRow(last);
      }
    }
  }

  lemma NoRow(r: SignRequest)
    ensures Serve(None, r) == Served(None, UnknownSession, None)
  {
  }

  /** A round that did not work leaves the row as it was, so the next request that reaches an upstream
      phase spends the very same kept value again. */
  lemma RetrySpendsTheSameValue(s: SignState, failed: SignRequest, retry: SignRequest)
    requires AtBoundary(s) && failed.live
    requires !Worked(Serve(Some(s), failed).reply)
    ensures Serve(Some(s), failed).stored == Some(s)
    ensures var first, second := Serve(Some(s), failed).use, Serve(Some(s), retry).use;
      first.Some? && second.Some? ==>
        Slot(first.value) == Slot(second.value) && Spends(s, first.value) && Spends(s, second.value)
  {
    ServeKeepsBoundary(s, failed);
    ServeKeepsBoundary(s, retry);
  }

  /** No kept value was spent twice. */
  ghost predicate SpentOnce(t: ServedTrace) {
    forall i, j :: 0 <= i < j < |t.uses| && t.uses[i].Some? && t.uses[j].Some? ==> Slot(t.uses[i].value) != Slot(t.uses[j].value)
  }

  /** Nothing was spent after a spending round that did not work. */
  ghost predicate StoppedAfterFailure(t: ServedTrace)
    requires |t.uses| == |t.replies|
  {
    forall i, j :: 0 <= i < j < |t.uses| && t.uses[i].Some? && !Worked(t.replies[i]) ==> t.uses[j].None?
  }

  /** Over a run of requests, every kept value is spent at most once if and only if nothing is spent
      after a spending round that failed. A signature is given out at most once either way. */
  lemma {:induction false} SpentOnceIffStopped(s: SignState, rs: seq<SignRequest>)
    requires AtBoundary(s) && s.round == 1
    ensures var t := ServeAll(Some(s), rs);
      && (SpentOnce(t) <==> StoppedAfterFailure(t))
      && (forall i, j :: 0 <= i < j < |rs| && t.replies[i].Completed? ==> t.replies[j] == UnknownSession)
  {
    hide Serve, AtBoundary;
    if rs != [] {
      var init, last := rs[..|rs| - 1], rs[|rs| - 1];
      SpentOnceIffStopped(s, init);
      RowsAreAtBoundaries(s, init);
      var t0, t := ServeAll(Some(s), init), ServeAll(Some(s), rs);
      NoRow(last);
      if t0.stored.Some? {
        ServeKeepsBoundary(t0.stored.value, last);
        LastUseRepeatsIffFailedBefore(s, init, t0);
      }
      StopsWithin(t0, t);
      var n := |init|;
      assert t.uses[n] == Serve(t0.stored, last).use && t.replies[n] == Serve(t0.stored, last).reply;
      forall i | 0 <= i < n ensures t.uses[i] == t0.uses[i] && t.replies[i] == t0.replies[i] {
      }
      if StoppedAfterFailure(t0) && t.uses[n].Some? {
        if StoppedAfterFailure(t) {
          forall i | 0 <= i < n && t.uses[i].Some? ensures Slot(t.uses[i].value) != Slot(t.uses[n].value) {
            assert Worked(t.replies[i]);
          }
        } else {
          var i :| 0 <= i < n && t.uses[i].Some? && !Worked(t.replies[i]);
          assert Slot(t.uses[i].value) == Slot(t.uses[n].value);
        }
      }
    }
  }

  /** With a row at round `k`, an earlier use spent slot `k + 1` exactly when an earlier spending round
      failed there: rounds that worked moved the row on. */
  lemma {:induction false} LastUseRepeatsIffFailedBefore(s: SignState, rs: seq<SignRequest>, t: ServedTrace)
    requires AtBoundary(s) && s.round == 1 && t == ServeAll(Some(s), rs) && t.stored.Some?
    ensures StoppedAfterFailure(t) ==>
      forall i :: 0 <= i < |rs| && t.uses[i].Some? ==> (Slot(t.uses[i].value) == t.stored.value.round + 1 <==> !Worked(t.replies[i]))
  {
    hide Serve, AtBoundary;
    if rs != [] {
      var init, last := rs[..|rs| - 1], rs[|rs| - 1];
      var t0 := ServeAll(Some(s), init);
      NoRow(last);
      RowsAreAtBoundaries(s, init);
      LastUseRepeatsIffFailedBefore(s, init, t0);
      ServeKeepsBoundary(t0.stored.value, last);
      if StoppedAfterFailure(t) {
        StopsWithin(t0, t);
        forall i | 0 <= i < |rs| && t.uses[i].Some?
          ensures Slot(t.uses[i].value) == t.stored.value.round + 1 <==> !Worked(t.replies[i])
        {
          var n := |init|;
          assert t.uses[n] == Serve(t0.stored, last).use && t.replies[n] == Serve(t0.stored, last).reply;
          if i < n {
            assert t.uses[i] == t0.uses[i] && t.replies[i] == t0.replies[i];
            if Worked(t.replies[n]) {
              assert t.uses[n].Some?;
              assert Worked(t.replies[i]);
              assert Slot(t0.uses[i].value) <= t0.stored.value.round;
            }
          }
        }
      }
    }
  }

  lemma StopsWithin(t0: ServedTrace, t: ServedTrace)
    requires |t0.uses| == |t0.replies| && |t.uses| == |t.replies| && t0.uses <= t.uses && t0.replies <= t.replies
    ensures StoppedAfterFailure(t) ==> StoppedAfterFailure(t0)
    ensures SpentOnce(t) ==> SpentOnce(t0)
  {
    if StoppedAfterFailure(t) {
      forall i, j | 0 <= i < j < |t0.uses| && t0.uses[i].Some? && !Worked(t0.replies[i]) ensures t0.uses[j].None? {
        assert t.uses[i] == t0.uses[i] && t.uses[j] == t0.uses[j] && t.replies[i] == t0.replies[i];
      }
    }
    if SpentOnce(t) {
      forall i, j | 0 <= i < j < |t0.uses| && t0.uses[i].Some? && t0.uses[j].Some? ensures Slot(t0.uses[i].value) != Slot(t0.uses[j].value) {
        assert t.uses[i] == t0.uses[i] && t.uses[j] == t0.uses[j];
      }
    }
  }

  // ---- what the client can tell -----------------------------------------------------------------------------

  /** The round the row is in, as the replies so far tell; nothing once it is gone. */
  function OpenRound(replies: seq<Reply>): Option<int> {
    if replies == [] then Some(1)
    else
      var before := OpenRound(replies[..|replies| - 1]);
      match replies[|replies| - 1]
      case InProgress(_) => if before.Some? then Some(before.value + 1) else None
      case Refused(_) => before
      case _ => None
  }

  /** Every envelope is of this round, from the counterparty, to this party or to everyone, and carries a
      message of the round's kind. */
  predicate WellFormed(s: SignState, round: int, inbox: seq<Envelope>) {
    forall k :: 0 <= k < |inbox| ==> (
      && inbox[k].round == round && inbox[k].from == s.counterparty && (inbox[k].to.None? || inbox[k].to.value == s.me)
      && inbox[k].payload.SignMessage? && inbox[k].payload.stage == round)
  }

  /** A well-formed request for a row that is still there. */
  predicate Continues(s: SignState, replies: seq<Reply>, r: SignRequest) {
    OpenRound(replies).Some? && r.live && WellFormed(s, OpenRound(replies).value, r.inbox)
  }

  /** The refusals that come out of a phase or after it. */
  predicate Spoiled(r: Reply) {
    r == Refused(Backend(PhaseFailed)) || r == Refused(Backend(EnvelopeEncode)) || r == Refused(Backend(MalformedSignature))
  }

  /** The client sends nothing well-formed for the row after such a refusal. */
  ghost predicate ClientStops(s: SignState, rs: seq<SignRequest>, replies: seq<Reply>)
    requires |rs| == |replies|
  {
    forall i, j :: 0 <= i < j < |rs| && Spoiled(replies[i]) ==> !Continues(s, replies[..j], rs[j])
  }

  /** A request spends a kept value if and only if the row lives and the request is well-formed for its
      round, and the refusals that spend one are exactly those. */
  lemma SpendsIffWellFormed(s: SignState, r: SignRequest)
    requires AtBoundary(s)
    ensures var one := Serve(Some(s), r);
      && (one.use.Some? <==> r.live && WellFormed(s, s.round, r.inbox))
      && (one.use.Some? && !Worked(one.reply) <==> Spoiled(one.reply))
      && (one.stored.Some? ==> one.stored.value.me == s.me && one.stored.value.counterparty == s.counterparty)
  {
    hide Bodies, SignEnvelopes, WellFormed;
    PhaseGetsTheMessages(s, r.inbox, r.up);
    HeaderErrors(s, r.inbox);
    hide SignHeaderFault;
  }

  lemma {:induction false} HeaderErrors(s: SignState, inbox: seq<Envelope>)
    ensures SignHeaderFault(s, inbox).Some? ==> !Spoiled(Refused(SignHeaderFault(s, inbox).value))
  {
    if inbox != [] {
      HeaderErrors(s, inbox[1..]);
    }
  }

  /** The replies tell whether the row is there and in which round. */
  lemma {:induction false} RepliesTellTheRound(s: SignState, rs: seq<SignRequest>)
    requires AtBoundary(s) && s.round == 1
    ensures var t := ServeAll(Some(s), rs);
      && (t.stored.Some? <==> OpenRound(t.replies).Some?)
      && (t.stored.Some? ==> (
            && AtBoundary(t.stored.value) && OpenRound(t.replies) == Some(t.stored.value.round)
            && t.stored.value.me == s.me && t.stored.value.counterparty == s.counterparty))
  {
    hide Serve, AtBoundary, WellFormed;
    if rs != [] {
      var init, last := rs[..|rs| - 1], rs[|rs| - 1];
      RepliesTellTheRound(s, init);
      var t0, t := ServeAll(Some(s), init), ServeAll(Some(s), rs);
      assert t.replies[..|rs| - 1] == t0.replies;
      NoRow(last);
      if t0.stored.Some? {
        ServeKeepsBoundary(t0.stored.value, last);
        SpendsIffWellFormed(t0.stored.value, last);
        UnknownMeansGone(t0.stored.value, last);
      }
    }
  }

  lemma UnknownMeansGone(s: SignState, r: SignRequest)
    ensures Serve(Some(s), r).reply == UnknownSession <==> !r.live
  {
    hide SignAdvanced;
  }

  /** What request number `j` spent and was answered, from the requests before it. */
  lemma {:induction false} PrefixOfRun(s: SignState, rs: seq<SignRequest>, j: int)
    requires 0 <= j < |rs|
    ensures var t, before := ServeAll(Some(s), rs), ServeAll(Some(s), rs[..j]);
      && t.replies[..j] == before.replies
      && t.uses[j] == Serve(before.stored, rs[j]).use && t.replies[j] == Serve(before.stored, rs[j]).reply
    decreases |rs|
  {
    hide Serve;
    var init := rs[..|rs| - 1];
    if j < |rs| - 1 {
      PrefixOfRun(s, init, j);
      assert init[..j] == rs[..j];
      assert ServeAll(Some(s), rs).replies[..j] == ServeAll(Some(s), init).replies[..j];
    } else {
      assert ServeAll(Some(s), rs).replies[..j] == ServeAll(Some(s), init).replies;
    }
  }

  /** A request of a run spent something exactly when it was well-formed for a row that was still there,
      and failed in doing so exactly when its refusal says so. */
  lemma ClientTellsUses(s: SignState, rs: seq<SignRequest>, j: int)
    requires AtBoundary(s) && s.round == 1 && 0 <= j < |rs|
    ensures var t := ServeAll(Some(s), rs);
      && (t.uses[j].Some? <==> Continues(s, t.replies[..j], rs[j]))
      && (t.uses[j].Some? && !Worked(t.replies[j]) <==> Spoiled(t.replies[j]))
  {
    hide Serve, AtBoundary, ServeAll, OpenRound, Bodies, SignHeaderFault;
    PrefixOfRun(s, rs, j);
    RepliesTellTheRound(s, rs[..j]);
    var before := ServeAll(Some(s), rs[..j]);
    NoRow(rs[j]);
    if before.stored.Some? {
      SpendsIffWellFormed(before.stored.value, rs[j]);
    }
  }

  /** The server keeps single use only as long as its client stops: for every run of requests, each kept
      value is spent at most once if and only if no well-formed request for the row follows a refusal
      that came out of a phase. A signature is given out at most once either way. */
  lemma ServerSpendsOnceIffClientStops(s: SignState, rs: seq<SignRequest>)
    requires AtBoundary(s) && s.round == 1
    ensures var t := ServeAll(Some(s), rs);
      && (SpentOnce(t) <==> ClientStops(s, rs, t.replies))
      && (forall i, j :: 0 <= i < j < |rs| && t.replies[i].Completed? ==> t.replies[j] == UnknownSession)
  {
    hide ServeAll, AtBoundary, Spoiled, Continues, Worked;
    SpentOnceIffStopped(s, rs);
    var t := ServeAll(Some(s), rs);
    forall j | 0 <= j < |rs|
      ensures t.uses[j].Some? <==> Continues(s, t.replies[..j], rs[j])
      ensures t.uses[j].Some? && !Worked(t.replies[j]) <==> Spoiled(t.replies[j])
    {
      ClientTellsUses(s, rs, j);
    }
  }
}
