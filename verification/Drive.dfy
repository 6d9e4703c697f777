/** The one-process harness: three parties driven round by round
    (crates/mpc-core/src/protocol.rs:502-590). */
module Drive {
  import opened Prelude
  import opened Modular
  import opened Keys
  import opened Wire
  import opened Dkg

  // ---- one party over rounds -------------------------------------------------------------------

  /** Every accepted call moves the round by exactly one, the call that ends round 3 is the one
      that finishes, and a refused call stays where it was. A bad header leaves no trace at all. */
  lemma AdvanceMovesOneRound(q: int, s: PartyState, inbox: seq<Envelope>)
    requires FieldOrder(q)
    ensures var (s', r) := Advanced(q, s, inbox);
      && s'.me == s.me && s'.session == s.session && s'.expected == s.expected
      && (r.Success? ==> 1 <= s.round <= 3 && s'.round == s.round + 1 && (r.value.Done? <==> s.round == 3))
      && (r.Failure? ==> s'.round == s.round)
      && (HeaderFault(s.me, s.round, inbox).Some? ==> s' == s && r == Failure(HeaderFault(s.me, s.round, inbox).value))
  {
    hide IsPrime;
  }

  // ---- one pass over the parties ---------------------------------------------------------------

  datatype Tally = Tally(
    states: seq<PartyState>,
    next: seq<Envelope>,
    finished: int,
    shares: seq<KeyShare>,
    key: Option<PublicKey>)

  /** What one party's answer adds to the pass. */
  function Count(t: Tally, s: PartyState, p: Progress): Result<Tally> {
    match p
    case Send(out) => Success(t.(states := t.states + [s], next := t.next + out))
    case Done(share, key) =>
      if t.key.Some? && t.key.value != key then Failure(Backend(KeysDisagree))
      else Success(t.(states := t.states + [s], finished := t.finished + 1, shares := t.shares + [share], key := Some(key)))
  }

  /** The parties from `k` on, each advanced with what the flight holds for it. */
  function PassFrom(q: int, states: seq<PartyState>, flight: seq<Envelope>, k: int, t: Tally): Result<Tally>
    requires FieldOrder(q) && 0 <= k <= |states|
    decreases |states| - k
  {
    if k == |states| then Success(t)
    else
      var (s, r) := Advanced(q, states[k], InboxFor(states[k].me, flight));
      if r.Failure? then Failure(r.error)
      else
        match Count(t, s, r.value)
        case Failure(e) => Failure(e)
        case Success(t') => PassFrom(q, states, flight, k + 1, t')
  }

  function Pass(q: int, states: seq<PartyState>, flight: seq<Envelope>, shares: seq<KeyShare>, key: Option<PublicKey>): Result<Tally>
    requires FieldOrder(q)
  {
    PassFrom(q, states, flight, 0, Tally([], [], 0, shares, key))
  }

  /** An error-free pass raises every party's round, and counts those that were in round 3. */
  lemma {:induction false} PassRaisesEveryRound(q: int, states: seq<PartyState>, flight: seq<Envelope>, k: int, t: Tally)
    requires FieldOrder(q) && 0 <= k <= |states| && |t.states| == k && 0 <= t.finished <= k
    requires forall i :: 0 <= i < k ==> 1 <= states[i].round <= 3 && t.states[i].round == states[i].round + 1
    requires t.finished == k <==> forall i :: 0 <= i < k ==> states[i].round == 3
    ensures var r := PassFrom(q, states, flight, k, t);
      r.Success? ==>
        && |r.value.states| == |states| && 0 <= r.value.finished <= |states|
        && (forall i :: 0 <= i < |states| ==> 1 <= states[i].round <= 3 && r.value.states[i].round == states[i].round + 1)
        && (r.value.finished == |states| <==> forall i :: 0 <= i < |states| ==> states[i].round == 3)
        && |r.value.shares| == |t.shares| + r.value.finished - t.finished
        && (r.value.finished > 0 ==> r.value.key.Some? || t.finished > 0)
        && (t.key.Some? ==> r.value.key == t.key)
    decreases |states| - k
  {
    hide IsPrime, Advanced;
    if k < |states| {
      AdvanceMovesOneRound(q, states[k], InboxFor(states[k].me, flight));
      var (s, r) := Advanced(q, states[k], InboxFor(states[k].me, flight));
      if r.Success? {
        var c := Count(t, s, r.value);
        if c.Success? {
          PassRaisesEveryRound(q, states, flight, k + 1, c.value);
        }
      }
    }
  }

  // ---- the unbounded loop ----------------------------------------------------------------------

  /** How many more rounds the first party can go. */
  function RoundsLeft(states: seq<PartyState>): int {
    if states == [] || states[0].round > 4 then 0 else 4 - states[0].round
  }

  datatype Driven = Driven(result: Result<(seq<KeyShare>, PublicKey)>, passes: int)

  /** The harness: passes until one in which everybody finishes. That it is a function at all says
      that the unbounded loop ends on every input. */
  function Run(q: int, states: seq<PartyState>, flight: seq<Envelope>, shares: seq<KeyShare>, key: Option<PublicKey>): Driven
    requires FieldOrder(q)
    decreases RoundsLeft(states) + 1
  {
    var pass := Pass(q, states, flight, shares, key);
    if pass.Failure? then Driven(Failure(pass.error), 1)
    else
      var t := pass.value;
      if t.finished == |states| then
        Driven(if t.key.None? then Failure(Backend(NoParties)) else Success((t.shares, t.key.value)), 1)
      else
        PassRaisesEveryRound(q, states, flight, 0, Tally([], [], 0, shares, key));
        var rest := Run(q, t.states, t.next, t.shares, t.key);
        Driven(rest.result, rest.passes + 1)
  }

  ghost function States(parties: seq<DkgParty>): (states: seq<PartyState>)
    reads parties
    ensures |states| == |parties| && forall i :: 0 <= i < |parties| ==> states[i] == parties[i].State()
  {
    seq(|parties|, i requires 0 <= i < |parties| reads parties => parties[i].State())
  }

  ghost predicate Separate(q: int, parties: seq<DkgParty>) {
    && (forall i, j :: 0 <= i < j < |parties| ==> parties[i] != parties[j])
    && (forall i :: 0 <= i < |parties| ==> parties[i].q == q)
  }

  lemma PassUnfolds(q: int, states: seq<PartyState>, flight: seq<Envelope>, k: int, t: Tally)
    requires FieldOrder(q) && 0 <= k < |states|
    ensures var (s, r) := Advanced(q, states[k], InboxFor(states[k].me, flight));
      PassFrom(q, states, flight, k, t) ==
        if r.Failure? then Failure(r.error)
        else match Count(t, s, r.value) case Failure(e) => Failure(e) case Success(t') => PassFrom(q, states, flight, k + 1, t')
  {
    hide IsPrime, Advanced, InboxFor;
  }

  lemma PassEnd(q: int, states: seq<PartyState>, flight: seq<Envelope>, t: Tally)
    requires FieldOrder(q)
    ensures PassFrom(q, states, flight, |states|, t) == Success(t)
  {
  }

  /** The body of the loop: every party once, in order. */
  method OnePass(q: int, parties: seq<DkgParty>, inFlight: seq<Envelope>, shares0: seq<KeyShare>, key0: Option<PublicKey>)
    returns (ok: bool, error: Error, next: seq<Envelope>, finished: int, shares: seq<KeyShare>, publicKey: Option<PublicKey>)
    requires FieldOrder(q) && Separate(q, parties)
    modifies parties
    ensures Pass(q, old(States(parties)), inFlight, shares0, key0)
         == if ok then Success(Tally(States(parties), next, finished, shares, publicKey)) else Failure(error)
  {
    hide IsPrime, Advanced, InboxFor, PassFrom;
    ghost var start := States(parties);
    ok, error, next, finished, shares, publicKey := true, Backend(NoParties), [], 0, shares0, key0;
    ghost var advanced: seq<PartyState> := [];
    for k := 0 to |parties|
      invariant ok && |advanced| == k
      invariant forall i :: 0 <= i < k ==> parties[i].State() == advanced[i]
      invariant forall i :: k <= i < |parties| ==> parties[i].State() == start[i]
      invariant PassFrom(q, start, inFlight, k, Tally(advanced, next, finished, shares, publicKey))
             == Pass(q, start, inFlight, shares0, key0)
    {
      PassUnfolds(q, start, inFlight, k, Tally(advanced, next, finished, shares, publicKey));
      var answer := parties[k].Advance(InboxFor(parties[k].me, inFlight));
      advanced := advanced + [parties[k].State()];
      match answer
      case Failure(e) =>
        ok, error := false, e;
        return;
      case Success(Send(outgoing)) =>
        next := next + outgoing;
      case Success(Done(share, key)) =>
        finished := finished + 1;
        if publicKey.Some? && publicKey.value != key {
          ok, error := false, Backend(KeysDisagree);
          return;
        }
        publicKey := Some(key);
        shares := shares + [share];
    }
    assert advanced == States(parties);
    PassEnd(q, start, inFlight, Tally(advanced, next, finished, shares, publicKey));
  }

  /** Runs the parties round by round until every one of them finishes. */
  method DriveLocally(q: int, parties: seq<DkgParty>, firstFlight: seq<Envelope>)
    returns (r: Result<(seq<KeyShare>, PublicKey)>)
    requires FieldOrder(q) && Separate(q, parties)
    modifies parties
    ensures r == Run(q, old(States(parties)), firstFlight, [], None).result
  {
    hide IsPrime, Advanced, Pass;
    var inFlight := firstFlight;
    var shares: seq<KeyShare>, publicKey: Option<PublicKey> := [], None;
    while true
      invariant Run(q, States(parties), inFlight, shares, publicKey).result
             == Run(q, old(States(parties)), firstFlight, [], None).result
      decreases RoundsLeft(States(parties)) + 1
    {
      PassMakesProgress(q, States(parties), inFlight, shares, publicKey);
      var ok, error, next, finished, shares', publicKey' := OnePass(q, parties, inFlight, shares, publicKey);
      if !ok {
        return Failure(error);
      }
      if finished == |parties| {
        if publicKey'.None? {
          return Failure(Backend(NoParties));
        }
        return Success((shares', publicKey'.value));
      }
      inFlight, shares, publicKey := next, shares', publicKey';
    }
  }

  lemma PassMakesProgress(q: int, states: seq<PartyState>, flight: seq<Envelope>, shares: seq<KeyShare>, key: Option<PublicKey>)
    requires FieldOrder(q)
    ensures var pass := Pass(q, states, flight, shares, key);
      pass.Success? && pass.value.finished != |states| ==> RoundsLeft(pass.value.states) < RoundsLeft(states)
  {
    PassRaisesEveryRound(q, states, flight, 0, Tally([], [], 0, shares, key));
  }

  /** For every input: at most four passes, and a run that succeeds had all its parties in the
      same round from the start, took exactly the passes that were left, and collected one share
      from each of them. */
  lemma {:induction false} RunIsLockStep(q: int, states: seq<PartyState>, flight: seq<Envelope>, shares: seq<KeyShare>, key: Option<PublicKey>)
    requires FieldOrder(q)
    ensures var d := Run(q, states, flight, shares, key);
      && 1 <= d.passes <= 4 && (states != [] && 1 <= states[0].round <= 4 ==> d.passes <= 5 - states[0].round)
      && (d.result.Success? && states != [] ==>
            && (forall i :: 0 <= i < |states| ==> states[i].round == 4 - d.passes)
            && |d.result.value.0| == |shares| + |states|)
      && (d.result.Success? && states == [] ==> key.Some?)
    decreases RoundsLeft(states) + 1
  {
    hide IsPrime, Advanced;
    PassRaisesEveryRound(q, states, flight, 0, Tally([], [], 0, shares, key));
    var pass := Pass(q, states, flight, shares, key);
    if pass.Success? && pass.value.finished != |states| {
      var t := pass.value;
      RunIsLockStep(q, t.states, t.next, t.shares, t.key);
      var rest := Run(q, t.states, t.next, t.shares, t.key);
      if rest.result.Success? {
        assert forall i :: 0 <= i < |states| ==> t.states[i].round == states[i].round + 1;
        // The first party cannot have finished before the last pass, so nobody has.
        assert t.states[0].round <= 3;
        NobodyFinishesEarly(q, states, flight, shares, key);
      }
    }
  }

  lemma NobodyFinishesEarly(q: int, states: seq<PartyState>, flight: seq<Envelope>, shares: seq<KeyShare>, key: Option<PublicKey>)
    requires FieldOrder(q) && Pass(q, states, flight, shares, key).Success?
    requires forall i :: 0 <= i < |states| ==> states[i].round != 3
    ensures Pass(q, states, flight, shares, key).value.finished == 0
    ensures |Pass(q, states, flight, shares, key).value.shares| == |shares|
  {
    NobodyFinishesFrom(q, states, flight, 0, Tally([], [], 0, shares, key));
  }

  lemma {:induction false} NobodyFinishesFrom(q: int, states: seq<PartyState>, flight: seq<Envelope>, k: int, t: Tally)
    requires FieldOrder(q) && 0 <= k <= |states| && PassFrom(q, states, flight, k, t).Success?
    requires forall i :: 0 <= i < |states| ==> states[i].round != 3
    ensures PassFrom(q, states, flight, k, t).value.finished == t.finished
    ensures PassFrom(q, states, flight, k, t).value.shares == t.shares
    decreases |states| - k
  {
    hide IsPrime, Advanced;
    if k < |states| {
      AdvanceMovesOneRound(q, states[k], InboxFor(states[k].me, flight));
      var (s, r) := Advanced(q, states[k], InboxFor(states[k].me, flight));
      NobodyFinishesFrom(q, states, flight, k + 1, Count(t, s, r.value).value);
    }
  }

  // ---- agreement ---------------------------------------------------------------------------------

  /** Each of these shares decodes, and its scalar is the one behind the key. */
  ghost predicate UnderKey(q: int, shares: seq<KeyShare>, key: PublicKey)
    requires 0 < q
  {
    forall i :: 0 <= i < |shares| ==> shares[i].secret.Some? && PublicKeyOf(q, shares[i].secret.value.keyScalar) == Some(key)
  }

  /** What a pass has collected so far lies under its key. */
  ghost predicate TallyAgrees(q: int, shares: seq<KeyShare>, key: Option<PublicKey>)
    requires 0 < q
  {
    if key.None? then shares == [] else UnderKey(q, shares, key.value)
  }

  lemma CountAgrees(q: int, state: PartyState, inbox: seq<Envelope>, t: Tally)
    requires FieldOrder(q) && TallyAgrees(q, t.shares, t.key)
    requires Advanced(q, state, inbox).1.Success?
    ensures var (s, r) := Advanced(q, state, inbox);
      var c := Count(t, s, r.value);
      c.Success? ==> TallyAgrees(q, c.value.shares, c.value.key)
  {
    hide IsPrime, Advanced;
    AdvanceMovesOneRound(q, state, inbox);
    if state.round == 3 {
      LastRoundSucceedsOnlyIf(q, state, inbox);
    }
  }

  lemma {:induction false} PassAgrees(q: int, states: seq<PartyState>, flight: seq<Envelope>, k: int, t: Tally)
    requires FieldOrder(q) && 0 <= k <= |states| && TallyAgrees(q, t.shares, t.key)
    ensures var r := PassFrom(q, states, flight, k, t);
      r.Success? ==> TallyAgrees(q, r.value.shares, r.value.key)
    decreases |states| - k
  {
    hide IsPrime, Advanced, TallyAgrees, Count;
    if k < |states| {
      var (s, r) := Advanced(q, states[k], InboxFor(states[k].me, flight));
      if r.Success? {
        CountAgrees(q, states[k], InboxFor(states[k].me, flight), t);
        var c := Count(t, s, r.value);
        if c.Success? {
          PassAgrees(q, states, flight, k + 1, c.value);
        }
      }
    }
  }

  /** Over every run, for any parties and any messages: the shares of a run that succeeds all lie under the
      one key it reports. */
  lemma {:induction false} SharesAgreeOnTheKey(q: int, states: seq<PartyState>, flight: seq<Envelope>, shares: seq<KeyShare>, key: Option<PublicKey>)
    requires FieldOrder(q) && TallyAgrees(q, shares, key)
    ensures var r := Run(q, states, flight, shares, key).result;
      r.Success? ==> UnderKey(q, r.value.0, r.value.1)
    decreases RoundsLeft(states) + 1
  {
    hide IsPrime, PassFrom, UnderKey;
    PassAgrees(q, states, flight, 0, Tally([], [], 0, shares, key));
    var pass := Pass(q, states, flight, shares, key);
    if pass.Success? && pass.value.finished != |states| {
      PassRaisesEveryRound(q, states, flight, 0, Tally([], [], 0, shares, key));
      SharesAgreeOnTheKey(q, pass.value.states, pass.value.next, pass.value.shares, pass.value.key);
    }
  }
}
