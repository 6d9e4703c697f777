/** Whole runs of the server over the recovery tables. A step is one store transaction; a handler that
    needs two of them holds a slip in between, and may die with it. Clock readings are arbitrary. */
module RecoveryRuns {
  import opened Prelude
  import opened Digests
  import opened RecoveryStore

  /** What a consumed grant is spent on. */
  datatype Goal =
    | OpenSign(purpose: Purpose, id: Id32, digest: Digest)
    | OpenReshare(id: Id32, publicKey: CompressedKey)
    | StartCooling(request: Id32)

  /** Work a handler still has to do: store the grant of a verified assertion, or act on a consumed one. */
  datatype Slip = ToStore(op: Operation) | ToAct(wallet: WalletId, goal: Goal)

  /** What happened, in order. Positions in the history name the event they depend on. */
  datatype Entry =
    | Registered(wallet: WalletId, key: DeviceKey)
    | Requested(request: Id32, wallet: WalletId, key: DeviceKey, now: int)
    | Issued(challenge: ChallengeId, wallet: WalletId, ceremony: Ceremony, binding: Binding, now: int)
    | Taken(challenge: ChallengeId, proved: Option<Operation>, now: int)
    | Granted(op: Operation, origin: int, now: int)
    | Consumed(op: Operation, wallet: WalletId, goal: Goal, now: int)
    | Opened(wallet: WalletId, goal: Goal, origin: int)
    | CoolingStarted(request: Id32, wallet: WalletId, now: int, origin: int)
    | KeyReplaced(request: Id32, wallet: WalletId, key: DeviceKey, now: int)
    | Withdrawn(request: Id32, wallet: WalletId)

  datatype World = World(db: Db, slips: map<int, Slip>, history: seq<Entry>)

  const Empty := World(Db(map[], map[], map[], map[]), map[], [])

  datatype Event =
    | Register(wallet: WalletId, key: DeviceKey)
    | Create(request: Id32, wallet: WalletId, key: DeviceKey, now: int)
    | Issue(challenge: ChallengeId, wallet: WalletId, ceremony: Ceremony, binding: Binding, now: int)
    | Finish(challenge: ChallengeId, op: Operation, verified: bool, now: int)
    | Spend(wallet: WalletId, goal: Goal, now: int)
    | Use(slip: int, now: int)
    | Complete(request: Id32, wallet: WalletId, now: int)
    | Cancel(request: Id32, wallet: WalletId)

  /** The grant a handler asks for: the digest of a recovery is computed from the stored request. */
  function Asked(db: Db, wallet: WalletId, goal: Goal): Option<Operation> {
    match goal
    case OpenSign(purpose, id, digest) => Some(Operation(wallet, purpose, id, digest))
    case OpenReshare(id, publicKey) => Some(Operation(wallet, ForRecovery, id, GrantDigest(publicKey, id)))
    case StartCooling(request) =>
      if request in db.requests && db.requests[request].wallet == wallet
      then Some(Operation(wallet, ForRecovery, request, AssertionDigest(wallet, db.requests[request].newKey, request)))
      else None
  }

  function WithSlip(w: World, db: Db, e: Entry, s: Slip): World {
    World(db, w.slips[|w.history| := s], w.history + [e])
  }

  /** The assertion handler: claim the challenge, compare its binding, verify, and go on to store. */
  function Finished(w: World, challenge: ChallengeId, op: Operation, verified: bool, now: int): World {
    var (db, binding) := TakeChallengeSpec(w.db, challenge, op.wallet, Assert, now);
    match binding
    case None => w
    case Some(b) =>
      if b == ToOperation(op.purpose, op.id, op.digest) && verified
      then WithSlip(w, db, Taken(challenge, Some(op), now), ToStore(op))
      else World(db, w.slips, w.history + [Taken(challenge, None, now)])
  }

  /** A handler picks its slip up again. */
  function Used(w: World, cooling: int, slip: int, now: int): World
    requires slip in w.slips
  {
    var slips := w.slips - {slip};
    match w.slips[slip]
    case ToStore(op) =>
      var (db, stored) := PutGrantSpec(w.db, op, AUTHORIZATION_TTL_SECONDS, now);
      World(db, slips, if stored then w.history + [Granted(op, slip, now)] else w.history)
    case ToAct(wallet, StartCooling(request)) =>
      var (db, answer) := StartSpec(w.db, request, wallet, cooling, COMPLETE_WINDOW_SECONDS, now);
      World(db, slips, if answer.Started? then w.history + [CoolingStarted(request, wallet, now, slip)] else w.history)
    case ToAct(wallet, goal) =>
      World(w.db, slips, w.history + [Opened(wallet, goal, slip)])
  }

  function Spent(w: World, wallet: WalletId, goal: Goal, now: int): World {
    match Asked(w.db, wallet, goal)
    case None => w
    case Some(op) =>
      var (db, ok) := ConsumeSpec(w.db, op, now);
      if ok then WithSlip(w, db, Consumed(op, wallet, goal, now), ToAct(wallet, goal)) else w
  }

  function Step(w: World, cooling: int, e: Event): World {
    match e
    case Register(wallet, key) =>
      var (db, ok) := RegisterSpec(w.db, wallet, key);
      if ok then World(db, w.slips, w.history + [Registered(wallet, key)]) else w
    case Create(request, wallet, key, now) =>
      var (db, r) := CreateSpec(w.db, request, wallet, key, REQUEST_TTL_SECONDS, MAX_REQUESTS_PER_HOUR, now);
      if r == Recorded then World(db, w.slips, w.history + [Requested(request, wallet, key, now)]) else w
    case Issue(challenge, wallet, ceremony, binding, now) =>
      var (db, ok) := PutChallengeSpec(w.db, challenge, wallet, ceremony, binding, CEREMONY_TTL_SECONDS, now);
      if ok then World(db, w.slips, w.history + [Issued(challenge, wallet, ceremony, binding, now)]) else w
    case Finish(challenge, op, verified, now) => Finished(w, challenge, op, verified, now)
    case Spend(wallet, goal, now) => Spent(w, wallet, goal, now)
    case Use(slip, now) => if slip in w.slips then Used(w, cooling, slip, now) else w
    case Complete(request, wallet, now) =>
      var (db, r) := CompleteSpec(w.db, request, wallet, now);
      if r == Done then World(db, w.slips, w.history + [KeyReplaced(request, wallet, db.deviceKeys[wallet], now)]) else w
    case Cancel(request, wallet) =>
      var (db, ok) := CancelSpec(w.db, request, wallet);
      if ok then World(db, w.slips, w.history + [Withdrawn(request, wallet)]) else w
  }

  function Run(cooling: int, events: seq<Event>): World {
    if events == [] then Empty else Step(Run(cooling, events[..|events| - 1]), cooling, events[|events| - 1])
  }

  // ---- one-use grants ---------------------------------------------------------------------------------

  /** The position an entry or a slip answers to. */
  function Origin(e: Entry): int {
    match e case Granted(_, o, _) => o case Opened(_, _, o) => o case CoolingStarted(_, _, _, o) => o case _ => -1
  }

  /** The entry at position `n` rests on an earlier one. */
  ghost predicate RestsAt(h: seq<Entry>, n: int, e: Entry)
    requires 0 <= n <= |h|
  {
    match e
    case Taken(c, _, now) => exists i :: 0 <= i < n && h[i].Issued? && h[i].challenge == c && now <= h[i].now + CEREMONY_TTL_SECONDS
    case Granted(op, o, _) => 0 <= o < n && h[o].Taken? && h[o].proved == Some(op)
    case Consumed(op, _, _, now) => exists g :: 0 <= g < n && h[g].Granted? && h[g].op == op && now <= h[g].now + AUTHORIZATION_TTL_SECONDS
    case Opened(wallet, goal, o) => 0 <= o < n && h[o].Consumed? && h[o].wallet == wallet && h[o].goal == goal
    case CoolingStarted(request, wallet, _, o) =>
      0 <= o < n && h[o].Consumed? && h[o].wallet == wallet && h[o].goal == StartCooling(request)
    case _ => true
  }

  ghost predicate Rests(h: seq<Entry>) {
    forall n :: 0 <= n < |h| ==> RestsAt(h, n, h[n])
  }

  /** Nothing is taken, granted or consumed twice, and no two entries answer to the same position. */
  predicate Distinct(x: Entry, y: Entry) {
    && (x.Issued? && y.Issued? ==> x.challenge != y.challenge)
    && (x.Taken? && y.Taken? ==> x.challenge != y.challenge)
    && (x.Granted? && y.Granted? ==> x.op != y.op)
    && (x.Consumed? && y.Consumed? ==> x.op != y.op)
    && (Origin(x) >= 0 ==> Origin(x) != Origin(y))
  }

  ghost predicate Once(h: seq<Entry>) {
    forall i, j :: 0 <= i < j < |h| ==> Distinct(h[i], h[j])
  }

  /** What an entry says is still so in the tables. */
  predicate StillSo(db: Db, e: Entry) {
    match e
    case Issued(c, wallet, ceremony, binding, now) =>
      && c in db.challenges && db.challenges[c].wallet == wallet && db.challenges[c].ceremony == ceremony
      && db.challenges[c].binding == binding && db.challenges[c].expires == now + CEREMONY_TTL_SECONDS
    case Taken(c, _, _) => c in db.challenges && db.challenges[c].used
    case Granted(op, _, now) => op in db.grants && db.grants[op].expires == now + AUTHORIZATION_TTL_SECONDS
    case Consumed(op, _, _, _) => op in db.grants && db.grants[op].consumed
    case _ => true
  }

  /** Nothing is in the tables, and no flag is set, without an entry that says so. */
  ghost predicate Backed(db: Db, h: seq<Entry>) {
    && (forall c :: c in db.challenges ==> exists i :: IsIssue(h, i, c))
    && (forall c :: c in db.challenges && db.challenges[c].used ==> exists t :: IsTaking(h, t, c))
    && (forall op :: op in db.grants ==> exists g :: IsGrant(h, g, op))
    && (forall op :: op in db.grants && db.grants[op].consumed ==> exists c :: IsConsumption(h, c, op))
  }

  predicate IsIssue(h: seq<Entry>, i: int, c: ChallengeId) {
    0 <= i < |h| && h[i].Issued? && h[i].challenge == c
  }

  predicate IsTaking(h: seq<Entry>, t: int, c: ChallengeId) {
    0 <= t < |h| && h[t].Taken? && h[t].challenge == c
  }

  predicate IsGrant(h: seq<Entry>, g: int, op: Operation) {
    0 <= g < |h| && h[g].Granted? && h[g].op == op
  }

  predicate IsConsumption(h: seq<Entry>, c: int, op: Operation) {
    0 <= c < |h| && h[c].Consumed? && h[c].op == op
  }

  /** A slip is out for the entry at its position, and nothing has answered to that position yet. */
  ghost predicate SlipsOut(slips: map<int, Slip>, h: seq<Entry>) {
    forall k :: k in slips ==> (
      0 <= k < |h| && SlipFits(slips[k], h[k]) && forall n :: 0 <= n < |h| ==> Origin(h[n]) != k)
  }

  /** The tables and the slips agree with the history. */
  ghost predicate Agrees(w: World) {
    && (forall n :: 0 <= n < |w.history| ==> StillSo(w.db, w.history[n]))
    && Backed(w.db, w.history)
    && SlipsOut(w.slips, w.history)
  }

  predicate SlipFits(s: Slip, e: Entry) {
    match s
    case ToStore(op) => e.Taken? && e.proved == Some(op)
    case ToAct(wallet, goal) => e.Consumed? && e.wallet == wallet && e.goal == goal
  }

  /** What an assertion proved is what its challenge was issued for. */
  ghost predicate Bound(w: World) {
    forall n :: 0 <= n < |w.history| && w.history[n].Taken? && w.history[n].proved.Some? ==> (
      var op := w.history[n].proved.value;
      && w.history[n].challenge in w.db.challenges
      && w.db.challenges[w.history[n].challenge].wallet == op.wallet
      && w.db.challenges[w.history[n].challenge].ceremony == Assert
      && w.db.challenges[w.history[n].challenge].binding == ToOperation(op.purpose, op.id, op.digest))
  }

  /** What was consumed is what the goal asks for, in the tables as they are. */
  ghost predicate Asks(w: World) {
    forall n :: 0 <= n < |w.history| && w.history[n].Consumed? ==>
      Asked(w.db, w.history[n].wallet, w.history[n].goal) == Some(w.history[n].op)
  }

  ghost predicate GrantsInv(w: World) {
    Rests(w.history) && Once(w.history) && Agrees(w) && Bound(w) && Asks(w)
  }

  /** The tables only move on: rows stay, flags stay set, and what a recovery asks for stays the same. */
  ghost predicate MovesOn(db: Db, db': Db) {
    && (forall c :: c in db.challenges ==> (
          && c in db'.challenges && db'.challenges[c].(used := true) == db.challenges[c].(used := true)
          && (db.challenges[c].used ==> db'.challenges[c].used)))
    && (forall op :: op in db.grants ==> (
          && op in db'.grants && db'.grants[op].expires == db.grants[op].expires
          && (db.grants[op].consumed ==> db'.grants[op].consumed)))
    && Forward(db.requests, db'.requests)
  }

  /** What a new entry needs from the tables and the slips. */
  ghost predicate Fits(w: World, w': World, e: Entry) {
    match e
    case Issued(c, _, _, _, _) => c !in w.db.challenges && StillSo(w'.db, e)
    case Taken(c, proved, now) =>
      && c in w.db.challenges && !w.db.challenges[c].used && now <= w.db.challenges[c].expires
      && c in w'.db.challenges && w'.db.challenges[c].used
      && (proved.Some? ==> (
            && w.db.challenges[c].wallet == proved.value.wallet && w.db.challenges[c].ceremony == Assert
            && w.db.challenges[c].binding == ToOperation(proved.value.purpose, proved.value.id, proved.value.digest)))
    case Granted(op, origin, _) =>
      op !in w.db.grants && StillSo(w'.db, e) && origin in w.slips && w.slips[origin] == ToStore(op) && origin !in w'.slips
    case Consumed(op, wallet, goal, now) =>
      && op in w.db.grants && !w.db.grants[op].consumed && now <= w.db.grants[op].expires
      && op in w'.db.grants && w'.db.grants[op].consumed
      && Asked(w'.db, wallet, goal) == Some(op)
    case Opened(wallet, goal, origin) => origin in w.slips && w.slips[origin] == ToAct(wallet, goal) && origin !in w'.slips
    case CoolingStarted(request, wallet, _, origin) =>
      origin in w.slips && w.slips[origin] == ToAct(wallet, StartCooling(request)) && origin !in w'.slips
    case _ => true
  }

  /** Appending one fitting entry. */
  ghost predicate Appends(w: World, w': World, e: Entry) {
    && w'.history == w.history + [e] && MovesOn(w.db, w'.db) && Fits(w, w', e)
    && (forall c :: c in w'.db.challenges ==> (
          && (c in w.db.challenges || (e.Issued? && e.challenge == c && !w'.db.challenges[c].used))
          && (w'.db.challenges[c].used ==> (c in w.db.challenges && w.db.challenges[c].used) || (e.Taken? && e.challenge == c))))
    && (forall op :: op in w'.db.grants ==> (
          && (op in w.db.grants || (e.Granted? && e.op == op && !w'.db.grants[op].consumed))
          && (w'.db.grants[op].consumed ==> (op in w.db.grants && w.db.grants[op].consumed) || (e.Consumed? && e.op == op))))
    && (forall k :: k in w'.slips ==> (k in w.slips && w'.slips[k] == w.slips[k]) || (k == |w.history| && SlipFits(w'.slips[k], e)))
  }

  lemma AppendKeepsRests(w: World, w': World, e: Entry)
    requires GrantsInv(w) && Appends(w, w', e)
    ensures Rests(w'.history)
  {
    hide MovesOn, Once, Bound, Asks, Agrees, Asked, Distinct, RestsAt;
    var h, h' := w.history, w'.history;
    NewRests(w, w', e);
    forall n | 0 <= n < |h'| ensures RestsAt(h', n, h'[n]) {
      RestsLonger(h, e, n, h'[n]);
    }
  }

  lemma NewRests(w: World, w': World, e: Entry)
    requires GrantsInv(w) && Appends(w, w', e)
    ensures RestsAt(w.history, |w.history|, e)
  {
    hide MovesOn, Rests, Once, Bound, Asks, Asked, Distinct;
    var h := w.history;
    match e
    case Taken(c, _, _) =>
      var i :| IsIssue(h, i, c);
      assert StillSo(w.db, h[i]);
    case Consumed(op, _, _, _) =>
      var g :| IsGrant(h, g, op);
      assert StillSo(w.db, h[g]);
    case _ =>
  }

  lemma RestsLonger(h: seq<Entry>, e: Entry, n: int, x: Entry)
    requires 0 <= n <= |h| && RestsAt(h, n, x)
    ensures RestsAt(h + [e], n, x)
  {
    match x
    case Taken(c, _, now) =>
      var i :| 0 <= i < n && h[i].Issued? && h[i].challenge == c && now <= h[i].now + CEREMONY_TTL_SECONDS;
      assert (h + [e])[i] == h[i];
    case Consumed(op, _, _, now) =>
      var g :| 0 <= g < n && h[g].Granted? && h[g].op == op && now <= h[g].now + AUTHORIZATION_TTL_SECONDS;
      assert (h + [e])[g] == h[g];
    case _ =>
  }

  lemma AppendKeepsOnce(w: World, w': World, e: Entry)
    requires GrantsInv(w) && Appends(w, w', e)
    ensures Once(w'.history)
  {
    hide MovesOn, Rests, Bound, Asks, Asked, Distinct;
    var h := w.history;
    forall i, j | 0 <= i < j < |w'.history| ensures Distinct(w'.history[i], w'.history[j]) {
      if j < |h| {
        assert Distinct(h[i], h[j]);
      } else {
        NewIsDistinct(w, w', e, i);
      }
    }
  }

  lemma NewIsDistinct(w: World, w': World, e: Entry, i: int)
    requires GrantsInv(w) && Appends(w, w', e) && 0 <= i < |w.history|
    ensures Distinct(w.history[i], e)
  {
    hide MovesOn, Rests, Bound, Asks, Asked, Once, Backed;
    assert StillSo(w.db, w.history[i]);
  }

  lemma AppendKeepsAgreement(w: World, w': World, e: Entry)
    requires GrantsInv(w) && Appends(w, w', e)
    ensures Agrees(w')
  {
    hide Rests, Once, Bound, Asks, Asked, Forward, SlipsOut, Backed;
    var h, h' := w.history, w'.history;
    forall n | 0 <= n < |h'| ensures StillSo(w'.db, h'[n]) {
      if n < |h| {
        assert StillSo(w.db, h[n]);
      }
    }
    AppendKeepsBacked(w, w', e);
    NewOrigin(w, w', e);
  }

  lemma AppendKeepsBacked(w: World, w': World, e: Entry)
    requires GrantsInv(w) && Appends(w, w', e)
    ensures Backed(w'.db, w'.history)
  {
    hide Rests, Once, Bound, Asks, Asked, MovesOn, SlipsOut, StillSo;
    var h, h' := w.history, w'.history;
    assert h'[|h|] == e && forall k :: 0 <= k < |h| ==> h'[k] == h[k];
    forall c | c in w'.db.challenges ensures exists i :: IsIssue(h', i, c) {
      if c in w.db.challenges {
        var i :| IsIssue(h, i, c);
        assert IsIssue(h', i, c);
      } else {
        assert IsIssue(h', |h|, c);
      }
    }
    forall c | c in w'.db.challenges && w'.db.challenges[c].used ensures exists t :: IsTaking(h', t, c) {
      if c in w.db.challenges && w.db.challenges[c].used {
        var t :| IsTaking(h, t, c);
        assert IsTaking(h', t, c);
      } else {
        assert IsTaking(h', |h|, c);
      }
    }
    forall op | op in w'.db.grants ensures exists g :: IsGrant(h', g, op) {
      if op in w.db.grants {
        var g :| IsGrant(h, g, op);
        assert IsGrant(h', g, op);
      } else {
        assert IsGrant(h', |h|, op);
      }
    }
    forall op | op in w'.db.grants && w'.db.grants[op].consumed ensures exists c :: IsConsumption(h', c, op) {
      if op in w.db.grants && w.db.grants[op].consumed {
        var c :| IsConsumption(h, c, op);
        assert IsConsumption(h', c, op);
      } else {
        assert IsConsumption(h', |h|, op);
      }
    }
  }

  /** An entry answers to no slip that is still out. */
  lemma NewOrigin(w: World, w': World, e: Entry)
    requires GrantsInv(w) && Appends(w, w', e)
    ensures SlipsOut(w'.slips, w'.history)
  {
    hide Rests, Once, Bound, Asks, Asked, MovesOn, Backed, StillSo;
    var h, h' := w.history, w'.history;
    forall k | k in w'.slips
      ensures 0 <= k < |h'| && SlipFits(w'.slips[k], h'[k]) && forall n :: 0 <= n < |h'| ==> Origin(h'[n]) != k
    {
      EarlierOrigins(w, e, k);
      assert k in w.slips ==> h'[k] == h[k];
      assert Origin(e) != k;
      forall n | 0 <= n < |h'| ensures Origin(h'[n]) != k {
        assert n < |h| ==> h'[n] == h[n];
      }
    }
  }

  lemma EarlierOrigins(w: World, e: Entry, k: int)
    requires GrantsInv(w) && (k in w.slips || k == |w.history|)
    ensures forall n :: 0 <= n < |w.history| ==> Origin(w.history[n]) != k
    ensures |w.history| !in w.slips
  {
    hide Once, Bound, Asks, Asked, Backed, StillSo;
    forall n | 0 <= n < |w.history| ensures Origin(w.history[n]) != k {
      assert RestsAt(w.history, n, w.history[n]);
    }
  }

  lemma AppendKeepsBound(w: World, w': World, e: Entry)
    requires GrantsInv(w) && Appends(w, w', e)
    ensures Bound(w')
  {
    hide Rests, Once, Agrees, Asks, Asked, Forward;
    assert forall n :: 0 <= n < |w.history| ==> w'.history[n] == w.history[n];
  }

  lemma AppendKeepsAsks(w: World, w': World, e: Entry)
    requires GrantsInv(w) && Appends(w, w', e)
    ensures Asks(w')
  {
    hide Rests, Once, Agrees, Bound, AssertionDigest, GrantDigest;
    assert forall n :: 0 <= n < |w.history| ==> w'.history[n] == w.history[n];
  }

  /** A step either appends one fitting entry, or leaves the history and at most drops a slip. */
  lemma StepAppendsOrDrops(w: World, cooling: int, e: Event)
    requires GrantsInv(w)
    ensures AppendsOrDrops(w, Step(w, cooling, e))
  {
    hide AssertionDigest, GrantDigest, StartSpec, CompleteSpec, CreateSpec, CancelSpec, PutChallengeSpec;
    hide GrantsInv, Appends, Used, Spent, Finished;
    match e
    case Issue(challenge, wallet, ceremony, binding, now) => IssueAppends(w, cooling, challenge, wallet, ceremony, binding, now);
    case Finish(challenge, op, verified, now) => FinishAppends(w, cooling, challenge, op, verified, now);
    case Spend(wallet, goal, now) => SpendAppends(w, cooling, wallet, goal, now);
    case Use(slip, now) =>
      if slip in w.slips {
        UseAppends(w, cooling, slip, now);
      }
    case _ => OtherAppends(w, cooling, e);
  }

  /** The steps that leave grants, challenges and slips alone. */
  lemma OtherAppends(w: World, cooling: int, e: Event)
    requires GrantsInv(w) && (e.Register? || e.Create? || e.Complete? || e.Cancel?)
    ensures AppendsOrDrops(w, Step(w, cooling, e))
  {
    hide CompleteSpec, CreateSpec, CancelSpec, Rests, Once, Bound, Asks, Agrees, MovesOn, Used, Spent, Finished;
    StepMovesOn(w, cooling, e);
    match e
    case Register(wallet, key) =>
    case Create(request, wallet, key, now) => CreateKeeps(w.db, request, wallet, key, now);
    case Complete(request, wallet, now) => CompleteKeeps(w.db, request, wallet, now);
    case Cancel(request, wallet) => CancelKeeps(w.db, request, wallet);
  }

  lemma IssueAppends(w: World, cooling: int, challenge: ChallengeId, wallet: WalletId, ceremony: Ceremony, binding: Binding, now: int)
    requires GrantsInv(w)
    ensures AppendsOrDrops(w, Step(w, cooling, Issue(challenge, wallet, ceremony, binding, now)))
  {
    hide Rests, Once, Bound, Asks, Agrees, MovesOn, Used, Spent, Finished;
    StepMovesOn(w, cooling, Issue(challenge, wallet, ceremony, binding, now));
  }

  ghost predicate AppendsOrDrops(w: World, w': World) {
    || (|w'.history| == |w.history| + 1 && Appends(w, w', w'.history[|w.history|]))
    || (w'.history == w.history && w'.db == w.db && w'.slips.Keys <= w.slips.Keys && forall k :: k in w'.slips ==> w'.slips[k] == w.slips[k])
  }

  lemma FinishAppends(w: World, cooling: int, challenge: ChallengeId, op: Operation, verified: bool, now: int)
    requires GrantsInv(w)
    ensures AppendsOrDrops(w, Finished(w, challenge, op, verified, now))
  {
    hide Rests, Once, Bound, Asks, Agrees, MovesOn;
    StepMovesOn(w, cooling, Finish(challenge, op, verified, now));
  }

  lemma SpendAppends(w: World, cooling: int, wallet: WalletId, goal: Goal, now: int)
    requires GrantsInv(w)
    ensures AppendsOrDrops(w, Spent(w, wallet, goal, now))
  {
    hide Rests, Once, Bound, Asks, Agrees, MovesOn, AssertionDigest, GrantDigest;
    StepMovesOn(w, cooling, Spend(wallet, goal, now));
  }

  lemma UseAppends(w: World, cooling: int, slip: int, now: int)
    requires GrantsInv(w) && slip in w.slips
    ensures AppendsOrDrops(w, Used(w, cooling, slip, now))
  {
    hide Rests, Once, Bound, Asks, Agrees, MovesOn, StartSpec, AssertionDigest, GrantDigest;
    StepMovesOn(w, cooling, Use(slip, now));
    if w.slips[slip].ToAct? && w.slips[slip].goal.StartCooling? {
      StartAnswersBriefly(w.db, w.slips[slip].goal.request, w.slips[slip].wallet, cooling, now);
    }
  }

  lemma StartAnswersBriefly(db: Db, id: Id32, wallet: WalletId, cooling: int, now: int)
    ensures var (db', answer) := StartSpec(db, id, wallet, cooling, COMPLETE_WINDOW_SECONDS, now);
      && (!answer.Started? ==> db' == db) && db'.grants == db.grants && db'.challenges == db.challenges && db'.deviceKeys == db.deviceKeys
  {
    hide Swept;
  }

  lemma CreateKeeps(db: Db, id: Id32, wallet: WalletId, key: DeviceKey, now: int)
    ensures var (db', r) := CreateSpec(db, id, wallet, key, REQUEST_TTL_SECONDS, MAX_REQUESTS_PER_HOUR, now);
      && (r != Recorded ==> db' == db) && db'.grants == db.grants && db'.challenges == db.challenges && db'.deviceKeys == db.deviceKeys
  {
  }

  lemma CompleteKeeps(db: Db, id: Id32, wallet: WalletId, now: int)
    ensures var (db', r) := CompleteSpec(db, id, wallet, now);
      && (r != Done ==> db' == db) && db'.grants == db.grants && db'.challenges == db.challenges && (r == Done ==> wallet in db'.deviceKeys)
  {
    hide Closed;
  }

  lemma CancelKeeps(db: Db, id: Id32, wallet: WalletId)
    ensures var (db', r) := CancelSpec(db, id, wallet);
      && (!r ==> db' == db) && db'.grants == db.grants && db'.challenges == db.challenges && db'.deviceKeys == db.deviceKeys
  {
  }

  /** The grant and challenge transactions never touch a request, and only set flags. */
  lemma SpendMovesOn(w: World, wallet: WalletId, goal: Goal, now: int)
    ensures MovesOn(w.db, Spent(w, wallet, goal, now).db) && Spent(w, wallet, goal, now).db.requests == w.db.requests
  {
    hide Asked, Forward;
    ForwardIsReflexive(w.db.requests);
  }

  lemma FinishMovesOn(w: World, challenge: ChallengeId, op: Operation, verified: bool, now: int)
    ensures MovesOn(w.db, Finished(w, challenge, op, verified, now).db) && Finished(w, challenge, op, verified, now).db.requests == w.db.requests
  {
    hide Forward;
    ForwardIsReflexive(w.db.requests);
  }

  lemma UseMovesOn(w: World, cooling: int, slip: int, now: int)
    requires slip in w.slips
    ensures MovesOn(w.db, Used(w, cooling, slip, now).db)
    ensures OneCooling(w.db.requests) ==> OneCooling(Used(w, cooling, slip, now).db.requests)
  {
    hide StartSpec, OneCooling, Forward;
    ForwardIsReflexive(w.db.requests);
    if w.slips[slip].ToAct? && w.slips[slip].goal.StartCooling? {
      StartAnswersBriefly(w.db, w.slips[slip].goal.request, w.slips[slip].wallet, cooling, now);
      StartMovesForward(w.db, w.slips[slip].goal.request, w.slips[slip].wallet, cooling, COMPLETE_WINDOW_SECONDS, now);
    }
  }

  lemma StepMovesOn(w: World, cooling: int, e: Event)
    ensures MovesOn(w.db, Step(w, cooling, e).db)
    ensures OneCooling(w.db.requests) ==> OneCooling(Step(w, cooling, e).db.requests)
  {
    hide CompleteSpec, CreateSpec, CancelSpec, OneCooling, Forward, Used, Spent, Finished;
    ForwardIsReflexive(w.db.requests);
    match e
    case Create(request, wallet, key, now) =>
      CreateKeeps(w.db, request, wallet, key, now);
      CreateMovesForward(w.db, request, wallet, key, REQUEST_TTL_SECONDS, MAX_REQUESTS_PER_HOUR, now);
    case Finish(challenge, op, verified, now) =>
      FinishMovesOn(w, challenge, op, verified, now);
    case Spend(wallet, goal, now) =>
      SpendMovesOn(w, wallet, goal, now);
    case Use(slip, now) =>
      if slip in w.slips {
        UseMovesOn(w, cooling, slip, now);
      }
    case Complete(request, wallet, now) =>
      CompleteKeeps(w.db, request, wallet, now);
      CompleteMovesForward(w.db, request, wallet, now);
    case Cancel(request, wallet) =>
      CancelKeeps(w.db, request, wallet);
      CancelMovesForward(w.db, request, wallet);
    case _ =>
  }

  lemma StepKeepsGrants(w: World, cooling: int, e: Event)
    requires GrantsInv(w)
    ensures GrantsInv(Step(w, cooling, e))
  {
    hide Step, Rests, Once, Bound, Asks, Asked, Appends;
    StepAppendsOrDrops(w, cooling, e);
    var w' := Step(w, cooling, e);
    if w'.history == w.history {
      SameHistory(w, w');
    } else {
      var entry := w'.history[|w.history|];
      AppendKeepsRests(w, w', entry);
      AppendKeepsOnce(w, w', entry);
      AppendKeepsAgreement(w, w', entry);
      AppendKeepsBound(w, w', entry);
      AppendKeepsAsks(w, w', entry);
    }
  }

  lemma SameHistory(w: World, w': World)
    requires GrantsInv(w) && w'.history == w.history && w'.db == w.db
    requires w'.slips.Keys <= w.slips.Keys && forall k :: k in w'.slips ==> w'.slips[k] == w.slips[k]
    ensures GrantsInv(w')
  {
    hide Rests, Once;
  }

  lemma {:induction false} RunKeepsGrants(cooling: int, events: seq<Event>)
    ensures GrantsInv(Run(cooling, events))
  {
    hide Step;
    if events != [] {
      RunKeepsGrants(cooling, events[..|events| - 1]);
      StepKeepsGrants(Run(cooling, events[..|events| - 1]), cooling, events[|events| - 1]);
    }
  }

  /** The grant at position `g` came from an assertion on a challenge issued for exactly this tuple. */
  ghost predicate GrantedFor(w: World, g: int, op: Operation) {
    var h := w.history;
    && 0 <= g < |h| && h[g].Granted? && h[g].op == op
    && 0 <= h[g].origin < g && h[h[g].origin].Taken? && TakenInTime(h, h[g].origin, op)
  }

  /** The challenge taken at position `t` was issued for an assertion by this wallet on exactly this tuple,
      at most its lifetime before. */
  ghost predicate TakenInTime(h: seq<Entry>, t: int, op: Operation)
    requires 0 <= t < |h| && h[t].Taken?
  {
    exists i :: 0 <= i < t && h[i].Issued? && h[i] == Issued(h[t].challenge, op.wallet, Assert, ToOperation(op.purpose, op.id, op.digest), h[i].now)
                && h[t].now <= h[i].now + CEREMONY_TTL_SECONDS
  }

  lemma TakenAsIssued(w: World, t: int, op: Operation)
    requires GrantsInv(w) && 0 <= t < |w.history| && w.history[t].Taken? && w.history[t].proved == Some(op)
    ensures TakenInTime(w.history, t, op)
  {
    hide Once, Distinct, Asks, Backed, SlipsOut;
    var h := w.history;
    assert RestsAt(h, t, h[t]);
    var i :| 0 <= i < t && h[i].Issued? && h[i].challenge == h[t].challenge && h[t].now <= h[i].now + CEREMONY_TTL_SECONDS;
    assert StillSo(w.db, h[i]);
    assert h[i] == Issued(h[t].challenge, op.wallet, Assert, ToOperation(op.purpose, op.id, op.digest), h[i].now);
  }

  /** Whatever was opened or set cooling answers to an earlier consumed grant for exactly that, and
      whatever was consumed had been granted. */
  ghost predicate EntryFacts(w: World, n: int)
    requires 0 <= n < |w.history|
  {
    var h := w.history;
    && (h[n].Opened? || h[n].CoolingStarted? ==> (
          var o := h[n].origin;
          && 0 <= o < n && h[o].Consumed? && h[o].wallet == h[n].wallet
          && h[o].goal == (if h[n].Opened? then h[n].goal else StartCooling(h[n].request))))
    && (h[n].Consumed? ==> exists g :: 0 <= g < n && GrantedFor(w, g, h[n].op) && h[n].now <= h[g].now + AUTHORIZATION_TTL_SECONDS)
  }

  /** No two of them answer to the same consumption, and nothing is consumed or claimed twice. */
  predicate PairFacts(x: Entry, y: Entry) {
    && ((x.Opened? || x.CoolingStarted?) && (y.Opened? || y.CoolingStarted?) ==> x.origin != y.origin)
    && (x.Consumed? && y.Consumed? ==> x.op != y.op)
    && (x.Taken? && y.Taken? ==> x.challenge != y.challenge)
  }

  lemma FactsOfEntry(w: World, n: int)
    requires GrantsInv(w) && 0 <= n < |w.history|
    ensures EntryFacts(w, n)
  {
    hide Once, Agrees, Bound, Asks, GrantedFor;
    assert RestsAt(w.history, n, w.history[n]);
    if w.history[n].Consumed? {
      FactsOfConsumption(w, n);
    }
  }

  lemma FactsOfConsumption(w: World, n: int)
    requires GrantsInv(w) && 0 <= n < |w.history| && w.history[n].Consumed?
    ensures exists g :: 0 <= g < n && GrantedFor(w, g, w.history[n].op) && w.history[n].now <= w.history[g].now + AUTHORIZATION_TTL_SECONDS
  {
    hide Once, Agrees, Bound, Asks, TakenInTime;
    var h := w.history;
    assert RestsAt(h, n, h[n]);
    var g :| 0 <= g < n && h[g].Granted? && h[g].op == h[n].op && h[n].now <= h[g].now + AUTHORIZATION_TTL_SECONDS;
    assert RestsAt(h, g, h[g]);
    TakenAsIssued(w, h[g].origin, h[n].op);
    assert GrantedFor(w, g, h[n].op);
  }

  lemma FactsOfPair(w: World, m: int, n: int)
    requires GrantsInv(w) && 0 <= m < n < |w.history|
    ensures PairFacts(w.history[m], w.history[n])
  {
    hide Asks, Agrees, Bound;
    assert Distinct(w.history[m], w.history[n]);
    assert RestsAt(w.history, m, w.history[m]);
  }

  /** Over every run: whatever was opened or set cooling answers to a consumed grant for exactly that,
      and no two answer to the same one; no tuple is consumed twice; and every consumed tuple was
      granted before, by an assertion on a challenge that was issued for that very tuple and is claimed
      at most once. */
  lemma GrantsAreOneUse(cooling: int, events: seq<Event>)
    ensures var w := Run(cooling, events);
      && (forall n :: 0 <= n < |w.history| ==> EntryFacts(w, n))
      && (forall m, n :: 0 <= m < n < |w.history| ==> PairFacts(w.history[m], w.history[n]))
  {
    hide Step, Run, GrantsInv, EntryFacts, PairFacts;
    RunKeepsGrants(cooling, events);
    var w := Run(cooling, events);
    forall n | 0 <= n < |w.history| ensures EntryFacts(w, n) {
      FactsOfEntry(w, n);
    }
    forall m, n | 0 <= m < n < |w.history| ensures PairFacts(w.history[m], w.history[n]) {
      FactsOfPair(w, m, n);
    }
  }

  // ---- where a device key comes from -------------------------------------------------------------------

  /** An entry that ends an open request of this wallet. */
  predicate Ends(e: Entry, request: Id32, wallet: WalletId) {
    || (e.Withdrawn? && e.request == request)
    || (e.KeyReplaced? && e.wallet == wallet)
  }

  /** The row has been cooling since position `s`, and nothing has ended it. */
  ghost predicate CoolsSince(w: World, cooling: int, request: Id32, s: int)
    requires request in w.db.requests
  {
    var r, h := w.db.requests[request], w.history;
    && 0 <= s < |h| && h[s].CoolingStarted? && h[s].request == request && h[s].wallet == r.wallet
    && r.ready == Some(h[s].now + cooling)
    && r.expires == h[s].now + cooling + COMPLETE_WINDOW_SECONDS
    && forall k :: s < k < |h| ==> !Ends(h[k], request, r.wallet)
  }

  ghost predicate CoolingInv(w: World, cooling: int) {
    && OneCooling(w.db.requests)
    && forall r :: r in w.db.requests ==> (
         && (w.db.requests[r].status == AwaitingAssertion ==> w.db.requests[r].ready.None?)
         && (w.db.requests[r].status == Cooling ==> exists s :: CoolsSince(w, cooling, r, s)))
  }

  /** Except for the start of its own cooling, a step leaves a cooling or awaiting row alone or ends it. */
  ghost predicate LeavesRow(w: World, w': World, r: Id32)
    requires r in w'.db.requests
  {
    w'.db.requests[r].status == Cooling ==> (
      && r in w.db.requests && w'.db.requests[r] == w.db.requests[r]
      && w.history <= w'.history
      && forall k :: |w.history| <= k < |w'.history| ==> !Ends(w'.history[k], r, w'.db.requests[r].wallet))
  }

  ghost predicate StartsRow(w: World, w': World, cooling: int, r: Id32)
    requires r in w'.db.requests
  {
    && |w'.history| == |w.history| + 1 && CoolsSince(w', cooling, r, |w.history|)
  }

  lemma StepLeavesOrStarts(w: World, cooling: int, e: Event, r: Id32)
    requires r in Step(w, cooling, e).db.requests
    ensures LeavesRow(w, Step(w, cooling, e), r) || StartsRow(w, Step(w, cooling, e), cooling, r)
  {
    hide AssertionDigest, GrantDigest, Recent, Asked, CompleteSpec, Used;
    match e
    case Use(slip, now) =>
      if slip in w.slips {
        if w.slips[slip].ToAct? && w.slips[slip].goal.StartCooling? {
          UseOfCooling(w, cooling, slip, now, r);
        } else {
          OtherUses(w, cooling, slip, now);
        }
      }
    case Complete(request, wallet, now) => CompleteLeavesRow(w, cooling, request, wallet, now, r);
    case _ =>
  }

  lemma OtherUses(w: World, cooling: int, slip: int, now: int)
    requires slip in w.slips && !(w.slips[slip].ToAct? && w.slips[slip].goal.StartCooling?)
    ensures var w' := Used(w, cooling, slip, now);
      && w'.db.requests == w.db.requests && w.history <= w'.history && |w'.history| <= |w.history| + 1
      && (|w'.history| == |w.history| + 1 ==> w'.history[|w.history|].Granted? || w'.history[|w.history|].Opened?)
  {
    hide StartSpec;
  }

  lemma CompleteLeavesRow(w: World, cooling: int, request: Id32, wallet: WalletId, now: int, r: Id32)
    requires r in Step(w, cooling, Complete(request, wallet, now)).db.requests
    ensures LeavesRow(w, Step(w, cooling, Complete(request, wallet, now)), r)
  {
    hide Used, Finished, Spent;
  }

  lemma UseOfCooling(w: World, cooling: int, slip: int, now: int, r: Id32)
    requires slip in w.slips && w.slips[slip].ToAct? && w.slips[slip].goal.StartCooling? && r in Used(w, cooling, slip, now).db.requests
    ensures LeavesRow(w, Used(w, cooling, slip, now), r) || StartsRow(w, Used(w, cooling, slip, now), cooling, r)
  {
    hide StartSpec, CoolingClash;
    StartAnswers(w.db, w.slips[slip].goal.request, w.slips[slip].wallet, cooling, COMPLETE_WINDOW_SECONDS, now);
  }

  lemma StepAwaiting(w: World, cooling: int, e: Event)
    requires forall r :: r in w.db.requests && w.db.requests[r].status == AwaitingAssertion ==> w.db.requests[r].ready.None?
    ensures var w' := Step(w, cooling, e);
      forall r :: r in w'.db.requests && w'.db.requests[r].status == AwaitingAssertion ==> w'.db.requests[r].ready.None?
  {
    hide AssertionDigest, GrantDigest, Recent, Asked;
  }

  lemma StepKeepsCooling(w: World, cooling: int, e: Event)
    requires CoolingInv(w, cooling)
    ensures CoolingInv(Step(w, cooling, e), cooling)
  {
    hide Step, CoolsSince, OneCooling;
    var w' := Step(w, cooling, e);
    StepMovesOn(w, cooling, e);
    StepAwaiting(w, cooling, e);
    forall r | r in w'.db.requests && w'.db.requests[r].status == Cooling ensures exists s :: CoolsSince(w', cooling, r, s) {
      StepLeavesOrStarts(w, cooling, e, r);
      if LeavesRow(w, w', r) {
        var s :| CoolsSince(w, cooling, r, s);
        StillCools(w, w', cooling, r, s);
      }
    }
  }

  lemma StillCools(w: World, w': World, cooling: int, r: Id32, s: int)
    requires r in w'.db.requests && w'.db.requests[r].status == Cooling && LeavesRow(w, w', r) && r in w.db.requests && CoolsSince(w, cooling, r, s)
    ensures CoolsSince(w', cooling, r, s)
  {
    forall k | s < k < |w'.history| ensures !Ends(w'.history[k], r, w'.db.requests[r].wallet) {
      if k < |w.history| {
        assert w'.history[k] == w.history[k];
      }
    }
  }

  lemma {:induction false} RunKeepsCooling(cooling: int, events: seq<Event>)
    ensures CoolingInv(Run(cooling, events), cooling)
  {
    hide Step;
    if events != [] {
      RunKeepsCooling(cooling, events[..|events| - 1]);
      StepKeepsCooling(Run(cooling, events[..|events| - 1]), cooling, events[|events| - 1]);
    }
  }

  /** The replacement at position `n` was approved for this key and waited for: challenge, grant,
      consumption, start of cooling and replacement, in that order, the start and the replacement at
      least the cooling-off period and at most that and the completion window apart, and nothing
      that ends the request in between. */
  ghost predicate Approved(w: World, cooling: int, n: int, a: int, g: int, c: int, s: int) {
    var h := w.history;
    && 0 <= a < g < c < s < n < |h|
    && h[n].KeyReplaced?
    && var op := Operation(h[n].wallet, ForRecovery, h[n].request, AssertionDigest(h[n].wallet, h[n].key, h[n].request));
    && h[a].Taken? && h[a].proved == Some(op) && TakenInTime(h, a, op)
    && h[g].Granted? && h[g].op == op && h[g].origin == a
    && h[c].Consumed? && h[c].op == op && h[c].wallet == h[n].wallet && h[c].goal == StartCooling(h[n].request)
    && h[c].now <= h[g].now + AUTHORIZATION_TTL_SECONDS
    && h[s].CoolingStarted? && h[s].request == h[n].request && h[s].wallet == h[n].wallet && h[s].origin == c
    && h[s].now + cooling <= h[n].now <= h[s].now + cooling + COMPLETE_WINDOW_SECONDS
    && forall k :: s < k < n ==> !Ends(h[k], h[n].request, h[n].wallet)
  }

  /** Over every run and whatever comes next: a registered device key is never removed, and it changes
      only to the key of a request that was approved for exactly that key and has waited. */
  lemma DeviceKeyProvenance(cooling: int, events: seq<Event>, e: Event, wallet: WalletId)
    requires wallet in Run(cooling, events).db.deviceKeys
    ensures var w, w' := Run(cooling, events), Step(Run(cooling, events), cooling, e);
      && wallet in w'.db.deviceKeys
      && (w'.db.deviceKeys[wallet] != w.db.deviceKeys[wallet] ==> (
            var n := |w.history|;
            && |w'.history| == n + 1
            && w'.history[n].KeyReplaced? && w'.history[n].wallet == wallet && w'.history[n].key == w'.db.deviceKeys[wallet]
            && exists a, g, c, s :: Approved(w', cooling, n, a, g, c, s)))
  {
    hide Run, AssertionDigest, Swept, Recent, Asked;
    var w := Run(cooling, events);
    var w' := Step(w, cooling, e);
    KeysChangeOnlyByCompletion(w, cooling, e);
    if e.Complete? && w' != w {
      RunKeepsGrants(cooling, events);
      RunKeepsCooling(cooling, events);
      CompletionIsApproved(w, cooling, e.request, e.wallet, e.now);
    }
  }

  lemma KeysChangeOnlyByCompletion(w: World, cooling: int, e: Event)
    ensures var w' := Step(w, cooling, e);
      && (forall k :: k in w.db.deviceKeys ==> k in w'.db.deviceKeys)
      && (forall k :: k in w.db.deviceKeys && w'.db.deviceKeys[k] != w.db.deviceKeys[k] ==> e.Complete? && e.wallet == k && w' != w)
  {
    hide AssertionDigest, GrantDigest, Recent, Asked, Closed, StartSpec;
    if e.Use? && e.slip in w.slips && w.slips[e.slip].ToAct? && w.slips[e.slip].goal.StartCooling? {
      StartAnswersBriefly(w.db, w.slips[e.slip].goal.request, w.slips[e.slip].wallet, cooling, e.now);
    }
  }

  /** What a start of cooling rests on: its consumption, its grant, and the assertion behind that. */
  lemma ApprovalChain(w: World, s: int) returns (a: int, g: int, c: int)
    requires GrantsInv(w) && 0 <= s < |w.history| && w.history[s].CoolingStarted?
    ensures var h := w.history;
      && 0 <= a < g < c < s && h[s].origin == c
      && h[c].Consumed? && h[c].wallet == h[s].wallet && h[c].goal == StartCooling(h[s].request)
      && Asked(w.db, h[s].wallet, StartCooling(h[s].request)) == Some(h[c].op)
      && h[g].Granted? && h[g].op == h[c].op && h[g].origin == a && h[c].now <= h[g].now + AUTHORIZATION_TTL_SECONDS
      && h[a].Taken? && h[a].proved == Some(h[c].op) && TakenInTime(h, a, h[c].op)
  {
    hide Asked, Once, Agrees, Bound, TakenInTime;
    var h := w.history;
    assert RestsAt(h, s, h[s]);
    c := h[s].origin;
    assert RestsAt(h, c, h[c]);
    g :| 0 <= g < c && h[g].Granted? && h[g].op == h[c].op && h[c].now <= h[g].now + AUTHORIZATION_TTL_SECONDS;
    assert RestsAt(h, g, h[g]);
    a := h[g].origin;
    TakenAsIssued(w, a, h[c].op);
  }

  lemma CompletionIsApproved(w: World, cooling: int, request: Id32, wallet: WalletId, now: int)
    requires GrantsInv(w) && CoolingInv(w, cooling) && CompleteSpec(w.db, request, wallet, now).1 == Done
    ensures exists a, g, c, s :: Approved(Step(w, cooling, Complete(request, wallet, now)), cooling, |w.history|, a, g, c, s)
  {
    hide Once, Agrees, Bound, AssertionDigest, Closed, OneCooling, Used, Finished, Spent, Rests, RestsAt, Asks;
    var h := w.history;
    var s :| CoolsSince(w, cooling, request, s);
    var a, g, c := ApprovalChain(w, s);
    var w' := Step(w, cooling, Complete(request, wallet, now));
    assert forall k :: 0 <= k < |h| ==> w'.history[k] == h[k];
    assert TakenInTime(w'.history, a, h[c].op);
    assert Approved(w', cooling, |h|, a, g, c, s);
  }

  /** The way a recovery is meant to go, for every wallet, key and request, and every cooling-off period. */
  function GoodRecovery(wallet: WalletId, current: DeviceKey, next: DeviceKey, request: Id32, cooling: int): seq<Event> {
    var op := Operation(wallet, ForRecovery, request, AssertionDigest(wallet, next, request));
    [Event.Register(wallet, current), Create(request, wallet, next, 0), Issue(1, wallet, Assert, ToOperation(op.purpose, op.id, op.digest), 0),
     Finish(1, op, true, 0), Use(3, 0), Spend(wallet, StartCooling(request), 0), Use(5, 0), Complete(request, wallet, cooling)]
  }

  lemma ApprovedAssertion(wallet: WalletId, current: DeviceKey, next: DeviceKey, request: Id32, cooling: int)
    ensures var es := GoodRecovery(wallet, current, next, request, cooling);
      var op := Operation(wallet, ForRecovery, request, AssertionDigest(wallet, next, request));
      var w := Step(Step(Step(Step(Step(Empty, cooling, es[0]), cooling, es[1]), cooling, es[2]), cooling, es[3]), cooling, es[4]);
      && w.db.requests == map[request := Request(wallet, AwaitingAssertion, next, 0, REQUEST_TTL_SECONDS, None)]
      && w.db.deviceKeys == map[wallet := current] && |w.history| == 5 && w.slips == map[]
      && op in w.db.grants && w.db.grants[op] == Grant(AUTHORIZATION_TTL_SECONDS, false)
  {
    hide AssertionDigest;
    var es := GoodRecovery(wallet, current, next, request, cooling);
    var w1 := Step(Empty, cooling, es[0]);
    assert w1.history == [Registered(wallet, current)] && w1.db.deviceKeys == map[wallet := current];
    assert Recent(w1.db.requests, wallet, -3600) == {};
    var w2 := Step(w1, cooling, es[1]);
    assert |w2.history| == 2;
    var w3 := Step(w2, cooling, es[2]);
    assert |w3.history| == 3 && 1 in w3.db.challenges;
    var w4 := Step(w3, cooling, es[3]);
    assert |w4.history| == 4 && 3 in w4.slips && w4.slips.Keys == {3};
  }

  lemma ApprovedRecoveryCompletes(w: World, wallet: WalletId, current: DeviceKey, next: DeviceKey, request: Id32, cooling: int)
    requires 0 <= cooling && |w.history| == 5 && w.slips == map[]
    requires w.db.requests == map[request := Request(wallet, AwaitingAssertion, next, 0, REQUEST_TTL_SECONDS, None)]
    requires var op := Operation(wallet, ForRecovery, request, AssertionDigest(wallet, next, request));
      op in w.db.grants && w.db.grants[op] == Grant(AUTHORIZATION_TTL_SECONDS, false)
    ensures var es := GoodRecovery(wallet, current, next, request, cooling);
      var w' := Step(Step(Step(w, cooling, es[5]), cooling, es[6]), cooling, es[7]);
      wallet in w'.db.deviceKeys && w'.db.deviceKeys[wallet] == next && request in w'.db.requests && w'.db.requests[request].status == Completed
  {
    hide AssertionDigest;
    var es := GoodRecovery(wallet, current, next, request, cooling);
    var w1 := Step(w, cooling, es[5]);
    assert 5 in w1.slips && w1.slips[5] == ToAct(wallet, StartCooling(request));
    var w2 := Step(w1, cooling, es[6]);
    StartAnswers(w1.db, request, wallet, cooling, COMPLETE_WINDOW_SECONDS, 0);
    assert w2.db.requests[request] == CoolingRow(w1.db.requests[request], cooling, COMPLETE_WINDOW_SECONDS);
  }

  /** The recovery is not only guarded, it goes through: approved and waited for, it replaces the key. */
  lemma RecoveryGoesThrough(wallet: WalletId, current: DeviceKey, next: DeviceKey, request: Id32, cooling: int)
    requires 0 <= cooling
    ensures var w := Run(cooling, GoodRecovery(wallet, current, next, request, cooling));
      wallet in w.db.deviceKeys && w.db.deviceKeys[wallet] == next && request in w.db.requests && w.db.requests[request].status == Completed
  {
    hide Step, AssertionDigest;
    var es := GoodRecovery(wallet, current, next, request, cooling);
    assert es[..0] == [] && es[..8] == es;
    forall k | 0 <= k < 8 ensures Run(cooling, es[..k + 1]) == Step(Run(cooling, es[..k]), cooling, es[k]) {
      assert es[..k + 1][..k] == es[..k];
    }
    assert Run(cooling, es[..1]) == Step(Run(cooling, es[..0]), cooling, es[0]);
    assert Run(cooling, es[..2]) == Step(Run(cooling, es[..1]), cooling, es[1]);
    assert Run(cooling, es[..3]) == Step(Run(cooling, es[..2]), cooling, es[2]);
    assert Run(cooling, es[..4]) == Step(Run(cooling, es[..3]), cooling, es[3]);
    assert Run(cooling, es[..5]) == Step(Run(cooling, es[..4]), cooling, es[4]);
    assert Run(cooling, es[..6]) == Step(Run(cooling, es[..5]), cooling, es[5]);
    assert Run(cooling, es[..7]) == Step(Run(cooling, es[..6]), cooling, es[6]);
    assert Run(cooling, es[..8]) == Step(Run(cooling, es[..7]), cooling, es[7]);
    ApprovedAssertion(wallet, current, next, request, cooling);
    ApprovedRecoveryCompletes(Run(cooling, es[..5]), wallet, current, next, request, cooling);
  }

  // ---- what clients see, over whole runs ------------------------------------------------------------------

  /** In every reachable state and at every time, the pending list holds exactly the cooling or ready
      requests, none is lost for want of a ready time, and there is at most one. */
  lemma PendingIsExact(cooling: int, events: seq<Event>, wallet: WalletId, now: int)
    ensures var db := Run(cooling, events).db;
      && (forall r :: r in Pending(db, wallet, now) <==>
            && r in db.requests && db.requests[r].wallet == wallet
            && (StateOf(db.requests[r], now) == Ready || StateOf(db.requests[r], now).StillCooling?))
      && (forall r :: r in db.requests && db.requests[r].wallet == wallet && db.requests[r].status == Cooling && db.requests[r].expires >= now ==>
            r in Pending(db, wallet, now))
      && (forall a, b :: a in Pending(db, wallet, now) && b in Pending(db, wallet, now) ==> a == b)
  {
    hide Run;
    RunKeepsCooling(cooling, events);
  }

  /** Statuses only move forward from any point of a run to any later one, so a request that was
      cancelled, completed or expired never moves again. */
  lemma {:induction false} StatusesMoveForward(cooling: int, events: seq<Event>, k: int)
    requires 0 <= k <= |events|
    ensures Forward(Run(cooling, events[..k]).db.requests, Run(cooling, events).db.requests)
    decreases |events|
  {
    hide Step, Forward;
    if k == |events| {
      assert events[..k] == events;
      ForwardIsReflexive(Run(cooling, events).db.requests);
    } else {
      var init := events[..|events| - 1];
      assert init[..k] == events[..k];
      StatusesMoveForward(cooling, init, k);
      StepMovesOn(Run(cooling, init), cooling, events[|events| - 1]);
      ForwardIsTransitive(Run(cooling, events[..k]).db.requests, Run(cooling, init).db.requests, Run(cooling, events).db.requests);
    }
  }

  lemma ForwardIsReflexive(m: map<Id32, Request>)
    ensures Forward(m, m)
  {
  }

  // ---- what a call achieves, told by the history ---------------------------------------------------------------

  lemma PrefixRun(cooling: int, all: seq<Event>, k: int)
    requires 0 <= k < |all|
    ensures Run(cooling, all[..k + 1]) == Step(Run(cooling, all[..k]), cooling, all[k])
  {
    hide Step;
    assert all[..k + 1][..k] == all[..k];
  }

  /** The history only grows, and a key is only replaced for a cooling request of that wallet. */
  lemma StepGrowsHistory(w: World, cooling: int, e: Event)
    ensures var w' := Step(w, cooling, e);
      && w.history <= w'.history && |w'.history| <= |w.history| + 1
      && (|w'.history| > |w.history| && w'.history[|w.history|].KeyReplaced? ==> (
            && var x := w'.history[|w.history|];
            && x.request in w.db.requests && w.db.requests[x.request].wallet == x.wallet && w.db.requests[x.request].status == Cooling))
  {
    hide AssertionDigest, GrantDigest, Recent, Asked, StartSpec, Closed;
  }

  predicate HasEnded(s: Status) {
    s == Completed || s == Cancelled || s == Expired
  }

  /** A request that has ended stays exactly as it is, and its key is never put in afterwards. */
  lemma {:induction false} EndedForGood(cooling: int, all: seq<Event>, k: int, r: Id32)
    requires 0 <= k <= |all| && r in Run(cooling, all[..k]).db.requests && HasEnded(Run(cooling, all[..k]).db.requests[r].status)
    ensures var w, last := Run(cooling, all[..k]), Run(cooling, all);
      && r in last.db.requests && last.db.requests[r] == w.db.requests[r]
      && w.history <= last.history
      && forall n :: |w.history| <= n < |last.history| && last.history[n].KeyReplaced? ==> last.history[n].request != r
    decreases |all|
  {
    hide Step;
    if k == |all| {
      assert all[..k] == all;
    } else {
      var init := all[..|all| - 1];
      assert init[..k] == all[..k];
      EndedForGood(cooling, init, k, r);
      var w, w' := Run(cooling, init), Run(cooling, all);
      StepGrowsHistory(w, cooling, all[|all| - 1]);
      StepMovesOn(w, cooling, all[|all| - 1]);
      forall n | |Run(cooling, all[..k]).history| <= n < |w'.history| && w'.history[n].KeyReplaced? ensures w'.history[n].request != r {
        if n < |w.history| {
          assert w'.history[n] == w.history[n];
        }
      }
    }
  }

  /** A cancel in any run, whatever comes after: if the request is the wallet's and is waiting for its
      approval or cooling, it is cancelled, nothing else changes, and its key never gets in from then on.
      Otherwise the call changes nothing. */
  lemma CancelTakesEffect(cooling: int, all: seq<Event>, k: int)
    requires 0 <= k < |all| && all[k].Cancel?
    ensures var w, w', last := Run(cooling, all[..k]), Run(cooling, all[..k + 1]), Run(cooling, all);
      var r, wallet := all[k].request, all[k].wallet;
      if r in w.db.requests && w.db.requests[r].wallet == wallet && (w.db.requests[r].status.AwaitingAssertion? || w.db.requests[r].status.Cooling?)
      then
        && w'.history == w.history + [Withdrawn(r, wallet)] && w'.slips == w.slips && w'.db.(requests := w.db.requests) == w.db
        && w'.db.requests == w.db.requests[r := w.db.requests[r].(status := Cancelled)]
        && w'.history <= last.history && r in last.db.requests && last.db.requests[r].status == Cancelled
        && forall n :: |w.history| <= n < |last.history| && last.history[n].KeyReplaced? ==> last.history[n].request != r
      else w' == w
  {
    hide Run, Step;
    var w, w' := Run(cooling, all[..k]), Run(cooling, all[..k + 1]);
    PrefixRun(cooling, all, k);
    CancelStep(w, cooling, all[k].request, all[k].wallet);
    if w' != w {
      EndedForGood(cooling, all, k + 1, all[k].request);
    }
  }

  lemma CancelStep(w: World, cooling: int, r: Id32, wallet: WalletId)
    ensures var w' := Step(w, cooling, Cancel(r, wallet));
      if r in w.db.requests && w.db.requests[r].wallet == wallet && (w.db.requests[r].status.AwaitingAssertion? || w.db.requests[r].status.Cooling?)
      then
        && w'.history == w.history + [Withdrawn(r, wallet)] && w'.slips == w.slips && w'.db.(requests := w.db.requests) == w.db
        && w'.db.requests == w.db.requests[r := w.db.requests[r].(status := Cancelled)]
      else w' == w
  {
    hide CancelSpec;
    CancelAnswers(w.db, r, wallet);
    if CancelSpec(w.db, r, wallet).1 {
      assert CancelSpec(w.db, r, wallet).0.requests == w.db.requests[r := w.db.requests[r].(status := Cancelled)];
    }
  }

  /** The waiting time is over and the window after it is not. */
  predicate IsOver(r: Request, now: int) {
    r.status.Cooling? && r.ready.Some? && r.ready.value <= now <= r.expires
  }

  /** A completion in any run, whatever comes after: it replaces the key if and only if the wallet's request
      is cooling, its waiting time is over and its window is not. Then the wallet's other open requests are
      cancelled and their keys never get in, and neither does this one a second time; other wallets keep
      their requests and keys. Otherwise the call changes nothing. */
  lemma CompletionTakesEffect(cooling: int, all: seq<Event>, k: int)
    requires 0 <= k < |all| && all[k].Complete?
    ensures var w, w', last := Run(cooling, all[..k]), Run(cooling, all[..k + 1]), Run(cooling, all);
      var r, wallet, now := all[k].request, all[k].wallet, all[k].now;
      if r in w.db.requests && w.db.requests[r].wallet == wallet && IsOver(w.db.requests[r], now)
      then
        && w'.history == w.history + [KeyReplaced(r, wallet, w.db.requests[r].newKey, now)]
        && w'.db.deviceKeys == w.db.deviceKeys[wallet := w.db.requests[r].newKey]
        && r in last.db.requests && last.db.requests[r].status == Completed
        && (forall o :: o in w.db.requests && o != r && w.db.requests[o].wallet == wallet && !HasEnded(w.db.requests[o].status) ==>
              o in last.db.requests && last.db.requests[o].status == Cancelled)
        && (forall o :: o in w.db.requests && w.db.requests[o].wallet != wallet ==> o in w'.db.requests && w'.db.requests[o] == w.db.requests[o])
        && (forall n :: |w'.history| <= n < |last.history| && last.history[n].KeyReplaced? ==>
              last.history[n].request != r
              && !(last.history[n].request in w.db.requests && w.db.requests[last.history[n].request].wallet == wallet))
      else w' == w
  {
    hide Run, Step;
    var w, w', last := Run(cooling, all[..k]), Run(cooling, all[..k + 1]), Run(cooling, all);
    PrefixRun(cooling, all, k);
    CompletionStep(w, cooling, all[k].request, all[k].wallet, all[k].now);
    if w' != w {
      forall o | o in w.db.requests && w.db.requests[o].wallet == all[k].wallet
        ensures o in last.db.requests && last.db.requests[o] == w'.db.requests[o]
        ensures forall n :: |w'.history| <= n < |last.history| && last.history[n].KeyReplaced? ==> last.history[n].request != o
      {
        EndedForGood(cooling, all, k + 1, o);
      }
    }
  }

  lemma CompletionStep(w: World, cooling: int, r: Id32, wallet: WalletId, now: int)
    ensures var w' := Step(w, cooling, Complete(r, wallet, now));
      if r in w.db.requests && w.db.requests[r].wallet == wallet && IsOver(w.db.requests[r], now)
      then
        && w'.history == w.history + [KeyReplaced(r, wallet, w.db.requests[r].newKey, now)]
        && w'.db.deviceKeys == w.db.deviceKeys[wallet := w.db.requests[r].newKey]
        && r in w'.db.requests && w'.db.requests[r].status == Completed
        && (forall o :: o in w.db.requests ==> o in w'.db.requests)
        && (forall o :: o in w.db.requests && o != r && w.db.requests[o].wallet == wallet ==>
              w'.db.requests[o].status == if HasEnded(w.db.requests[o].status) then w.db.requests[o].status else Cancelled)
        && (forall o :: o in w.db.requests && w.db.requests[o].wallet != wallet ==> w'.db.requests[o] == w.db.requests[o])
      else w' == w
  {
    hide CompleteSpec;
    CompletionAnswers(w.db, r, wallet, now);
  }

  /** No grant serves two purposes: what a start of cooling and the opening of a reshare ask for is the same
      only for the same wallet and the same request or reshare; and a start of cooling asks for something only
      if the request is the wallet's own. */
  lemma GoalsShareNoGrant(db: Db, wallet: WalletId, goal: Goal, wallet': WalletId, goal': Goal)
    requires !goal.OpenSign? && !goal'.OpenSign?
    requires Asked(db, wallet, goal).Some? && Asked(db, wallet, goal) == Asked(db, wallet', goal')
    ensures wallet == wallet' && goal == goal'
    ensures goal.StartCooling? ==> goal.request in db.requests && db.requests[goal.request].wallet == wallet
  {
    hide AssertionDigest, GrantDigest;
    if goal.OpenReshare? && goal'.OpenReshare? {
      GrantDigestIsInjective(goal.publicKey, goal.id, goal'.publicKey, goal'.id);
    }
    if goal.StartCooling? && goal'.OpenReshare? {
      DigestsAreSeparate(wallet, db.requests[goal.request].newKey, goal.request, goal'.publicKey, goal'.id);
    }
    if goal.OpenReshare? && goal'.StartCooling? {
      DigestsAreSeparate(wallet', db.requests[goal'.request].newKey, goal'.request, goal.publicKey, goal.id);
    }
  }

  /** In every reachable state, told by what has happened: the handler gets its grant if and only if the
      operation it asks for was granted at most the grant's lifetime ago and was not consumed since. */
  lemma SpendSucceedsIff(cooling: int, events: seq<Event>, wallet: WalletId, goal: Goal, now: int)
    ensures var w, w' := Run(cooling, events), Step(Run(cooling, events), cooling, Spend(wallet, goal, now));
      var asked := Asked(w.db, wallet, goal);
      if asked.Some?
         && (exists g :: IsGrant(w.history, g, asked.value) && now <= w.history[g].now + AUTHORIZATION_TTL_SECONDS)
         && !(exists c :: IsConsumption(w.history, c, asked.value))
      then w'.history == w.history + [Consumed(asked.value, wallet, goal, now)] && w'.slips == w.slips[|w.history| := ToAct(wallet, goal)]
      else w' == w
  {
    hide Run, Asked, Rests, Once, Bound, Asks, SlipsOut, Finished, Used;
    RunKeepsGrants(cooling, events);
    var w := Run(cooling, events);
    var asked := Asked(w.db, wallet, goal);
    if asked.Some? && asked.value in w.db.grants {
      var g :| IsGrant(w.history, g, asked.value);
      assert StillSo(w.db, w.history[g]);
      forall o | IsGrant(w.history, o, asked.value) ensures w.history[o].now == w.history[g].now {
        assert StillSo(w.db, w.history[o]);
      }
      if c :| IsConsumption(w.history, c, asked.value) {
        assert StillSo(w.db, w.history[c]);
      }
    } else if asked.Some? {
      assert forall g :: IsGrant(w.history, g, asked.value) ==> StillSo(w.db, w.history[g]);
    }
  }

  /** In every reachable state: an assertion earns the right to a grant if and only if it verifies and its
      challenge was issued, at most the ceremony's lifetime ago, for an assertion by this wallet on exactly
      this tuple, and was not taken since. */
  lemma AssertionCountsIff(cooling: int, events: seq<Event>, challenge: ChallengeId, op: Operation, verified: bool, now: int)
    ensures var w, w' := Run(cooling, events), Step(Run(cooling, events), cooling, Finish(challenge, op, verified, now));
      var h := w.history;
      w'.history == h + [Taken(challenge, Some(op), now)] <==>
        && verified
        && (exists i :: IsIssue(h, i, challenge) && now <= h[i].now + CEREMONY_TTL_SECONDS
              && h[i] == Issued(challenge, op.wallet, Assert, ToOperation(op.purpose, op.id, op.digest), h[i].now))
        && !(exists t :: IsTaking(h, t, challenge))
  {
    hide Run, Rests, Once, Bound, Asks, SlipsOut, Spent, Used;
    RunKeepsGrants(cooling, events);
    var w := Run(cooling, events);
    var h := w.history;
    if challenge in w.db.challenges {
      var i :| IsIssue(h, i, challenge);
      assert StillSo(w.db, h[i]);
      forall o | IsIssue(h, o, challenge) ensures h[o] == h[i] {
        assert StillSo(w.db, h[o]);
      }
      if t :| IsTaking(h, t, challenge) {
        assert StillSo(w.db, h[t]);
      }
    } else {
      assert forall i :: IsIssue(h, i, challenge) ==> StillSo(w.db, h[i]);
    }
    var w' := Step(w, cooling, Finish(challenge, op, verified, now));
    if |w'.history| == |h| + 1 {
      assert w'.history[|h|] == Taken(challenge, Some(op), now) || w'.history[|h|] == Taken(challenge, None, now);
    }
  }

  /** How a request ended is what its state says, in every reachable state. */
  ghost predicate EndsInv(w: World) {
    && (forall n, r :: IsReplacement(w.history, n, r) ==> r in w.db.requests && w.db.requests[r].status == Completed)
    && (forall n, r :: IsWithdrawal(w.history, n, r) ==> r in w.db.requests && w.db.requests[r].status == Cancelled)
    && (forall r :: r in w.db.requests && w.db.requests[r].status == Completed ==> exists n :: IsReplacement(w.history, n, r))
    && (forall r :: r in w.db.requests && w.db.requests[r].status == Cancelled ==>
          exists n :: EndsAt(w.history, n, r, w.db.requests[r].wallet))
  }

  predicate IsReplacement(h: seq<Entry>, n: int, r: Id32) {
    0 <= n < |h| && h[n].KeyReplaced? && h[n].request == r
  }

  predicate IsWithdrawal(h: seq<Entry>, n: int, r: Id32) {
    0 <= n < |h| && h[n].Withdrawn? && h[n].request == r
  }

  predicate EndsAt(h: seq<Entry>, n: int, r: Id32, wallet: WalletId) {
    0 <= n < |h| && Ends(h[n], r, wallet)
  }

  /** A step ends a row exactly when it leaves the entry that says so. */
  ghost predicate EndsProperly(w: World, w': World) {
    var n := |w.history|;
    && w.history <= w'.history && |w'.history| <= n + 1 && Forward(w.db.requests, w'.db.requests)
    && (forall r :: IsReplacement(w'.history, n, r) ==> r in w'.db.requests && w'.db.requests[r].status == Completed)
    && (forall r :: IsWithdrawal(w'.history, n, r) ==> r in w'.db.requests && w'.db.requests[r].status == Cancelled)
    && (forall r :: r in w'.db.requests && w'.db.requests[r].status == Completed ==>
          (r in w.db.requests && w.db.requests[r].status == Completed) || IsReplacement(w'.history, n, r))
    && (forall r :: r in w'.db.requests && w'.db.requests[r].status == Cancelled ==>
          (r in w.db.requests && w.db.requests[r].status == Cancelled) || EndsAt(w'.history, n, r, w'.db.requests[r].wallet))
  }

  lemma StepEndsProperly(w: World, cooling: int, e: Event)
    ensures EndsProperly(w, Step(w, cooling, e))
  {
    hide Step, EndsProperly;
    match e
    case Create(request, wallet, key, now) => CreateEndsProperly(w, cooling, request, wallet, key, now);
    case Use(slip, now) => UseEndsProperly(w, cooling, slip, now);
    case Complete(request, wallet, now) => CompleteEndsProperly(w, cooling, request, wallet, now);
    case Cancel(request, wallet) => CancelEndsProperly(w, cooling, request, wallet);
    case _ => OtherStepsEndProperly(w, cooling, e);
  }

  lemma CreateEndsProperly(w: World, cooling: int, r: Id32, wallet: WalletId, key: DeviceKey, now: int)
    ensures EndsProperly(w, Step(w, cooling, Create(r, wallet, key, now)))
  {
    hide CreateSpec, Forward;
    StepMovesOn(w, cooling, Create(r, wallet, key, now));
    CreationAnswers(w.db, r, wallet, key, REQUEST_TTL_SECONDS, MAX_REQUESTS_PER_HOUR, now);
  }

  lemma CancelEndsProperly(w: World, cooling: int, r: Id32, wallet: WalletId)
    ensures EndsProperly(w, Step(w, cooling, Cancel(r, wallet)))
  {
    hide CancelSpec, Forward;
    StepMovesOn(w, cooling, Cancel(r, wallet));
    CancelAnswers(w.db, r, wallet);
  }

  lemma CompleteEndsProperly(w: World, cooling: int, r: Id32, wallet: WalletId, now: int)
    ensures EndsProperly(w, Step(w, cooling, Complete(r, wallet, now)))
  {
    hide CompleteSpec, Forward;
    StepMovesOn(w, cooling, Complete(r, wallet, now));
    CompletionAnswers(w.db, r, wallet, now);
  }

  lemma UseEndsProperly(w: World, cooling: int, slip: int, now: int)
    ensures EndsProperly(w, Step(w, cooling, Use(slip, now)))
  {
    hide Used, Forward;
    StepMovesOn(w, cooling, Use(slip, now));
    if slip in w.slips {
      UseEndsNothing(w, cooling, slip, now);
    }
  }

  lemma OtherStepsEndProperly(w: World, cooling: int, e: Event)
    requires e.Register? || e.Issue? || e.Finish? || e.Spend?
    ensures EndsProperly(w, Step(w, cooling, e))
  {
    hide AssertionDigest, GrantDigest, Asked, Forward;
    StepMovesOn(w, cooling, e);
  }

  lemma UseEndsNothing(w: World, cooling: int, slip: int, now: int)
    requires slip in w.slips
    ensures var w' := Used(w, cooling, slip, now);
      && w.history <= w'.history && |w'.history| <= |w.history| + 1 && w'.db.requests.Keys == w.db.requests.Keys
      && (|w'.history| > |w.history| ==> !w'.history[|w.history|].KeyReplaced? && !w'.history[|w.history|].Withdrawn?)
      && (forall r :: r in w'.db.requests && (w'.db.requests[r].status == Completed || w'.db.requests[r].status == Cancelled) ==>
            w'.db.requests[r] == w.db.requests[r])
  {
    hide StartSpec;
    if w.slips[slip].ToAct? && w.slips[slip].goal.StartCooling? {
      StartAnswers(w.db, w.slips[slip].goal.request, w.slips[slip].wallet, cooling, COMPLETE_WINDOW_SECONDS, now);
    }
  }

  lemma StepKeepsEnds(w: World, w': World)
    requires EndsInv(w) && EndsProperly(w, w')
    ensures EndsInv(w')
  {
    hide Ends;
    var h, h' := w.history, w'.history;
    forall n, r | IsReplacement(h', n, r) ensures r in w'.db.requests && w'.db.requests[r].status == Completed {
      if n < |h| {
        assert IsReplacement(h, n, r);
      }
    }
    forall n, r | IsWithdrawal(h', n, r) ensures r in w'.db.requests && w'.db.requests[r].status == Cancelled {
      if n < |h| {
        assert IsWithdrawal(h, n, r);
      }
    }
    forall r | r in w'.db.requests && w'.db.requests[r].status == Completed ensures exists n :: IsReplacement(h', n, r) {
      if r in w.db.requests && w.db.requests[r].status == Completed {
        var n :| IsReplacement(h, n, r);
        assert IsReplacement(h', n, r);
      }
    }
    forall r | r in w'.db.requests && w'.db.requests[r].status == Cancelled ensures exists n :: EndsAt(h', n, r, w'.db.requests[r].wallet) {
      if r in w.db.requests && w.db.requests[r].status == Cancelled {
        var n :| EndsAt(h, n, r, w.db.requests[r].wallet);
        assert EndsAt(h', n, r, w'.db.requests[r].wallet);
      }
    }
  }

  lemma {:induction false} RunKeepsEnds(cooling: int, events: seq<Event>)
    ensures EndsInv(Run(cooling, events))
  {
    hide Step, EndsProperly, EndsInv;
    if events == [] {
      assert EndsInv(Empty) by {
        NothingHasEnded();
      }
    } else {
      RunKeepsEnds(cooling, events[..|events| - 1]);
      StepEndsProperly(Run(cooling, events[..|events| - 1]), cooling, events[|events| - 1]);
      StepKeepsEnds(Run(cooling, events[..|events| - 1]), Run(cooling, events));
    }
  }

  lemma NothingHasEnded()
    ensures EndsInv(Empty)
  {
  }

  /** In every reachable state and at every time, the state a client is told says how the request ended: it
      is completed if and only if its key was put in; it is cancelled if it was withdrawn, and only if it
      was withdrawn or another key was put in for its wallet; and it has expired only if neither happened,
      and only if its time is up or a later start found it so. */
  lemma StateTellsTheEnd(cooling: int, events: seq<Event>, r: Id32, now: int)
    requires r in Run(cooling, events).db.requests
    ensures var h, row := Run(cooling, events).history, Run(cooling, events).db.requests[r];
      && (StateOf(row, now) == IsCompleted <==> exists n :: IsReplacement(h, n, r))
      && (StateOf(row, now) == IsCancelled ==> exists n :: EndsAt(h, n, r, row.wallet) && !IsReplacement(h, n, r))
      && ((exists n :: IsWithdrawal(h, n, r)) ==> StateOf(row, now) == IsCancelled)
      && (StateOf(row, now) == IsExpired <==> row.status == Expired || (!HasEnded(row.status) && row.expires < now))
      && (StateOf(row, now) == StillAwaiting <==> row.status == AwaitingAssertion && now <= row.expires)
      && (StateOf(row, now) == Ready <==> IsOver(row, now))
  {
    hide Run, Ends;
    RunKeepsEnds(cooling, events);
    RunKeepsCooling(cooling, events);
    var h, row := Run(cooling, events).history, Run(cooling, events).db.requests[r];
    if row.status == Cancelled {
      var n :| EndsAt(h, n, r, row.wallet);
      assert !IsReplacement(h, n, r);
    }
  }

  // ---- the rate limiter ---------------------------------------------------------------------------------------

  /** The wallet's requests created within the hour that ends at `t`. */
  function Window(requests: map<Id32, Request>, wallet: WalletId, t: int): set<Id32> {
    set r | r in requests && requests[r].wallet == wallet && t - 3600 <= requests[r].created <= t
  }

  ghost predicate WindowsHold(requests: map<Id32, Request>, limit: int) {
    forall wallet, t :: |Window(requests, wallet, t)| <= limit
  }

  /** For any limit and any clock reading, forward or backward. */
  lemma CreateKeepsWindows(db: Db, id: Id32, wallet: WalletId, key: DeviceKey, ttl: int, maxPerHour: int, now: int)
    requires WindowsHold(db.requests, if maxPerHour > 0 then maxPerHour else 0)
    ensures WindowsHold(CreateSpec(db, id, wallet, key, ttl, maxPerHour, now).0.requests, if maxPerHour > 0 then maxPerHour else 0)
  {
    hide Window, Recent;
    var (db', r) := CreateSpec(db, id, wallet, key, ttl, maxPerHour, now);
    if r == Recorded {
      forall w, t ensures |Window(db'.requests, w, t)| <= if maxPerHour > 0 then maxPerHour else 0 {
        InsertInWindow(db.requests, id, Request(wallet, AwaitingAssertion, key, now, now + ttl, None), w, t);
      }
    }
  }

  /** A window the new row falls into holds, besides it, only rows that the limiter has counted. */
  lemma InsertInWindow(requests: map<Id32, Request>, id: Id32, row: Request, wallet: WalletId, t: int)
    requires id !in requests
    ensures var after := |Window(requests[id := row], wallet, t)|;
      after == |Window(requests, wallet, t)| || after <= |Recent(requests, row.wallet, row.created - 3600)| + 1
  {
    var before, after := Window(requests, wallet, t), Window(requests[id := row], wallet, t);
    if id in after {
      assert before <= Recent(requests, row.wallet, row.created - 3600);
      SubsetIsSmaller(before, Recent(requests, row.wallet, row.created - 3600));
      assert after == before + {id};
    } else {
      assert after == before;
    }
  }

  lemma {:induction false} SubsetIsSmaller(a: set<Id32>, b: set<Id32>)
    requires a <= b
    ensures |a| <= |b|
  {
    if a != {} {
      var x :| x in a;
      SubsetIsSmaller(a - {x}, b - {x});
    }
  }

  /** Moving rows forward keeps every window: neither the wallet nor the time of creation changes. */
  lemma WindowsDependOnCreation(before: map<Id32, Request>, after: map<Id32, Request>, limit: int)
    requires Forward(before, after) && after.Keys == before.Keys && WindowsHold(before, limit)
    ensures WindowsHold(after, limit)
  {
    forall w, t ensures |Window(after, w, t)| <= limit {
      assert Window(after, w, t) == Window(before, w, t);
    }
  }

  /** For every sequence of requests and any clock readings, every hour holds at most five requests of
      a wallet. */
  lemma {:induction false} EveryHourHoldsAtMostFive(cooling: int, events: seq<Event>)
    ensures WindowsHold(Run(cooling, events).db.requests, MAX_REQUESTS_PER_HOUR)
  {
    hide Step, Forward;
    if events == [] {
      forall w: WalletId, t: int ensures |Window(Run(cooling, events).db.requests, w, t)| <= MAX_REQUESTS_PER_HOUR {
        assert Window(Run(cooling, events).db.requests, w, t) == {};
      }
    } else {
      var init, e := events[..|events| - 1], events[|events| - 1];
      EveryHourHoldsAtMostFive(cooling, init);
      var w := Run(cooling, init);
      if e.Create? {
        CreateKeepsWindows(w.db, e.request, e.wallet, e.key, REQUEST_TTL_SECONDS, MAX_REQUESTS_PER_HOUR, e.now);
        CreateStep(w, cooling, e);
      } else {
        StepMovesOn(w, cooling, e);
        RowsAreOnlyCreated(w, cooling, e);
        WindowsDependOnCreation(w.db.requests, Step(w, cooling, e).db.requests, MAX_REQUESTS_PER_HOUR);
      }
    }
  }

  lemma CreateStep(w: World, cooling: int, e: Event)
    requires e.Create?
    ensures Step(w, cooling, e).db == CreateSpec(w.db, e.request, e.wallet, e.key, REQUEST_TTL_SECONDS, MAX_REQUESTS_PER_HOUR, e.now).0
  {
    hide Recent;
  }

  lemma RowsAreOnlyCreated(w: World, cooling: int, e: Event)
    requires !e.Create?
    ensures Step(w, cooling, e).db.requests.Keys == w.db.requests.Keys
  {
    hide AssertionDigest, GrantDigest, Asked, Used, Finished, Spent;
    match e
    case Finish(challenge, op, verified, now) => FinishMovesOn(w, challenge, op, verified, now);
    case Spend(wallet, goal, now) => SpendMovesOn(w, wallet, goal, now);
    case Use(slip, now) =>
      if slip in w.slips {
        if w.slips[slip].ToAct? && w.slips[slip].goal.StartCooling? {
          UseKeepsRows(w, cooling, slip, now);
        } else {
          OtherUses(w, cooling, slip, now);
        }
      }
    case _ =>
  }

  lemma UseKeepsRows(w: World, cooling: int, slip: int, now: int)
    requires slip in w.slips && w.slips[slip].ToAct? && w.slips[slip].goal.StartCooling?
    ensures Used(w, cooling, slip, now).db.requests.Keys == w.db.requests.Keys
  {
    hide StartSpec, CoolingClash;
    StartAnswers(w.db, w.slips[slip].goal.request, w.slips[slip].wallet, cooling, COMPLETE_WINDOW_SECONDS, now);
  }
}
