/** The recovery tables and their transactions (crates/mpc-server/src/store.rs). Each transaction reads
    one clock value; leaving it early rolls everything back. */
module RecoveryStore {
  import opened Prelude
  import opened Digests

  const REQUEST_TTL_SECONDS := 900
  const COMPLETE_WINDOW_SECONDS := 72 * 3600
  const MAX_REQUESTS_PER_HOUR := 5
  const CEREMONY_TTL_SECONDS := 300
  const AUTHORIZATION_TTL_SECONDS := 300

  datatype Status = AwaitingAssertion | Cooling | Completed | Cancelled | Expired

  datatype Request = Request(wallet: WalletId, status: Status, newKey: DeviceKey, created: int, expires: int, ready: Option<int>)

  datatype Purpose = ForSign | ForRecovery

  /** What one grant authorizes. The table holds each tuple at most once, ever. */
  datatype Operation = Operation(wallet: WalletId, purpose: Purpose, id: Id32, digest: Digest)

  datatype Grant = Grant(expires: int, consumed: bool)

  datatype Ceremony = Assert | Register

  datatype Binding = ToOperation(purpose: Purpose, id: Id32, digest: Digest) | ToRegistration | ToManagement

  datatype Challenge = Challenge(wallet: WalletId, ceremony: Ceremony, binding: Binding, expires: int, used: bool)

  type ChallengeId = int

  datatype Db = Db(
    requests: map<Id32, Request>,
    deviceKeys: map<WalletId, DeviceKey>,
    grants: map<Operation, Grant>,
    challenges: map<ChallengeId, Challenge>)

  datatype Creation = Recorded | OverLimit | Collision
  datatype CoolingStart = Started(ready: int) | AnotherCooling | NotAwaiting
  datatype Completion = Done | NotReady(ready: int) | Gone

  // ---- the specification of each transaction -------------------------------------------------------

  /** The wallet's requests created since a moment, the future included. */
  function Recent(requests: map<Id32, Request>, wallet: WalletId, since: int): set<Id32> {
    set r | r in requests && requests[r].wallet == wallet && requests[r].created >= since
  }

  function CreateSpec(db: Db, id: Id32, wallet: WalletId, key: DeviceKey, ttl: int, maxPerHour: int, now: int): (Db, Creation) {
    if |Recent(db.requests, wallet, now - 3600)| >= maxPerHour then (db, OverLimit)
    else if id in db.requests then (db, Collision)
    else (db.(requests := db.requests[id := Request(wallet, AwaitingAssertion, key, now, now + ttl, None)]), Recorded)
  }

  /** Lapsed cooling requests of the wallet become expired. */
  function Swept(requests: map<Id32, Request>, wallet: WalletId, now: int): map<Id32, Request> {
    map r | r in requests ::
      if requests[r].wallet == wallet && requests[r].status == Cooling && requests[r].expires < now
      then requests[r].(status := Expired) else requests[r]
  }

  /** The unique index over cooling requests would be violated for this wallet. */
  predicate CoolingClash(requests: map<Id32, Request>, id: Id32)
    requires id in requests
  {
    exists o :: o in requests && o != id && requests[o].wallet == requests[id].wallet && requests[o].status == Cooling
  }

  predicate AwaitsAssertion(requests: map<Id32, Request>, id: Id32, wallet: WalletId, now: int) {
    id in requests && requests[id].wallet == wallet && requests[id].status == AwaitingAssertion && requests[id].expires >= now
  }

  function CoolingRow(r: Request, ready: int, window: int): Request {
    r.(status := Cooling, ready := Some(ready), expires := ready + window)
  }

  function StartSpec(db: Db, id: Id32, wallet: WalletId, cooling: int, window: int, now: int): (Db, CoolingStart) {
    var swept := Swept(db.requests, wallet, now);
    if !AwaitsAssertion(swept, id, wallet, now) then (db, NotAwaiting)
    else
      var updated := swept[id := CoolingRow(swept[id], now + cooling, window)];
      if CoolingClash(updated, id) then (db, AnotherCooling)
      else (db.(requests := updated), Started(now + cooling))
  }

  predicate IsOpen(s: Status) {
    s == AwaitingAssertion || s == Cooling
  }

  /** The request is completed, and every other open request of its wallet is cancelled. */
  function Closed(requests: map<Id32, Request>, id: Id32, wallet: WalletId): map<Id32, Request> {
    map r | r in requests ::
      if r == id then requests[r].(status := Completed)
      else if requests[r].wallet == wallet && IsOpen(requests[r].status) then requests[r].(status := Cancelled)
      else requests[r]
  }

  function CompleteSpec(db: Db, id: Id32, wallet: WalletId, now: int): (Db, Completion) {
    if id !in db.requests || db.requests[id].wallet != wallet then (db, Gone)
    else
      var r := db.requests[id];
      if r.ready.None? then (db, Gone)
      else if r.status != Cooling || r.expires < now then (db, Gone)
      else if r.ready.value > now then (db, NotReady(r.ready.value))
      else (db.(deviceKeys := db.deviceKeys[wallet := r.newKey], requests := Closed(db.requests, id, wallet)), Done)
  }

  function CancelSpec(db: Db, id: Id32, wallet: WalletId): (Db, bool) {
    if id in db.requests && db.requests[id].wallet == wallet && IsOpen(db.requests[id].status)
    then (db.(requests := db.requests[id := db.requests[id].(status := Cancelled)]), true)
    else (db, false)
  }

  function RegisterSpec(db: Db, wallet: WalletId, key: DeviceKey): (Db, bool) {
    if wallet in db.deviceKeys then (db, false)
    else (db.(deviceKeys := db.deviceKeys[wallet := key]), true)
  }

  function PutChallengeSpec(db: Db, id: ChallengeId, wallet: WalletId, ceremony: Ceremony, binding: Binding, ttl: int, now: int): (Db, bool) {
    if id in db.challenges then (db, false)
    else (db.(challenges := db.challenges[id := Challenge(wallet, ceremony, binding, now + ttl, false)]), true)
  }

  /** Claims a challenge and returns what it was issued for. */
  function TakeChallengeSpec(db: Db, id: ChallengeId, wallet: WalletId, ceremony: Ceremony, now: int): (Db, Option<Binding>) {
    if id in db.challenges && var c := db.challenges[id]; c.wallet == wallet && c.ceremony == ceremony && !c.used && c.expires >= now
    then (db.(challenges := db.challenges[id := db.challenges[id].(used := true)]), Some(db.challenges[id].binding))
    else (db, None)
  }

  /** The unique constraint refuses a second grant for the same tuple, spent or not. */
  function PutGrantSpec(db: Db, op: Operation, ttl: int, now: int): (Db, bool) {
    if op in db.grants then (db, false)
    else (db.(grants := db.grants[op := Grant(now + ttl, false)]), true)
  }

  function ConsumeSpec(db: Db, op: Operation, now: int): (Db, bool) {
    if op in db.grants && !db.grants[op].consumed && db.grants[op].expires >= now
    then (db.(grants := db.grants[op := db.grants[op].(consumed := true)]), true)
    else (db, false)
  }

  // ---- the store -----------------------------------------------------------------------------------

  class Store {
    var requests: map<Id32, Request>
    var deviceKeys: map<WalletId, DeviceKey>
    var grants: map<Operation, Grant>
    var challenges: map<ChallengeId, Challenge>

    ghost function Tables(): Db
      reads this
    {
      Db(requests, deviceKeys, grants, challenges)
    }

    constructor ()
      ensures Tables() == Db(map[], map[], map[], map[])
    {
      requests, deviceKeys, grants, challenges := map[], map[], map[], map[];
    }

    method CreateRecoveryRequest(id: Id32, wallet: WalletId, key: DeviceKey, ttl: int, maxPerHour: int, now: int) returns (r: Creation)
      modifies this
      ensures (Tables(), r) == CreateSpec(old(Tables()), id, wallet, key, ttl, maxPerHour, now)
    {
      var recent := |Recent(requests, wallet, now - 3600)|;
      if recent >= maxPerHour {
        return OverLimit;
      }
      if id in requests {
        return Collision;
      }
      requests := requests[id := Request(wallet, AwaitingAssertion, key, now, now + ttl, None)];
      r := Recorded;
    }

    method StartRecoveryCooling(id: Id32, wallet: WalletId, cooling: int, window: int, now: int) returns (r: CoolingStart)
      modifies this
      ensures (Tables(), r) == StartSpec(old(Tables()), id, wallet, cooling, window, now)
    {
      var begin := requests;
      var ready := now + cooling;
      requests := Swept(requests, wallet, now);
      var matching := AwaitsAssertion(requests, id, wallet, now);
      if matching {
        requests := requests[id := CoolingRow(requests[id], ready, window)];
        if CoolingClash(requests, id) {
          requests := begin;
          return AnotherCooling;
        }
      }
      if !matching {
        requests := begin;
        return NotAwaiting;
      }
      r := Started(ready);
    }

    method CompleteRecovery(id: Id32, wallet: WalletId, now: int) returns (r: Completion)
      modifies this
      ensures (Tables(), r) == CompleteSpec(old(Tables()), id, wallet, now)
    {
      if id !in requests || requests[id].wallet != wallet {
        return Gone;
      }
      var row := requests[id];
      if row.ready.None? {
        return Gone;
      }
      if row.status != Cooling || row.expires < now {
        return Gone;
      }
      if row.ready.value > now {
        return NotReady(row.ready.value);
      }
      deviceKeys := deviceKeys[wallet := row.newKey];
      requests := requests[id := row.(status := Completed)];
      requests := map r | r in requests ::
        if requests[r].wallet == wallet && r != id && IsOpen(requests[r].status) then requests[r].(status := Cancelled) else requests[r];
      assert requests == Closed(old(requests), id, wallet);
      r := Done;
    }

    method CancelRecovery(id: Id32, wallet: WalletId) returns (cancelled: bool)
      modifies this
      ensures (Tables(), cancelled) == CancelSpec(old(Tables()), id, wallet)
    {
      if id !in requests || requests[id].wallet != wallet || !IsOpen(requests[id].status) {
        return false;
      }
      requests := requests[id := requests[id].(status := Cancelled)];
      cancelled := true;
    }

    method RegisterDeviceKey(wallet: WalletId, key: DeviceKey) returns (registered: bool)
      modifies this
      ensures (Tables(), registered) == RegisterSpec(old(Tables()), wallet, key)
    {
      registered := wallet !in deviceKeys;
      if registered {
        deviceKeys := deviceKeys[wallet := key];
      }
    }

    method PutPasskeyChallenge(id: ChallengeId, wallet: WalletId, ceremony: Ceremony, binding: Binding, ttl: int, now: int) returns (stored: bool)
      modifies this
      ensures (Tables(), stored) == PutChallengeSpec(old(Tables()), id, wallet, ceremony, binding, ttl, now)
    {
      stored := id !in challenges;
      if stored {
        challenges := challenges[id := Challenge(wallet, ceremony, binding, now + ttl, false)];
      }
    }

    method TakePasskeyChallenge(id: ChallengeId, wallet: WalletId, ceremony: Ceremony, now: int) returns (binding: Option<Binding>)
      modifies this
      ensures (Tables(), binding) == TakeChallengeSpec(old(Tables()), id, wallet, ceremony, now)
    {
      binding := None;
      if id in challenges {
        var c := challenges[id];
        if c.wallet == wallet && c.ceremony == ceremony && !c.used && c.expires >= now {
          challenges := challenges[id := c.(used := true)];
          binding := Some(c.binding);
        }
      }
    }

    method PutPasskeyAuthorization(op: Operation, ttl: int, now: int) returns (stored: bool)
      modifies this
      ensures (Tables(), stored) == PutGrantSpec(old(Tables()), op, ttl, now)
    {
      stored := op !in grants;
      if stored {
        grants := grants[op := Grant(now + ttl, false)];
      }
    }

    method ConsumePasskeyAuthorization(op: Operation, now: int) returns (consumed: bool)
      modifies this
      ensures (Tables(), consumed) == ConsumeSpec(old(Tables()), op, now)
    {
      consumed := false;
      if op in grants {
        var grant := grants[op];
        if !grant.consumed && grant.expires >= now {
          grants := grants[op := grant.(consumed := true)];
          consumed := true;
        }
      }
    }

    /** The recoveries past their assertion and still in play, oldest first. */
    method LiveRecoveries(wallet: WalletId, now: int) returns (live: seq<Id32>)
      ensures forall r :: r in live <==>
        r in requests && requests[r].wallet == wallet && requests[r].status == Cooling && requests[r].expires >= now
      ensures forall i, j :: 0 <= i < j < |live| ==> live[i] != live[j] && requests[live[i]].created <= requests[live[j]].created
    {
      live := [];
      var rest := set r | r in requests && requests[r].wallet == wallet && requests[r].status == Cooling && requests[r].expires >= now;
      ghost var all := rest;
      while rest != {}
        invariant rest <= all && forall r :: r in all <==> r in rest || r in live
        invariant forall i :: 0 <= i < |live| ==> live[i] in all && live[i] !in rest
        invariant forall i, o :: 0 <= i < |live| && o in rest ==> requests[live[i]].created <= requests[o].created
        invariant forall i, j :: 0 <= i < j < |live| ==> live[i] != live[j] && requests[live[i]].created <= requests[live[j]].created
        decreases |rest|
      {
        ghost var oldest := OldestExists(requests, rest);
        var r :| r in rest && IsOldest(requests, rest, r);
        var longer := live + [r];
        forall i, o | 0 <= i < |longer| && o in rest ensures requests[longer[i]].created <= requests[o].created {
          if i == |live| {
            assert longer[i] == r && IsOldest(requests, rest, r);
          } else {
            assert longer[i] == live[i];
          }
        }
        live, rest := longer, rest - {r};
      }
    }
  }

  predicate IsOldest(requests: map<Id32, Request>, ids: set<Id32>, r: Id32)
    requires forall o :: o in ids ==> o in requests
  {
    r in ids && forall o :: o in ids ==> requests[r].created <= requests[o].created
  }

  lemma {:induction false} OldestExists(requests: map<Id32, Request>, ids: set<Id32>) returns (r: Id32)
    requires ids != {} && forall o :: o in ids ==> o in requests
    ensures IsOldest(requests, ids, r)
    decreases |ids|
  {
    r :| r in ids;
    var others := ids - {r};
    if others == {} {
      assert forall o :: o in ids ==> o == r || o in others;
    } else {
      var y := OldestExists(requests, others);
      OldestOfTwo(requests, others, r, y);
      assert ids == others + {r};
      r := if requests[r].created <= requests[y].created then r else y;
    }
  }

  lemma OldestOfTwo(requests: map<Id32, Request>, others: set<Id32>, x: Id32, y: Id32)
    requires x in requests && (forall o :: o in others ==> o in requests) && IsOldest(requests, others, y)
    ensures IsOldest(requests, others + {x}, if requests[x].created <= requests[y].created then x else y)
  {
  }

  // ---- what the handlers report ----------------------------------------------------------------------

  datatype RecoveryState = StillAwaiting | StillCooling(readyAt: int) | Ready | IsCompleted | IsCancelled | IsExpired

  /** The state a request is in, as of now. */
  function StateOf(r: Request, now: int): RecoveryState {
    match r.status
    case AwaitingAssertion => if r.expires >= now then StillAwaiting else IsExpired
    case Cooling =>
      if r.expires >= now then
        match r.ready
        case Some(ready) => if ready <= now then Ready else StillCooling(ready)
        case None => IsExpired
      else IsExpired
    case Completed => IsCompleted
    case Cancelled => IsCancelled
    case Expired => IsExpired
  }

  /** What `pending` shows: the live recoveries that carry a ready time. */
  function Pending(db: Db, wallet: WalletId, now: int): set<Id32> {
    set r | r in db.requests && db.requests[r].wallet == wallet && db.requests[r].status == Cooling
            && db.requests[r].expires >= now && db.requests[r].ready.Some?
  }

  /** What a client is told is what the next transaction does, for every row and every time. */
  lemma StateForetellsAnswers(db: Db, id: Id32, now: int, cooling: int, window: int)
    requires id in db.requests
    ensures var r := db.requests[id];
      var state, completion, start := StateOf(r, now), CompleteSpec(db, id, r.wallet, now).1, StartSpec(db, id, r.wallet, cooling, window, now).1;
      && (state == Ready <==> completion == Done)
      && (forall t :: state == StillCooling(t) <==> completion == NotReady(t))
      && (state != Ready && !state.StillCooling? <==> completion == Gone)
      && (state == StillAwaiting <==> start != NotAwaiting)
      && (id in Pending(db, r.wallet, now) <==> state == Ready || state.StillCooling?)
  {
  }

  /** A request is recorded if and only if its id is new and the wallet has fewer than the limit from the
      last hour on; the limit is asked first, and a refusal changes nothing. */
  lemma CreationAnswers(db: Db, id: Id32, wallet: WalletId, key: DeviceKey, ttl: int, maxPerHour: int, now: int)
    ensures var (db', answer) := CreateSpec(db, id, wallet, key, ttl, maxPerHour, now);
      var recent := |set r | r in db.requests && db.requests[r].wallet == wallet && now - 3600 <= db.requests[r].created|;
      && (answer == OverLimit <==> maxPerHour <= recent)
      && (answer == Recorded <==> recent < maxPerHour && id !in db.requests)
      && (answer != Recorded ==> db' == db)
      && (answer == Recorded ==> (
            && id in db'.requests && db'.requests - {id} == db.requests && db'.(requests := db.requests) == db
            && db'.requests[id] == Request(wallet, AwaitingAssertion, key, now, now + ttl, None)))
  {
    assert (set r | r in db.requests && db.requests[r].wallet == wallet && now - 3600 <= db.requests[r].created)
        == Recent(db.requests, wallet, now - 3600);
  }

  /** The key is replaced if and only if the wallet's request is cooling, past its ready time and not past
      its end. Then this row is completed, the wallet's other open ones are cancelled, and no other row and
      no other wallet's key is touched. Otherwise nothing changes. */
  lemma CompletionAnswers(db: Db, id: Id32, wallet: WalletId, now: int)
    ensures var (db', answer) := CompleteSpec(db, id, wallet, now);
      && (answer == Done <==>
            && id in db.requests && db.requests[id].wallet == wallet && db.requests[id].status == Cooling
            && db.requests[id].ready.Some? && db.requests[id].ready.value <= now <= db.requests[id].expires)
      && (answer != Done ==> db' == db)
      && (answer == Done ==> (
            && db'.deviceKeys == db.deviceKeys[wallet := db.requests[id].newKey]
            && db'.grants == db.grants && db'.challenges == db.challenges && db'.requests.Keys == db.requests.Keys
            && db'.requests[id] == db.requests[id].(status := Completed)
            && (forall o :: o in db.requests && o != id ==>
                  db'.requests[o] ==
                    if db.requests[o].wallet == wallet && (db.requests[o].status.AwaitingAssertion? || db.requests[o].status.Cooling?)
                    then db.requests[o].(status := Cancelled) else db.requests[o])))
  {
  }

  /** A cancel succeeds if and only if the wallet's request is awaiting or cooling. It cancels that row and
      touches nothing else. */
  lemma CancelAnswers(db: Db, id: Id32, wallet: WalletId)
    ensures var (db', ok) := CancelSpec(db, id, wallet);
      && (ok <==> id in db.requests && db.requests[id].wallet == wallet
                  && (db.requests[id].status.AwaitingAssertion? || db.requests[id].status.Cooling?))
      && (!ok ==> db' == db)
      && (ok ==> (
            && db'.(requests := db.requests) == db && db'.requests.Keys == db.requests.Keys
            && db'.requests[id] == db.requests[id].(status := Cancelled)
            && forall o :: o in db.requests && o != id ==> db'.requests[o] == db.requests[o]))
  {
  }

  /** A wallet never has two requests cooling. */
  ghost predicate OneCooling(requests: map<Id32, Request>) {
    forall a, b :: (
      && a in requests && b in requests && requests[a].wallet == requests[b].wallet
      && requests[a].status == Cooling && requests[b].status == Cooling) ==> a == b
  }

  /** The wallet's request, not yet approved and not lapsed. */
  predicate IsWaiting(requests: map<Id32, Request>, id: Id32, wallet: WalletId, now: int) {
    && id in requests && requests[id].wallet == wallet
    && requests[id].status.AwaitingAssertion? && now <= requests[id].expires
  }

  /** Every answer but `Started` changes nothing, the sweep included; and another cooling request is
      reported exactly when this one is awaiting and unlapsed and a different unlapsed one is cooling. */
  lemma StartAnswers(db: Db, id: Id32, wallet: WalletId, cooling: int, window: int, now: int)
    ensures var (db', answer) := StartSpec(db, id, wallet, cooling, window, now);
      && (!answer.Started? ==> db' == db)
      && (answer == AnotherCooling <==>
            IsWaiting(db.requests, id, wallet, now)
            && exists o :: o in db.requests && o != id && db.requests[o].wallet == wallet
                           && db.requests[o].status == Cooling && db.requests[o].expires >= now)
      && (answer == NotAwaiting <==> !IsWaiting(db.requests, id, wallet, now))
      && (answer.Started? ==> (
            && answer.ready == now + cooling && id in db'.requests
            && db'.requests[id]
               == Request(wallet, Cooling, db.requests[id].newKey, db.requests[id].created, now + cooling + window, Some(now + cooling))
            && db'.requests.Keys == db.requests.Keys && db'.(requests := db.requests) == db
            && (forall o :: o in db.requests && o != id ==>
                  db'.requests[o] ==
                    if db.requests[o].wallet == wallet && db.requests[o].status == Cooling && db.requests[o].expires < now
                    then db.requests[o].(status := Expired) else db.requests[o])))
  {
    var swept := Swept(db.requests, wallet, now);
    if AwaitsAssertion(swept, id, wallet, now) {
      var updated := swept[id := CoolingRow(swept[id], now + cooling, window)];
      if o :| o in db.requests && o != id && db.requests[o].wallet == wallet && db.requests[o].status == Cooling && db.requests[o].expires >= now {
        assert updated[o].status == Cooling;
      }
    }
  }

  /** Progress of a request: awaiting, then cooling, then one of the three ends. */
  function Rank(s: Status): int {
    match s case AwaitingAssertion => 0 case Cooling => 1 case _ => 2
  }

  /** Nothing but the status, the expiry and the ready time of a row ever changes, statuses only move
      forward, and a row that has ended stays as it is. */
  ghost predicate Forward(before: map<Id32, Request>, after: map<Id32, Request>) {
    forall r :: r in before ==> (
      && r in after
      && after[r].wallet == before[r].wallet && after[r].newKey == before[r].newKey && after[r].created == before[r].created
      && (after[r] == before[r] || Rank(before[r].status) < Rank(after[r].status)))
  }

  lemma ForwardIsTransitive(x: map<Id32, Request>, y: map<Id32, Request>, z: map<Id32, Request>)
    requires Forward(x, y) && Forward(y, z)
    ensures Forward(x, z)
  {
  }

  lemma CreateMovesForward(db: Db, id: Id32, wallet: WalletId, key: DeviceKey, ttl: int, maxPerHour: int, now: int)
    ensures Forward(db.requests, CreateSpec(db, id, wallet, key, ttl, maxPerHour, now).0.requests)
    ensures OneCooling(db.requests) ==> OneCooling(CreateSpec(db, id, wallet, key, ttl, maxPerHour, now).0.requests)
  {
  }

  lemma StartMovesForward(db: Db, id: Id32, wallet: WalletId, cooling: int, window: int, now: int)
    ensures Forward(db.requests, StartSpec(db, id, wallet, cooling, window, now).0.requests)
    ensures OneCooling(db.requests) ==> OneCooling(StartSpec(db, id, wallet, cooling, window, now).0.requests)
  {
    StartKeepsOneCooling(db, id, wallet, cooling, window, now);
    hide StartSpec, Swept, CoolingClash, OneCooling;
    StartAnswers(db, id, wallet, cooling, window, now);
  }

  lemma StartKeepsOneCooling(db: Db, id: Id32, wallet: WalletId, cooling: int, window: int, now: int)
    ensures OneCooling(db.requests) ==> OneCooling(StartSpec(db, id, wallet, cooling, window, now).0.requests)
  {
  }

  lemma CompleteMovesForward(db: Db, id: Id32, wallet: WalletId, now: int)
    ensures Forward(db.requests, CompleteSpec(db, id, wallet, now).0.requests)
    ensures OneCooling(db.requests) ==> OneCooling(CompleteSpec(db, id, wallet, now).0.requests)
  {
    CompleteKeepsOneCooling(db, id, wallet, now);
    hide OneCooling;
  }

  lemma CompleteKeepsOneCooling(db: Db, id: Id32, wallet: WalletId, now: int)
    ensures OneCooling(db.requests) ==> OneCooling(CompleteSpec(db, id, wallet, now).0.requests)
  {
  }

  lemma CancelMovesForward(db: Db, id: Id32, wallet: WalletId)
    ensures Forward(db.requests, CancelSpec(db, id, wallet).0.requests)
    ensures OneCooling(db.requests) ==> OneCooling(CancelSpec(db, id, wallet).0.requests)
  {
  }
}
