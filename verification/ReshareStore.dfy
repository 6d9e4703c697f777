/** The server's share tables, and the key generation and reshare handlers over them
    (crates/mpc-server/src/store.rs:857-1139, crates/mpc-server/src/api.rs:213-290,
    crates/mpc-server/src/reshare.rs:118-345). A step is one handler; clock readings are arbitrary. */
module ReshareStore {
  import opened Prelude
  import opened Modular
  import opened Keys
  import opened Wire
  import opened Upstream
  import opened Shamir
  import opened Dkg
  import opened Backend
  import opened Honest
  import opened Ceremony
  import opened Digests

  const SESSION_TTL_SECONDS := 600
  const STAGED_TTL_SECONDS := 1800

  const SERVER_PARTY := 2
  const RECOVERY_PARTY := 1

  datatype KeyRow = KeyRow(share: KeyShare, publicKey: PublicKey)

  datatype SessionRow = SessionRow(wallet: WalletId, party: PartyState, expires: int)

  datatype StagedRow = StagedRow(reshare: Id32, share: KeyShare, expires: int)

  /** `generating` are the open key generations, `sessions` the open reshares. */
  datatype Db = Db(
    keys: map<WalletId, KeyRow>,
    generating: map<Id32, SessionRow>,
    sessions: map<Id32, SessionRow>,
    staged: map<WalletId, StagedRow>)

  // ---- the transactions ------------------------------------------------------------------------------

  /** The session goes and the share is stored in one transaction. A wallet gets its key once: a second
      insert fails, and then the session stays, too. */
  function FinishDkgSpec(db: Db, session: Id32, wallet: WalletId, share: KeyShare, key: PublicKey): (Db, bool) {
    if wallet in db.keys then (db, false)
    else (db.(generating := db.generating - {session}, keys := db.keys[wallet := KeyRow(share, key)]), true)
  }

  /** Inserts, or replaces the state only: the owner and the expiry of an existing row stay. */
  function Upserted(rows: map<Id32, SessionRow>, id: Id32, wallet: WalletId, party: PartyState, ttl: int, now: int): map<Id32, SessionRow> {
    rows[id := if id in rows then rows[id].(party := party) else SessionRow(wallet, party, now + ttl)]
  }

  function PutKeygenSpec(db: Db, id: Id32, wallet: WalletId, party: PartyState, ttl: int, now: int): Db {
    db.(generating := Upserted(db.generating, id, wallet, party, ttl, now))
  }

  function PutSessionSpec(db: Db, id: Id32, wallet: WalletId, party: PartyState, ttl: int, now: int): Db {
    db.(sessions := Upserted(db.sessions, id, wallet, party, ttl, now))
  }

  /** A key generation is found by its id alone; an expired one is dropped. */
  function TakeKeygenSpec(db: Db, id: Id32, now: int): (Db, Option<PartyState>) {
    if id !in db.generating then (db, None)
    else if db.generating[id].expires < now then (db.(generating := db.generating - {id}), None)
    else (db, Some(db.generating[id].party))
  }

  /** Another wallet's session reads as absent; an expired one is dropped. */
  function TakeSessionSpec(db: Db, id: Id32, wallet: WalletId, now: int): (Db, Option<PartyState>) {
    if id !in db.sessions || db.sessions[id].wallet != wallet then (db, None)
    else if db.sessions[id].expires < now then (db.(sessions := db.sessions - {id}), None)
    else (db, Some(db.sessions[id].party))
  }

  /** A newer staged share replaces an older one. */
  function StageSpec(db: Db, id: Id32, wallet: WalletId, share: KeyShare, ttl: int, now: int): Db {
    db.(sessions := db.sessions - {id}, staged := db.staged[wallet := StagedRow(id, share, now + ttl)])
  }

  function CommitSpec(db: Db, id: Id32, wallet: WalletId, now: int): (Db, bool) {
    if wallet !in db.staged || db.staged[wallet].reshare != id || db.staged[wallet].expires < now then (db, false)
    else if wallet !in db.keys then (db, false)
    else (db.(keys := db.keys[wallet := db.keys[wallet].(share := db.staged[wallet].share)], staged := db.staged - {wallet}), true)
  }

  function AbortSpec(db: Db, id: Id32, wallet: WalletId): Db {
    db.(sessions := if id in db.sessions && db.sessions[id].wallet == wallet then db.sessions - {id} else db.sessions,
        staged := if wallet in db.staged && db.staged[wallet].reshare == id then db.staged - {wallet} else db.staged)
  }

  function SweepSpec(db: Db, now: int): Db {
    db.(generating := map i | i in db.generating && db.generating[i].expires >= now :: db.generating[i],
        sessions := map i | i in db.sessions && db.sessions[i].expires >= now :: db.sessions[i],
        staged := map w | w in db.staged && db.staged[w].expires >= now :: db.staged[w])
  }

  class Store {
    var keys: map<WalletId, KeyRow>
    var generating: map<Id32, SessionRow>
    var sessions: map<Id32, SessionRow>
    var staged: map<WalletId, StagedRow>

    ghost function Tables(): Db
      reads this
    {
      Db(keys, generating, sessions, staged)
    }

    constructor ()
      ensures Tables() == Db(map[], map[], map[], map[])
    {
      keys, generating, sessions, staged := map[], map[], map[], map[];
    }

    method FinishDkg(session: Id32, wallet: WalletId, share: KeyShare, key: PublicKey) returns (stored: bool)
      modifies this
      ensures (Tables(), stored) == FinishDkgSpec(old(Tables()), session, wallet, share, key)
    {
      var begin := generating;
      generating := generating - {session};
      if wallet in keys {
        generating := begin;
        return false;
      }
      keys := keys[wallet := KeyRow(share, key)];
      stored := true;
    }

    method PutSession(id: Id32, wallet: WalletId, party: PartyState, ttl: int, now: int)
      modifies this
      ensures Tables() == PutKeygenSpec(old(Tables()), id, wallet, party, ttl, now)
    {
      if id in generating {
        generating := generating[id := generating[id].(party := party)];
      } else {
        generating := generating[id := SessionRow(wallet, party, now + ttl)];
      }
    }

    method TakeSession(id: Id32, now: int) returns (party: Option<PartyState>)
      modifies this
      ensures (Tables(), party) == TakeKeygenSpec(old(Tables()), id, now)
    {
      if id !in generating {
        return None;
      }
      if generating[id].expires < now {
        generating := generating - {id};
        return None;
      }
      party := Some(generating[id].party);
    }

    method PutReshareSession(id: Id32, wallet: WalletId, party: PartyState, ttl: int, now: int)
      modifies this
      ensures Tables() == PutSessionSpec(old(Tables()), id, wallet, party, ttl, now)
    {
      if id in sessions {
        sessions := sessions[id := sessions[id].(party := party)];
      } else {
        sessions := sessions[id := SessionRow(wallet, party, now + ttl)];
      }
    }

    method TakeReshareSession(id: Id32, wallet: WalletId, now: int) returns (party: Option<PartyState>)
      modifies this
      ensures (Tables(), party) == TakeSessionSpec(old(Tables()), id, wallet, now)
    {
      if id !in sessions || sessions[id].wallet != wallet {
        return None;
      }
      if sessions[id].expires < now {
        sessions := sessions - {id};
        return None;
      }
      party := Some(sessions[id].party);
    }

    method StageReshare(id: Id32, wallet: WalletId, share: KeyShare, ttl: int, now: int)
      modifies this
      ensures Tables() == StageSpec(old(Tables()), id, wallet, share, ttl, now)
    {
      sessions := sessions - {id};
      staged := staged[wallet := StagedRow(id, share, now + ttl)];
    }

    method CommitReshare(id: Id32, wallet: WalletId, now: int) returns (committed: bool)
      modifies this
      ensures (Tables(), committed) == CommitSpec(old(Tables()), id, wallet, now)
    {
      if wallet !in staged || staged[wallet].reshare != id || staged[wallet].expires < now {
        return false;
      }
      if wallet !in keys {
        return false;
      }
      keys := keys[wallet := keys[wallet].(share := staged[wallet].share)];
      staged := staged - {wallet};
      committed := true;
    }

    method AbortReshare(id: Id32, wallet: WalletId)
      modifies this
      ensures Tables() == AbortSpec(old(Tables()), id, wallet)
    {
      if id in sessions && sessions[id].wallet == wallet {
        sessions := sessions - {id};
      }
      if wallet in staged && staged[wallet].reshare == id {
        staged := staged - {wallet};
      }
    }

    method SweepExpired(now: int)
      modifies this
      ensures Tables() == SweepSpec(old(Tables()), now)
    {
      generating := map i | i in generating && generating[i].expires >= now :: generating[i];
      sessions := map i | i in sessions && sessions[i].expires >= now :: sessions[i];
      staged := map w | w in staged && staged[w].expires >= now :: staged[w];
    }
  }

  // ---- the handlers ------------------------------------------------------------------------------------

  datatype Entry =
    | Created(wallet: WalletId, key: PublicKey)
    | Staged(wallet: WalletId, reshare: Id32, share: KeyShare, now: int)
    | Committed(wallet: WalletId, reshare: Id32, share: KeyShare, now: int)
    | Aborted(wallet: WalletId, reshare: Id32)

  datatype World = World(db: Db, history: seq<Entry>)

  datatype Event =
    | StartKey(wallet: WalletId, generation: Id32, id: int, row: seq<int>, now: int)
    | AdvanceKey(wallet: WalletId, generation: Id32, inbox: seq<Envelope>, now: int)
    | Start(wallet: WalletId, reshare: Id32, session: int, slope: int, now: int)
    | Advance(wallet: WalletId, reshare: Id32, inbox: seq<Envelope>, now: int)
    | Commit(wallet: WalletId, reshare: Id32, now: int)
    | Abort(wallet: WalletId, reshare: Id32)
    | Sweep(now: int)

  /** The server opens a key generation with the row it drew. */
  function StartedKey(w: World, wallet: WalletId, session: Id32, id: int, row: seq<int>, now: int): World {
    if |row| != TOTAL_PARTIES then w
    else World(PutKeygenSpec(w.db, session, wallet, Started(SERVER_PARTY, id, row, None).0, SESSION_TTL_SECONDS, now), w.history)
  }

  /** One round of key generation. A failed one leaves the session as it was; the last stores the share. */
  function AdvancedKey(q: int, w: World, wallet: WalletId, session: Id32, inbox: seq<Envelope>, now: int): World
    requires FieldOrder(q)
  {
    var (db, taken) := TakeKeygenSpec(w.db, session, now);
    match taken
    case None => World(db, w.history)
    case Some(party) =>
      var (party', answer) := Advanced(q, party, inbox);
      match answer
      case Failure(_) => w
      case Success(Send(_)) => World(PutKeygenSpec(db, session, wallet, party', SESSION_TTL_SECONDS, now), w.history)
      case Success(Done(share, key)) =>
        var (db', ok) := FinishDkgSpec(db, session, wallet, share, key);
        if ok then World(db', w.history + [Created(wallet, key)]) else w
  }

  /** The server joins as the surviving party C, with the wallet's key as the key to reproduce. */
  function StartedReshare(q: int, w: World, wallet: WalletId, reshare: Id32, session: int, slope: int, now: int): World
    requires FieldOrder(q)
  {
    if wallet !in w.db.keys then w
    else
      var row := w.db.keys[wallet];
      match RoleRow(q, SERVER_PARTY, Survivor(row.share, RECOVERY_PARTY, SERVER_PARTY, slope))
      case Failure(_) => w
      case Success(fragments) =>
        if |fragments| > 256 then w
        else
          var party := Started(SERVER_PARTY, session, fragments, Some(row.publicKey)).0;
          World(PutSessionSpec(w.db, reshare, wallet, party, SESSION_TTL_SECONDS, now), w.history)
  }

  /** One round. A failed one drops the session and whatever that reshare had staged. */
  function AdvancedReshare(q: int, w: World, wallet: WalletId, reshare: Id32, inbox: seq<Envelope>, now: int): World
    requires FieldOrder(q)
  {
    var (db, taken) := TakeSessionSpec(w.db, reshare, wallet, now);
    match taken
    case None => World(db, w.history)
    case Some(party) =>
      var (party', answer) := Advanced(q, party, inbox);
      match answer
      case Failure(_) => World(AbortSpec(db, reshare, wallet), w.history + [Aborted(wallet, reshare)])
      case Success(Send(_)) => World(PutSessionSpec(db, reshare, wallet, party', SESSION_TTL_SECONDS, now), w.history)
      case Success(Done(share, _)) =>
        World(StageSpec(db, reshare, wallet, share, STAGED_TTL_SECONDS, now), w.history + [Staged(wallet, reshare, share, now)])
  }

  function Step(q: int, w: World, e: Event): World
    requires FieldOrder(q)
  {
    match e
    case StartKey(wallet, session, id, row, now) => StartedKey(w, wallet, session, id, row, now)
    case AdvanceKey(wallet, session, inbox, now) => AdvancedKey(q, w, wallet, session, inbox, now)
    case Start(wallet, reshare, session, slope, now) => StartedReshare(q, w, wallet, reshare, session, slope, now)
    case Advance(wallet, reshare, inbox, now) => AdvancedReshare(q, w, wallet, reshare, inbox, now)
    case Commit(wallet, reshare, now) =>
      var (db, ok) := CommitSpec(w.db, reshare, wallet, now);
      if ok then World(db, w.history + [Committed(wallet, reshare, db.keys[wallet].share, now)]) else w
    case Abort(wallet, reshare) => World(AbortSpec(w.db, reshare, wallet), w.history + [Aborted(wallet, reshare)])
    case Sweep(now) => World(SweepSpec(w.db, now), w.history)
  }

  const Empty := World(Db(map[], map[], map[], map[]), [])

  function Run(q: int, events: seq<Event>): World
    requires FieldOrder(q)
  {
    if events == [] then Empty else Step(q, Run(q, events[..|events| - 1]), events[|events| - 1])
  }

  // ---- where the live share comes from ---------------------------------------------------------------------

  /** An entry after which the staged share of this reshare is no longer there. */
  predicate Clears(e: Entry, wallet: WalletId, reshare: Id32) {
    match e
    case Created(_, _) => false
    case Staged(w, _, _, _) => w == wallet
    case Committed(w, _, _, _) => w == wallet
    case Aborted(w, r) => w == wallet && r == reshare
  }

  /** The staged row of a wallet is what position `s` staged, and nothing has cleared it. */
  ghost predicate StagedAt(w: World, wallet: WalletId, s: int)
    requires wallet in w.db.staged
  {
    var row, h := w.db.staged[wallet], w.history;
    && 0 <= s < |h| && h[s].Staged? && h[s].wallet == wallet && h[s].reshare == row.reshare && h[s].share == row.share
    && row.expires == h[s].now + STAGED_TTL_SECONDS
    && forall k :: s < k < |h| ==> !Clears(h[k], wallet, row.reshare)
  }

  ghost predicate StagedInv(w: World) {
    forall wallet :: wallet in w.db.staged ==> exists s :: StagedAt(w, wallet, s)
  }

  /** The step left the staged row alone, or staged it just now. */
  ghost predicate LeavesStaged(w: World, w': World, wallet: WalletId)
    requires wallet in w'.db.staged
  {
    && wallet in w.db.staged && w'.db.staged[wallet] == w.db.staged[wallet] && w.history <= w'.history
    && forall k :: |w.history| <= k < |w'.history| ==> !Clears(w'.history[k], wallet, w.db.staged[wallet].reshare)
  }

  ghost predicate StagesNow(w: World, w': World, wallet: WalletId)
    requires wallet in w'.db.staged
  {
    |w'.history| == |w.history| + 1 && StagedAt(w', wallet, |w.history|)
  }

  lemma StepLeavesOrStages(q: int, w: World, e: Event, wallet: WalletId)
    requires FieldOrder(q) && wallet in Step(q, w, e).db.staged
    ensures LeavesStaged(w, Step(q, w, e), wallet) || StagesNow(w, Step(q, w, e), wallet)
  {
    hide IsPrime, Advanced, RoleRow, Started;
  }

  lemma StillStaged(w: World, w': World, wallet: WalletId, s: int)
    requires wallet in w'.db.staged && LeavesStaged(w, w', wallet) && StagedAt(w, wallet, s)
    ensures StagedAt(w', wallet, s)
  {
    forall k | s < k < |w'.history| ensures !Clears(w'.history[k], wallet, w'.db.staged[wallet].reshare) {
      if k < |w.history| {
        assert w'.history[k] == w.history[k];
      }
    }
  }

  lemma StepKeepsStaged(q: int, w: World, e: Event)
    requires FieldOrder(q) && StagedInv(w)
    ensures StagedInv(Step(q, w, e))
  {
    hide IsPrime, Step, StagedAt;
    var w' := Step(q, w, e);
    forall wallet | wallet in w'.db.staged ensures exists s :: StagedAt(w', wallet, s) {
      StepLeavesOrStages(q, w, e, wallet);
      if LeavesStaged(w, w', wallet) {
        var s :| StagedAt(w, wallet, s);
        StillStaged(w, w', wallet, s);
      }
    }
  }

  lemma {:induction false} RunKeepsStaged(q: int, events: seq<Event>)
    requires FieldOrder(q)
    ensures StagedInv(Run(q, events))
  {
    hide IsPrime, Step;
    if events != [] {
      RunKeepsStaged(q, events[..|events| - 1]);
      StepKeepsStaged(q, Run(q, events[..|events| - 1]), events[|events| - 1]);
    }
  }

  /** The commit at position `n` made live what position `s` staged, in time, with no commit, abort or
      newer staging in between. */
  ghost predicate CommitsStaging(h: seq<Entry>, n: int, s: int) {
    && 0 <= s < n < |h| && h[n].Committed? && h[s].Staged?
    && h[s].wallet == h[n].wallet && h[s].reshare == h[n].reshare && h[s].share == h[n].share
    && h[n].now <= h[s].now + STAGED_TTL_SECONDS
    && forall k :: s < k < n ==> !Clears(h[k], h[n].wallet, h[n].reshare)
  }

  /** What a step does to the live rows. */
  lemma StepChangesKeysOnlyByCommit(q: int, w: World, e: Event)
    requires FieldOrder(q)
    ensures var w' := Step(q, w, e);
      && w.history <= w'.history && |w'.history| <= |w.history| + 1
      && (forall k :: k in w.db.keys ==> k in w'.db.keys && w'.db.keys[k].publicKey == w.db.keys[k].publicKey)
      && (forall k :: k in w.db.keys && w'.db.keys[k] != w.db.keys[k] ==> e.Commit? && e.wallet == k && CommitSpec(w.db, e.reshare, k, e.now).1)
      && (|w'.history| > |w.history| && w'.history[|w.history|].Committed? ==> e.Commit? && CommitSpec(w.db, e.reshare, e.wallet, e.now).1)
  {
    hide IsPrime, Advanced, RoleRow, Started;
  }

  lemma CommitRests(q: int, w: World, wallet: WalletId, reshare: Id32, now: int)
    requires FieldOrder(q) && StagedInv(w) && CommitSpec(w.db, reshare, wallet, now).1
    ensures var w' := Step(q, w, Commit(wallet, reshare, now));
      && w'.history == w.history + [Committed(wallet, reshare, w'.db.keys[wallet].share, now)]
      && exists s :: CommitsStaging(w'.history, |w.history|, s)
  {
    hide IsPrime;
    var s :| StagedAt(w, wallet, s);
    var w' := Step(q, w, Commit(wallet, reshare, now));
    assert forall k :: 0 <= k < |w.history| ==> w'.history[k] == w.history[k];
    assert CommitsStaging(w'.history, |w.history|, s);
  }

  /** Over every run and whatever comes next: a wallet's public key is written once, and its live share
      changes only by a commit of the share that was staged under the same id. */
  lemma LiveShareProvenance(q: int, events: seq<Event>, e: Event, wallet: WalletId)
    requires FieldOrder(q) && wallet in Run(q, events).db.keys
    ensures var w, w' := Run(q, events), Step(q, Run(q, events), e);
      && wallet in w'.db.keys
      && w'.db.keys[wallet].publicKey == w.db.keys[wallet].publicKey
      && (w'.db.keys[wallet].share != w.db.keys[wallet].share ==> (
            var n := |w.history|;
            && |w'.history| == n + 1 && w'.history[n].Committed? && w'.history[n].wallet == wallet
            && w'.history[n].share == w'.db.keys[wallet].share
            && exists s :: CommitsStaging(w'.history, n, s)))
  {
    hide IsPrime, Step, Run;
    RunKeepsStaged(q, events);
    StepChangesKeysOnlyByCommit(q, Run(q, events), e);
    if e.Commit? && CommitSpec(Run(q, events).db, e.reshare, e.wallet, e.now).1 {
      CommitRests(q, Run(q, events), e.wallet, e.reshare, e.now);
    }
  }

  /** Every commit in a run's history made some staging live. */
  lemma {:induction false} CommitsComeFromStagings(q: int, events: seq<Event>, n: int)
    requires FieldOrder(q) && 0 <= n < |Run(q, events).history| && Run(q, events).history[n].Committed?
    ensures exists s :: CommitsStaging(Run(q, events).history, n, s)
    decreases |events|
  {
    hide IsPrime, Step;
    var init, e := events[..|events| - 1], events[|events| - 1];
    var w, w' := Run(q, init), Run(q, events);
    StepChangesKeysOnlyByCommit(q, w, e);
    if n < |w.history| {
      CommitsComeFromStagings(q, init, n);
      var s :| CommitsStaging(w.history, n, s);
      assert CommitsStaging(w'.history, n, s);
    } else {
      RunKeepsStaged(q, init);
      CommitRests(q, w, e.wallet, e.reshare, e.now);
    }
  }

  /** Each staging commits at most once, and an aborted id cannot commit until it is staged again. */
  lemma StagingsCommitOnce(q: int, events: seq<Event>, m: int, n: int)
    requires FieldOrder(q) && 0 <= m < n < |Run(q, events).history|
    ensures var h := Run(q, events).history;
      && (h[m].Committed? && h[n].Committed? && h[m].wallet == h[n].wallet ==>
            forall s, t :: CommitsStaging(h, m, s) && CommitsStaging(h, n, t) ==> s < m < t)
      && (h[m].Aborted? && h[n].Committed? && h[m].wallet == h[n].wallet && h[m].reshare == h[n].reshare ==>
            exists t :: m < t && CommitsStaging(h, n, t))
  {
    hide IsPrime, Step, Run;
    var h := Run(q, events).history;
    if h[n].Committed? {
      CommitsComeFromStagings(q, events, n);
    }
  }

  // ---- what each handler achieves -------------------------------------------------------------------------

  /** The open session of a wallet under an id: not another wallet's, and not past its time. */
  ghost predicate OpenSession(db: Db, reshare: Id32, wallet: WalletId, now: int) {
    reshare in db.sessions && db.sessions[reshare].wallet == wallet && now <= db.sessions[reshare].expires
  }

  /** A round touches no live share, no key generation, no other session and no other wallet's staged share. */
  lemma RoundsStayInTheirSession(q: int, w: World, wallet: WalletId, reshare: Id32, inbox: seq<Envelope>, now: int, id: Id32, other: WalletId)
    requires FieldOrder(q) && id != reshare && other != wallet
    ensures var w' := AdvancedReshare(q, w, wallet, reshare, inbox, now);
      && w'.db.keys == w.db.keys && w'.db.generating == w.db.generating
      && (id in w'.db.sessions <==> id in w.db.sessions) && (id in w.db.sessions ==> w'.db.sessions[id] == w.db.sessions[id])
      && (other in w'.db.staged <==> other in w.db.staged) && (other in w.db.staged ==> w'.db.staged[other] == w.db.staged[other])
  {
    hide IsPrime, Advanced;
  }

  /** Without an open session of that wallet under that id a round stages nothing and leaves no entry; with
      one whose round fails, the session and what it had staged are gone. */
  lemma RoundsNeedTheirSession(q: int, w: World, wallet: WalletId, reshare: Id32, inbox: seq<Envelope>, now: int)
    requires FieldOrder(q)
    ensures var w' := AdvancedReshare(q, w, wallet, reshare, inbox, now);
      && (!OpenSession(w.db, reshare, wallet, now) ==> w'.db.staged == w.db.staged && w'.history == w.history)
      && (OpenSession(w.db, reshare, wallet, now) && Advanced(q, w.db.sessions[reshare].party, inbox).1.Failure? ==> (
            && reshare !in w'.db.sessions && !(wallet in w'.db.staged && w'.db.staged[wallet].reshare == reshare)
            && w'.history == w.history + [Aborted(wallet, reshare)]))
  {
    hide IsPrime, Advanced, PutSessionSpec, StageSpec;
  }

  /** A round that works moves the party of its session on and stages nothing; the last one closes the session
      and stages its share, for the time a staged share has, in the place of an older one. */
  lemma RoundsMoveTheirSession(q: int, w: World, wallet: WalletId, reshare: Id32, inbox: seq<Envelope>, now: int)
    requires FieldOrder(q) && OpenSession(w.db, reshare, wallet, now) && Advanced(q, w.db.sessions[reshare].party, inbox).1.Success?
    ensures var w' := AdvancedReshare(q, w, wallet, reshare, inbox, now);
      var (party, answer) := Advanced(q, w.db.sessions[reshare].party, inbox);
      if answer.value.Send? then
        && reshare in w'.db.sessions && w'.db.sessions[reshare].party == party
        && w'.db.staged == w.db.staged && w'.history == w.history
      else
        && reshare !in w'.db.sessions
        && w'.db.staged == w.db.staged[wallet := StagedRow(reshare, answer.value.share, now + STAGED_TTL_SECONDS)]
        && w'.history == w.history + [Staged(wallet, reshare, answer.value.share, now)]
  {
    hide IsPrime, Advanced, AbortSpec;
  }

  /** A key generation without an open session under its id stores nothing; a failed round leaves everything
      as it was; and whatever happens, no key that is there is touched. */
  lemma KeygenNeedsItsSession(q: int, w: World, wallet: WalletId, generation: Id32, inbox: seq<Envelope>, now: int)
    requires FieldOrder(q)
    ensures var w' := AdvancedKey(q, w, wallet, generation, inbox, now);
      var open := generation in w.db.generating && now <= w.db.generating[generation].expires;
      && (!open ==> w'.db.keys == w.db.keys && w'.history == w.history)
      && (open && Advanced(q, w.db.generating[generation].party, inbox).1.Failure? ==> w' == w)
      && (open && Advanced(q, w.db.generating[generation].party, inbox).1.Success? ==>
            match Advanced(q, w.db.generating[generation].party, inbox).1.value
            case Send(_) => w'.db.keys == w.db.keys && w'.history == w.history && generation in w'.db.generating
            case Done(share, key) =>
              if wallet in w.db.keys then w' == w
              else
                && w'.db.keys == w.db.keys[wallet := KeyRow(share, key)] && generation !in w'.db.generating
                && w'.history == w.history + [Created(wallet, key)])
      && (forall o :: o in w.db.keys ==> o in w'.db.keys && w'.db.keys[o] == w.db.keys[o])
      && w'.db.sessions == w.db.sessions && w'.db.staged == w.db.staged
  {
    hide IsPrime, Advanced;
  }

  /** A row that keeps the wallet and the end it was opened with, or was opened just now. */
  ghost predicate KeepsItsEnd(rows: map<Id32, SessionRow>, rows': map<Id32, SessionRow>, id: Id32, opens: bool, wallet: WalletId, now: int) {
    id in rows' ==>
      if id in rows then rows'[id].wallet == rows[id].wallet && rows'[id].expires == rows[id].expires
      else opens && rows'[id].wallet == wallet && rows'[id].expires == now + SESSION_TTL_SECONDS
  }

  /** A session keeps the wallet and the end it was opened with, however often it is written, and only a
      start opens one. */
  lemma SessionsKeepTheirEnd(q: int, w: World, e: Event, id: Id32)
    requires FieldOrder(q)
    ensures KeepsItsEnd(w.db.sessions, Step(q, w, e).db.sessions, id, e.Start?,
              if e.Start? then e.wallet else [], if e.Start? then e.now else 0)
    ensures KeepsItsEnd(w.db.generating, Step(q, w, e).db.generating, id, e.StartKey?,
              if e.StartKey? then e.wallet else [], if e.StartKey? then e.now else 0)
  {
    hide IsPrime, Advanced, RoleRow, Started, AdvancedKey, AdvancedReshare;
    match e
    case AdvanceKey(wallet, generation, inbox, now) => KeygenKeepsEnds(q, w, wallet, generation, inbox, now, id);
    case Advance(wallet, reshare, inbox, now) => RoundKeepsEnds(q, w, wallet, reshare, inbox, now, id);
    case _ =>
  }

  lemma KeygenKeepsEnds(q: int, w: World, wallet: WalletId, generation: Id32, inbox: seq<Envelope>, now: int, id: Id32)
    requires FieldOrder(q)
    ensures var w' := AdvancedKey(q, w, wallet, generation, inbox, now);
      w'.db.sessions == w.db.sessions && KeepsItsEnd(w.db.generating, w'.db.generating, id, false, [], 0)
  {
    hide IsPrime, Advanced;
  }

  lemma RoundKeepsEnds(q: int, w: World, wallet: WalletId, reshare: Id32, inbox: seq<Envelope>, now: int, id: Id32)
    requires FieldOrder(q)
    ensures var w' := AdvancedReshare(q, w, wallet, reshare, inbox, now);
      w'.db.generating == w.db.generating && KeepsItsEnd(w.db.sessions, w'.db.sessions, id, false, [], 0)
  {
    hide IsPrime, Advanced;
  }

  /** A commit goes through if and only if the wallet has a key and its staged share is of this id and not
      past its time. Then that share is the live one and staged no more; otherwise nothing changes. */
  lemma CommitTakesEffectIff(q: int, w: World, wallet: WalletId, reshare: Id32, now: int)
    requires FieldOrder(q)
    ensures var w' := Step(q, w, Commit(wallet, reshare, now));
      if wallet in w.db.keys && wallet in w.db.staged && w.db.staged[wallet].reshare == reshare && now <= w.db.staged[wallet].expires
      then
        && wallet in w'.db.keys && w'.db.keys == w.db.keys[wallet := KeyRow(w.db.staged[wallet].share, w.db.keys[wallet].publicKey)]
        && w'.db.staged == w.db.staged - {wallet} && w'.db.sessions == w.db.sessions && w'.db.generating == w.db.generating
        && w'.history == w.history + [Committed(wallet, reshare, w.db.staged[wallet].share, now)]
      else w' == w
  {
    hide IsPrime, Advanced, RoleRow, Started;
  }

  /** An abort ends the wallet's session under this id and drops its staged share of this id; nothing else is
      touched, the live share least of all. From then on a commit under this id changes nothing, whatever
      follows, until that wallet stages under it again. */
  lemma AbortTakesEffect(q: int, w: World, wallet: WalletId, reshare: Id32, later: seq<Event>, now: int)
    requires FieldOrder(q) && forall k :: 0 <= k < |later| ==> !(later[k].Advance? && later[k].wallet == wallet && later[k].reshare == reshare)
    ensures var w' := Step(q, w, Abort(wallet, reshare));
      && w'.db.keys == w.db.keys && w'.db.generating == w.db.generating
      && (forall o :: o in w'.db.sessions <==> o in w.db.sessions && !(o == reshare && w.db.sessions[o].wallet == wallet))
      && (forall o :: o in w'.db.sessions ==> w'.db.sessions[o] == w.db.sessions[o])
      && (forall o :: o in w'.db.staged <==> o in w.db.staged && !(o == wallet && w.db.staged[o].reshare == reshare))
      && (forall o :: o in w'.db.staged ==> w'.db.staged[o] == w.db.staged[o])
      && var last := Steps(q, w', later);
      Step(q, last, Commit(wallet, reshare, now)) == last
  {
    hide IsPrime, Advanced, RoleRow, Started;
    StaysUnstaged(q, Step(q, w, Abort(wallet, reshare)), wallet, reshare, later);
    CommitTakesEffectIff(q, Steps(q, Step(q, w, Abort(wallet, reshare)), later), wallet, reshare, now);
  }

  ghost predicate Unstaged(w: World, wallet: WalletId, reshare: Id32) {
    !(wallet in w.db.staged && w.db.staged[wallet].reshare == reshare)
  }

  lemma StepKeepsUnstaged(q: int, w: World, wallet: WalletId, reshare: Id32, e: Event)
    requires FieldOrder(q) && Unstaged(w, wallet, reshare) && !(e.Advance? && e.wallet == wallet && e.reshare == reshare)
    ensures Unstaged(Step(q, w, e), wallet, reshare)
  {
    hide IsPrime, Advanced, RoleRow, Started;
  }

  lemma {:induction false} StaysUnstaged(q: int, w: World, wallet: WalletId, reshare: Id32, later: seq<Event>)
    requires FieldOrder(q) && Unstaged(w, wallet, reshare)
    requires forall k :: 0 <= k < |later| ==> !(later[k].Advance? && later[k].wallet == wallet && later[k].reshare == reshare)
    ensures Unstaged(Steps(q, w, later), wallet, reshare)
    decreases |later|
  {
    hide IsPrime, Step, Unstaged;
    if later != [] {
      assert forall k :: 0 <= k < |later| - 1 ==> later[1..][k] == later[k + 1];
      StepKeepsUnstaged(q, w, wallet, reshare, later[0]);
      StaysUnstaged(q, Step(q, w, later[0]), wallet, reshare, later[1..]);
    }
  }

  /** A sweep removes exactly what is past its time, and no live share. */
  lemma SweepRemovesTheExpired(q: int, w: World, now: int)
    requires FieldOrder(q)
    ensures var w' := Step(q, w, Sweep(now));
      && w'.db.keys == w.db.keys && w'.history == w.history
      && (forall i :: i in w'.db.sessions <==> i in w.db.sessions && now <= w.db.sessions[i].expires)
      && (forall i :: i in w'.db.generating <==> i in w.db.generating && now <= w.db.generating[i].expires)
      && (forall o :: o in w'.db.staged <==> o in w.db.staged && now <= w.db.staged[o].expires)
      && (forall i :: i in w'.db.sessions ==> w'.db.sessions[i] == w.db.sessions[i])
      && (forall i :: i in w'.db.generating ==> w'.db.generating[i] == w.db.generating[i])
      && (forall o :: o in w'.db.staged ==> w'.db.staged[o] == w.db.staged[o])
  {
    hide IsPrime, Advanced, RoleRow, Started;
  }

  // ---- the live share fits the wallet's key -----------------------------------------------------------------

  /** A share of the server under this key. */
  ghost predicate Fits(q: int, share: KeyShare, key: PublicKey)
    requires 0 < q
  {
    && share.party == SERVER_PARTY && share.secret.Some? && share.secret.value.index == SERVER_PARTY + 1
    && PublicKeyOf(q, share.secret.value.keyScalar) == Some(key)
  }

  ghost predicate KeysInv(q: int, db: Db)
    requires 0 < q
  {
    && (forall w :: w in db.keys ==> Fits(q, db.keys[w].share, db.keys[w].publicKey))
    && (forall w :: w in db.staged ==> w in db.keys && Fits(q, db.staged[w].share, db.keys[w].publicKey))
    && (forall i :: i in db.sessions ==> (
          && db.sessions[i].wallet in db.keys && db.sessions[i].party.me == SERVER_PARTY
          && db.sessions[i].party.expected == Some(db.keys[db.sessions[i].wallet].publicKey)))
    && (forall i :: i in db.generating ==> db.generating[i].party.me == SERVER_PARTY)
  }

  /** Reshare ids are not shared between wallets. */
  ghost predicate Proper(w: World, e: Event) {
    e.Start? && e.reshare in w.db.sessions ==> w.db.sessions[e.reshare].wallet == e.wallet
  }

  ghost predicate ProperRun(q: int, events: seq<Event>)
    requires FieldOrder(q)
  {
    events == [] || (ProperRun(q, events[..|events| - 1]) && Proper(Run(q, events[..|events| - 1]), events[|events| - 1]))
  }

  /** The last round answers with a share under the key it names, which is the expected key if there is
      one; and no round changes who the party is or what it expects. */
  lemma AnswersFit(q: int, s: PartyState, inbox: seq<Envelope>)
    requires FieldOrder(q) && s.me == SERVER_PARTY
    ensures var (s', r) := Advanced(q, s, inbox);
      && s'.me == s.me && s'.expected == s.expected
      && (r.Success? && r.value.Done? ==> (
            && Fits(q, r.value.share, r.value.publicKey)
            && (s.expected.Some? ==> r.value.publicKey == s.expected.value)))
  {
    hide IsPrime, FileRound2, FileRound3, TakeFragments, HeaderFault, ValuesFrom, MessagesTo, Outgoing2, Outgoing3, JointSecret;
  }

  lemma StartedParty(me: PartyId, session: int, row: seq<int>, key: PublicKey)
    requires |row| <= 256
    ensures Started(me, session, row, Some(key)).0.me == me && Started(me, session, row, Some(key)).0.expected == Some(key)
  {
  }

  lemma AdvanceKeepsKeys(q: int, w: World, wallet: WalletId, reshare: Id32, inbox: seq<Envelope>, now: int)
    requires FieldOrder(q) && KeysInv(q, w.db)
    ensures KeysInv(q, AdvancedReshare(q, w, wallet, reshare, inbox, now).db)
  {
    hide IsPrime, Advanced, Fits;
    var (db, taken) := TakeSessionSpec(w.db, reshare, wallet, now);
    if taken.Some? {
      AnswersFit(q, taken.value, inbox);
      var (party', answer) := Advanced(q, taken.value, inbox);
      var key := w.db.keys[wallet].publicKey;
      match answer
      case Failure(_) => assert KeysInv(q, AbortSpec(db, reshare, wallet));
      case Success(Send(_)) => assert KeysInv(q, PutSessionSpec(db, reshare, wallet, party', SESSION_TTL_SECONDS, now));
      case Success(Done(share, named)) =>
        assert Fits(q, share, key);
        assert KeysInv(q, StageSpec(db, reshare, wallet, share, STAGED_TTL_SECONDS, now));
    }
  }

  lemma StartKeepsKeys(q: int, w: World, wallet: WalletId, session: Id32, id: int, row: seq<int>, now: int)
    requires FieldOrder(q) && KeysInv(q, w.db)
    ensures KeysInv(q, StartedKey(w, wallet, session, id, row, now).db)
  {
    hide IsPrime, Fits;
  }

  lemma KeygenKeepsKeys(q: int, w: World, wallet: WalletId, session: Id32, inbox: seq<Envelope>, now: int)
    requires FieldOrder(q) && KeysInv(q, w.db)
    ensures KeysInv(q, AdvancedKey(q, w, wallet, session, inbox, now).db)
  {
    hide IsPrime, Advanced, Fits;
    var (db, taken) := TakeKeygenSpec(w.db, session, now);
    if taken.Some? {
      AnswersFit(q, taken.value, inbox);
      var (party', answer) := Advanced(q, taken.value, inbox);
      match answer
      case Failure(_) =>
      case Success(Send(_)) => assert KeysInv(q, PutKeygenSpec(db, session, wallet, party', SESSION_TTL_SECONDS, now));
      case Success(Done(share, key)) => assert KeysInv(q, FinishDkgSpec(db, session, wallet, share, key).0);
    }
  }

  lemma StepKeepsKeys(q: int, w: World, e: Event)
    requires FieldOrder(q) && KeysInv(q, w.db) && Proper(w, e)
    ensures KeysInv(q, Step(q, w, e).db)
  {
    hide IsPrime, Advanced, RoleRow, Started, Fits, StartedKey, AdvancedKey, AdvancedReshare;
    match e
    case StartKey(wallet, session, id, row, now) => StartKeepsKeys(q, w, wallet, session, id, row, now);
    case AdvanceKey(wallet, session, inbox, now) => KeygenKeepsKeys(q, w, wallet, session, inbox, now);
    case Start(wallet, reshare, session, slope, now) =>
      if wallet in w.db.keys {
        var row := w.db.keys[wallet];
        var r := RoleRow(q, SERVER_PARTY, Survivor(row.share, RECOVERY_PARTY, SERVER_PARTY, slope));
        if r.Success? && |r.value| <= 256 {
          StartedParty(SERVER_PARTY, session, r.value, row.publicKey);
        }
      }
    case Advance(wallet, reshare, inbox, now) => AdvanceKeepsKeys(q, w, wallet, reshare, inbox, now);
    case _ =>
  }

  /** Over every run in which wallets do not share a reshare id, for any messages whatever: the live
      share and a staged one are the server's, and fit the wallet's public key. */
  lemma {:induction false} SharesFitTheKey(q: int, events: seq<Event>)
    requires FieldOrder(q) && ProperRun(q, events)
    ensures KeysInv(q, Run(q, events).db)
  {
    hide IsPrime, Step, KeysInv;
    if events == [] {
      assert KeysInv(q, Run(q, []).db) by { NothingYet(q); }
    } else {
      SharesFitTheKey(q, events[..|events| - 1]);
      StepKeepsKeys(q, Run(q, events[..|events| - 1]), events[|events| - 1]);
    }
  }

  lemma NothingYet(q: int)
    requires FieldOrder(q)
    ensures KeysInv(q, Run(q, []).db)
  {
    hide IsPrime;
  }

  // ---- why reshare ids must not be shared ---------------------------------------------------------------------

  function Steps(q: int, w: World, es: seq<Event>): World
    requires FieldOrder(q)
    decreases |es|
  {
    if es == [] then w else Steps(q, Step(q, w, es[0]), es[1..])
  }

  lemma {:induction false} StepsOfTwo(q: int, w: World, a: seq<Event>, b: seq<Event>)
    requires FieldOrder(q)
    ensures Steps(q, w, a + b) == Steps(q, Steps(q, w, a), b)
    decreases |a|
  {
    hide IsPrime, Step;
    if a == [] {
      assert a + b == b;
    } else {
      assert (a + b)[1..] == a[1..] + b;
      StepsOfTwo(q, Step(q, w, a[0]), a[1..], b);
    }
  }

  lemma {:induction false} RunIsSteps(q: int, es: seq<Event>)
    requires FieldOrder(q)
    ensures Run(q, es) == Steps(q, Empty, es)
  {
    hide IsPrime, Step;
    if es != [] {
      var init, last := es[..|es| - 1], [es[|es| - 1]];
      RunIsSteps(q, init);
      StepsOfTwo(q, Empty, init, last);
      assert es == init + last && last[1..] == [];
    }
  }

  lemma FourSteps(q: int, w: World, a: Event, b: Event, c: Event, d: Event)
    requires FieldOrder(q)
    ensures Steps(q, w, [a, b, c, d]) == Step(q, Step(q, Step(q, Step(q, w, a), b), c), d)
  {
    hide IsPrime, Step;
    assert [a, b, c, d][1..] == [b, c, d] && [b, c, d][1..] == [c, d] && [c, d][1..] == [d] && [d][1..] == [];
    assert Steps(q, Step(q, Step(q, Step(q, w, a), b), c), [d]) == Step(q, Step(q, Step(q, Step(q, w, a), b), c), d);
    assert Steps(q, Step(q, Step(q, w, a), b), [c, d]) == Steps(q, Step(q, Step(q, Step(q, w, a), b), c), [d]);
  }

  /** The fragments parties 0 and 1 send the server. */
  function Fragments(s: Session): seq<Envelope>
    requires Square(s.rows)
  {
    [Envelope(1, 0, Some(2), Fragment(s.rows[0][2])), Envelope(1, 1, Some(2), Fragment(s.rows[1][2]))]
  }

  function Second(s: Session): seq<Envelope>
    requires 0 < s.q && Square(s.rows)
  {
    Delivered2(s, 0, 2) + Delivered2(s, 1, 2)
  }

  function Third(s: Session): seq<Envelope> {
    Delivered3(s, 0, 2) + Delivered3(s, 1, 2)
  }

  /** The server's three rounds with two honest peers whose rows are lines. */
  lemma HonestServerRounds(s: Session, lines: seq<Line>)
    requires ValidSession(s) && RowsAreLines(s, lines) && TotalConstant(lines) % s.q != 0
    requires s.expected.Some? ==> s.expected.value == PointOf(TotalConstant(lines) % s.q)
    ensures Advanced(s.q, AfterStart(s, 2), Fragments(s)) == (AfterRound2(s, 2), Success(Send(Sent2(s, 2))))
    ensures Advanced(s.q, AfterRound2(s, 2), Second(s)) == (AfterRound3(s, 2), Success(Send(Sent3(s, 2))))
    ensures Advanced(s.q, AfterRound3(s, 2), Third(s)).1
         == Success(Done(HeldShare(s.q, TotalConstant(lines), TotalSlope(lines), 3), PointOf(TotalConstant(lines) % s.q)))
  {
    hide IsPrime, Advanced, JointSecret, TotalConstant, TotalSlope, AfterStart, AfterRound2, AfterRound3, Sent2, Sent3, Delivered2, Delivered3;
    FragmentsDeliver(s);
    HonestRound2(s, 2, Fragments(s));
    HonestRound3(s, 2);
    HonestRound4(s, 2);
    LinesSum(s, lines);
    ColumnOnTotal(s, lines, 2);
    ReducedTwice(s.q, TotalConstant(lines));
    ServerVerdict(s, TotalConstant(lines) % s.q);
  }

  lemma FragmentsDeliver(s: Session)
    requires Square(s.rows)
    ensures DeliversFragments(s.rows, 2, Fragments(s))
  {
    assert Fragments(s)[0] in Fragments(s) && Fragments(s)[1] in Fragments(s);
  }

  lemma ServerVerdict(s: Session, secret: int)
    requires ValidSession(s) && JointSecret(s.q, JointPoints(s)) == Some(secret) && secret % s.q == secret != 0
    requires s.expected.Some? ==> s.expected.value == PointOf(secret)
    ensures Verdict(s, 2) == Success(Done(KeyShare(2, Some(UpstreamParty(3, PointOf3(s, 2), secret))), PointOf(secret)))
  {
    hide IsPrime, JointSecret, PointOf3;
  }

  /** A key generation whose sum is the line `l`: the others contribute nothing. */
  function KeygenSession(q: int, id: int, l: Line): Session
    requires 0 < q
  {
    Session(q, id, GeneratedRows(q, [l, Line(0, 0), Line(0, 0)]), None)
  }

  function Keygen(q: int, wallet: WalletId, session: Id32, l: Line): seq<Event>
    requires 0 < q
  {
    var s := KeygenSession(q, 0, l);
    [StartKey(wallet, session, 0, s.rows[2], 0), AdvanceKey(wallet, session, Fragments(s), 0),
     AdvanceKey(wallet, session, Second(s), 0), AdvanceKey(wallet, session, Third(s), 0)]
  }

  lemma KeygenStores(q: int, w: World, wallet: WalletId, session: Id32, l: Line)
    requires FieldOrder(q) && l.constant % q != 0 && session !in w.db.generating && wallet !in w.db.keys
    ensures var w' := Steps(q, w, Keygen(q, wallet, session, l));
      w'.db == w.db.(keys := w.db.keys[wallet := KeyRow(HeldShare(q, l.constant, l.slope, 3), PointOf(l.constant % q))])
  {
    hide IsPrime, Advanced, HeldShare, AfterRound2, AfterRound3, Sent2, Sent3, Second, Third, Fragments;
    var s, lines := KeygenSession(q, 0, l), [l, Line(0, 0), Line(0, 0)];
    assert RowsAreLines(s, lines);
    HonestServerRounds(s, lines);
    var es := Keygen(q, wallet, session, l);
    FourSteps(q, w, es[0], es[1], es[2], es[3]);
    KeygenRounds(q, w, wallet, session, s, HeldShare(q, l.constant, l.slope, 3), PointOf(l.constant % q));
  }

  lemma KeygenRounds(q: int, w: World, wallet: WalletId, session: Id32, s: Session, share: KeyShare, key: PublicKey)
    requires FieldOrder(q) && ValidSession(s) && s.q == q && s.expected == None && session !in w.db.generating && wallet !in w.db.keys
    requires Advanced(q, AfterStart(s, 2), Fragments(s)) == (AfterRound2(s, 2), Success(Send(Sent2(s, 2))))
    requires Advanced(q, AfterRound2(s, 2), Second(s)) == (AfterRound3(s, 2), Success(Send(Sent3(s, 2))))
    requires Advanced(q, AfterRound3(s, 2), Third(s)).1 == Success(Done(share, key))
    ensures var w' := Step(q, Step(q, Step(q, Step(q, w, StartKey(wallet, session, s.id, s.rows[2], 0)),
        AdvanceKey(wallet, session, Fragments(s), 0)), AdvanceKey(wallet, session, Second(s), 0)), AdvanceKey(wallet, session, Third(s), 0));
      w'.db == w.db.(keys := w.db.keys[wallet := KeyRow(share, key)])
  {
    hide IsPrime, Advanced, AfterRound2, AfterRound3, Sent2, Sent3, Second, Third, Fragments, Started;
    var w1 := Step(q, w, StartKey(wallet, session, s.id, s.rows[2], 0));
    StartIsAfterStart(s);
    assert w1.db.generating[session] == SessionRow(wallet, AfterStart(s, 2), SESSION_TTL_SECONDS);
    var w2 := Step(q, w1, AdvanceKey(wallet, session, Fragments(s), 0));
    assert w2.db.generating[session] == SessionRow(wallet, AfterRound2(s, 2), SESSION_TTL_SECONDS);
    var w3 := Step(q, w2, AdvanceKey(wallet, session, Second(s), 0));
    assert w3.db.generating[session] == SessionRow(wallet, AfterRound3(s, 2), SESSION_TTL_SECONDS);
    var w4 := Step(q, w3, AdvanceKey(wallet, session, Third(s), 0));
    assert w4.db.generating == w.db.generating;
  }

  lemma StartIsAfterStart(s: Session)
    requires Square(s.rows)
    ensures Started(SERVER_PARTY, s.id, s.rows[2], s.expected).0 == AfterStart(s, 2)
  {
  }

  /** The reshare of a wallet on the line `l` by parties B and C, with fresh slopes `ri` and `rk`. */
  function ReshareOf(q: int, id: int, l: Line, ri: int, rk: int): (s: Session)
    requires FieldOrder(q)
    ensures ValidSession(s) && s.q == q
  {
    var lines := LinesOf(q, l, ri, rk);
    Session(q, id, GeneratedRows(q, lines), Some(PointOf(l.constant % q)))
  }

  function LinesOf(q: int, l: Line, ri: int, rk: int): (lines: seq<Line>)
    requires FieldOrder(q)
    ensures |lines| == 3
  {
    ReshareLines(q, RECOVERY_PARTY, LineShare(q, l.constant, l.slope, 2).point, ri,
      SERVER_PARTY, LineShare(q, l.constant, l.slope, 3).point, rk)
  }

  /** In that reshare the server contributes the row it computes from its share, and all three rounds work. */
  lemma ReshareOfWorks(q: int, id: int, l: Line, ri: int, rk: int)
    requires FieldOrder(q) && l.constant % q != 0
    ensures var s, lines := ReshareOf(q, id, l, ri, rk), LinesOf(q, l, ri, rk);
      && TotalConstant(lines) % q == l.constant % q
      && RoleRow(q, SERVER_PARTY, Survivor(HeldShare(q, l.constant, l.slope, 3), RECOVERY_PARTY, SERVER_PARTY, rk)) == Success(s.rows[2])
      && Advanced(q, AfterStart(s, 2), Fragments(s)) == (AfterRound2(s, 2), Success(Send(Sent2(s, 2))))
      && Advanced(q, AfterRound2(s, 2), Second(s)) == (AfterRound3(s, 2), Success(Send(Sent3(s, 2))))
      && Advanced(q, AfterRound3(s, 2), Third(s)).1
         == Success(Done(HeldShare(q, TotalConstant(lines), TotalSlope(lines), 3), PointOf(l.constant % q)))
  {
    hide IsPrime, Advanced, AfterStart, AfterRound2, AfterRound3, Sent2, Sent3, Second, Third, Fragments,
      RoleRow, TotalConstant, TotalSlope, ReshareLines, SurvivingSecret;
    var s, lines := ReshareOf(q, id, l, ri, rk), LinesOf(q, l, ri, rk);
    var si, sk := HeldShare(q, l.constant, l.slope, 2), HeldShare(q, l.constant, l.slope, 3);
    ReshareRowsAreLines(q, RECOVERY_PARTY, si, ri, SERVER_PARTY, sk, rk);
    SurvivorsRecover(q, l);
    assert RoleOf(SERVER_PARTY, RECOVERY_PARTY, si, ri, SERVER_PARTY, sk, rk) == Survivor(sk, RECOVERY_PARTY, SERVER_PARTY, rk);
    assert RowsAreLines(s, lines);
    HonestServerRounds(s, lines);
  }

  lemma SurvivorsRecover(q: int, l: Line)
    requires FieldOrder(q)
    ensures SurvivingSecret(q, RECOVERY_PARTY, LineShare(q, l.constant, l.slope, 2).point,
        SERVER_PARTY, LineShare(q, l.constant, l.slope, 3).point) == l.constant % q
  {
    hide IsPrime, Interpolate;
    LineRecovers(q, l.constant, l.slope, 2, 3);
    assert SurvivorPoints(RECOVERY_PARTY, LineShare(q, l.constant, l.slope, 2).point, SERVER_PARTY, LineShare(q, l.constant, l.slope, 3).point)
        == [LineShare(q, l.constant, l.slope, 2), LineShare(q, l.constant, l.slope, 3)];
  }

  /** Both wallets start a reshare under the id `reshare`; the first one drives and commits it. */
  function Mix(q: int, a: WalletId, b: WalletId, reshare: Id32, s: Session, slope: int, rk: int): seq<Event>
    requires FieldOrder(q) && ValidSession(s)
  {
    [Start(a, reshare, s.id, slope, 0), Start(b, reshare, s.id, rk, 0), Advance(a, reshare, Fragments(s), 0),
     Advance(a, reshare, Second(s), 0), Advance(a, reshare, Third(s), 0), Commit(a, reshare, 0)]
  }

  /** What the shared id leads to: the reshare of `b` becomes live as the share of `a`. */
  lemma MixedRounds(q: int, w: World, a: WalletId, b: WalletId, reshare: Id32, s: Session, slope: int, rk: int, share: KeyShare, key: PublicKey)
    requires FieldOrder(q) && ValidSession(s) && s.q == q && a != b
    requires a in w.db.keys && b in w.db.keys && reshare !in w.db.sessions && s.expected == Some(w.db.keys[b].publicKey)
    requires RoleRow(q, SERVER_PARTY, Survivor(w.db.keys[a].share, RECOVERY_PARTY, SERVER_PARTY, slope)).Success?
    requires RoleRow(q, SERVER_PARTY, Survivor(w.db.keys[b].share, RECOVERY_PARTY, SERVER_PARTY, rk)) == Success(s.rows[2])
    requires Advanced(q, AfterStart(s, 2), Fragments(s)) == (AfterRound2(s, 2), Success(Send(Sent2(s, 2))))
    requires Advanced(q, AfterRound2(s, 2), Second(s)) == (AfterRound3(s, 2), Success(Send(Sent3(s, 2))))
    requires Advanced(q, AfterRound3(s, 2), Third(s)).1 == Success(Done(share, key))
    ensures var w' := Steps(q, w, Mix(q, a, b, reshare, s, slope, rk));
      w'.db.keys == w.db.keys[a := KeyRow(share, w.db.keys[a].publicKey)]
  {
    hide IsPrime, Advanced, AfterRound2, AfterRound3, Sent2, Sent3, Second, Third, Fragments, Started, RoleRow;
    var es := Mix(q, a, b, reshare, s, slope, rk);
    SixSteps(q, w, es);
    var w1 := Step(q, w, es[0]);
    RowLength(q, SERVER_PARTY, Survivor(w.db.keys[a].share, RECOVERY_PARTY, SERVER_PARTY, slope));
    var w2 := Step(q, w1, es[1]);
    StartIsAfterStart(s);
    assert w2.db.sessions[reshare] == SessionRow(a, AfterStart(s, 2), SESSION_TTL_SECONDS);
    var w3 := Step(q, w2, es[2]);
    assert w3.db.sessions[reshare] == SessionRow(a, AfterRound2(s, 2), SESSION_TTL_SECONDS);
    var w4 := Step(q, w3, es[3]);
    assert w4.db.sessions[reshare] == SessionRow(a, AfterRound3(s, 2), SESSION_TTL_SECONDS);
    var w5 := Step(q, w4, es[4]);
    assert w5.db.staged[a] == StagedRow(reshare, share, STAGED_TTL_SECONDS);
  }

  lemma TwoSteps(q: int, w: World, a: Event, b: Event)
    requires FieldOrder(q)
    ensures Steps(q, w, [a, b]) == Step(q, Step(q, w, a), b)
  {
    hide IsPrime, Step;
    assert [a, b][1..] == [b] && [b][1..] == [];
    assert Steps(q, Step(q, w, a), [b]) == Step(q, Step(q, w, a), b);
  }

  lemma SixSteps(q: int, w: World, es: seq<Event>)
    requires FieldOrder(q) && |es| == 6
    ensures Steps(q, w, es) == Step(q, Step(q, Step(q, Step(q, Step(q, Step(q, w, es[0]), es[1]), es[2]), es[3]), es[4]), es[5])
  {
    hide IsPrime, Step;
    assert es == [es[0], es[1], es[2], es[3]] + [es[4], es[5]];
    StepsOfTwo(q, w, [es[0], es[1], es[2], es[3]], [es[4], es[5]]);
    FourSteps(q, w, es[0], es[1], es[2], es[3]);
    TwoSteps(q, Steps(q, w, [es[0], es[1], es[2], es[3]]), es[4], es[5]);
  }

  /** The run behind it: two wallets are made, and their reshares share one id. */
  function SharedIdRun(q: int, a: WalletId, la: Line, b: WalletId, lb: Line, generation: Id32, reshare: Id32, slope: int, ri: int, rk: int): seq<Event>
    requires FieldOrder(q)
  {
    Keygen(q, a, generation, la) + Keygen(q, b, generation, lb) + Mix(q, a, b, reshare, ReshareOf(q, 0, lb, ri, rk), slope, rk)
  }

  /** After both key generations the server holds both keys and nothing else. */
  lemma TwoWallets(q: int, a: WalletId, la: Line, b: WalletId, lb: Line, generation: Id32)
    requires FieldOrder(q) && a != b && la.constant % q != 0 && lb.constant % q != 0
    ensures var w := Steps(q, Empty, Keygen(q, a, generation, la) + Keygen(q, b, generation, lb));
      w.db == Db(map[a := KeyRow(HeldShare(q, la.constant, la.slope, 3), PointOf(la.constant % q)),
                     b := KeyRow(HeldShare(q, lb.constant, lb.slope, 3), PointOf(lb.constant % q))], map[], map[], map[])
  {
    hide IsPrime, Step, Keygen, HeldShare;
    StepsOfTwo(q, Empty, Keygen(q, a, generation, la), Keygen(q, b, generation, lb));
    KeygenStores(q, Empty, a, generation, la);
    KeygenStores(q, Steps(q, Empty, Keygen(q, a, generation, la)), b, generation, lb);
  }

  lemma RoleRowWorks(q: int, l: Line, slope: int)
    requires FieldOrder(q)
    ensures RoleRow(q, SERVER_PARTY, Survivor(HeldShare(q, l.constant, l.slope, 3), RECOVERY_PARTY, SERVER_PARTY, slope)).Success?
  {
    hide IsPrime, LineRow, SurvivorWeight, LineShare;
    WeightedSharesInterpolate(q, RECOVERY_PARTY, 0, SERVER_PARTY, 0);
  }

  lemma ExpectedOf(q: int, id: int, l: Line, ri: int, rk: int)
    requires FieldOrder(q)
    ensures ReshareOf(q, id, l, ri, rk).expected == Some(PointOf(l.constant % q))
  {
    hide IsPrime;
  }

  /** The run leaves the line that `b` reshared to under the key of `a`. */
  lemma RunMixes(q: int, a: WalletId, la: Line, b: WalletId, lb: Line, generation: Id32, reshare: Id32, slope: int, ri: int, rk: int)
    requires FieldOrder(q) && a != b && la.constant % q != 0 && lb.constant % q != 0
    ensures var keys, lines := Run(q, SharedIdRun(q, a, la, b, lb, generation, reshare, slope, ri, rk)).db.keys, LinesOf(q, lb, ri, rk);
      && TotalConstant(lines) % q == lb.constant % q
      && a in keys && keys[a] == KeyRow(HeldShare(q, TotalConstant(lines), TotalSlope(lines), 3), PointOf(la.constant % q))
  {
    hide IsPrime, Step, Keygen, Mix, Advanced, RoleRow, TotalConstant, TotalSlope, HeldShare, ReshareOf, LinesOf,
      AfterStart, AfterRound2, AfterRound3, Sent2, Sent3, Fragments, Second, Third;
    var made, s, lines := Keygen(q, a, generation, la) + Keygen(q, b, generation, lb), ReshareOf(q, 0, lb, ri, rk), LinesOf(q, lb, ri, rk);
    RunIsSteps(q, SharedIdRun(q, a, la, b, lb, generation, reshare, slope, ri, rk));
    StepsOfTwo(q, Empty, made, Mix(q, a, b, reshare, s, slope, rk));
    TwoWallets(q, a, la, b, lb, generation);
    RoleRowWorks(q, la, slope);
    ReshareOfWorks(q, 0, lb, ri, rk);
    ExpectedOf(q, 0, lb, ri, rk);
    MixedRounds(q, Steps(q, Empty, made), a, b, reshare, s, slope, rk,
      HeldShare(q, TotalConstant(lines), TotalSlope(lines), 3), PointOf(lb.constant % q));
  }

  /** Over every such run, for any two wallets, keys and slopes: afterwards the live share of `a` is one of
      `b`'s key, so that it fits its own exactly when the two keys are the same. */
  lemma SharedIdMixesWallets(q: int, a: WalletId, la: Line, b: WalletId, lb: Line, generation: Id32, reshare: Id32, slope: int, ri: int, rk: int)
    requires FieldOrder(q) && a != b && la.constant % q != 0 && lb.constant % q != 0
    ensures var keys := Run(q, SharedIdRun(q, a, la, b, lb, generation, reshare, slope, ri, rk)).db.keys;
      && a in keys && keys[a].publicKey == PointOf(la.constant % q)
      && Fits(q, keys[a].share, PointOf(lb.constant % q))
      && (Fits(q, keys[a].share, keys[a].publicKey) <==> la.constant % q == lb.constant % q)
  {
    hide IsPrime, Run, SharedIdRun, TotalConstant, TotalSlope, LineShare, LinesOf;
    RunMixes(q, a, la, b, lb, generation, reshare, slope, ri, rk);
    ReducedTwice(q, TotalConstant(LinesOf(q, lb, ri, rk)));
  }
}
