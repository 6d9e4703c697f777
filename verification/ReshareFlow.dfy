/** The reshare of a restored wallet across the extension's worker, the server and the user
    (packages/extension/entrypoints/background.ts:675-845). Every await is a place where anything else
    may happen: other messages, lost replies, a dying worker, an abort, an expiry. */
module ReshareFlow {
  import opened Prelude
  import opened Modular
  import opened Shamir
  import opened Keys
  import opened Backend
  import opened Ceremony

  type ReshareId = int

  /** One request to the server; each is made once and answered at most once. */
  type CallId = int

  /** The in-memory object of a finished reshare. Wiping overwrites the share in place. */
  datatype Reshare = Reshare(shareA: KeyShare, committed: bool)

  datatype Phase = Idle | Working | Ready(fileB: KeyShare) | Failed

  /** One running `performReshare`: the token it started under and the old share it unlocked. */
  datatype Task = Task(token: int, oldB: KeyShare)

  /** The worker's module-level state, and where its asynchronous calls are waiting. */
  datatype Worker = Worker(
    token: int,
    run: Phase,
    starting: set<ReshareId>,
    tasks: map<ReshareId, Task>,
    pending: Option<ReshareId>,
    objects: map<ReshareId, Reshare>,
    confirming: map<CallId, ReshareId>,
    storing: set<ReshareId>,
    cancelling: set<ReshareId>)

  const FreshWorker := Worker(0, Idle, {}, map[], None, map[], map[], {}, {})

  /** A wiped share decodes to nothing. */
  const WIPED := KeyShare(0, None)

  // ---- the worker's steps ------------------------------------------------------------------------------

  predicate MayStart(w: Worker, vault: KeyShare) {
    vault.party == 1 && w.pending.None? && w.run.Idle?
  }

  /** The checks have passed; the password is checked next, which takes a while. */
  function Ask(w: Worker, id: ReshareId): Worker {
    w.(starting := w.starting + {id})
  }

  function Begin(w: Worker, id: ReshareId, vault: KeyShare): Worker {
    w.(starting := w.starting - {id}, run := Working, token := w.token + 1, tasks := w.tasks[id := Task(w.token + 1, vault)])
  }

  /** The protocol finished for a run that is still wanted. */
  function Adopt(w: Worker, id: ReshareId, shareA: KeyShare, fileB: KeyShare): Worker {
    w.(tasks := w.tasks - {id}, pending := Some(id), objects := w.objects[id := Reshare(shareA, false)], run := Ready(fileB))
  }

  /** A run that failed, or one that was cancelled while it worked. */
  function Drop(w: Worker, id: ReshareId): Worker {
    w.(tasks := w.tasks - {id}, run := if id in w.tasks && w.tasks[id].token == w.token then Failed else w.run)
  }

  function Report(w: Worker): Worker {
    if w.run.Failed? then w.(run := Idle) else w
  }

  function Take(w: Worker): Worker {
    if w.run.Ready? then w.(run := Idle) else w
  }

  /** Confirming skips the commit when it is already known to have happened. */
  function ConfirmFrom(w: Worker, id: ReshareId, call: CallId): Worker {
    if id in w.objects && w.objects[id].committed then w.(storing := w.storing + {id})
    else w.(confirming := w.confirming[call := id])
  }

  function CommitSeen(w: Worker, call: CallId): Worker
    requires call in w.confirming
  {
    var id := w.confirming[call];
    if id !in w.objects then w
    else w.(confirming := w.confirming - {call}, storing := w.storing + {id}, objects := w.objects[id := w.objects[id].(committed := true)])
  }

  function StoredLocally(w: Worker, id: ReshareId): Worker {
    w.(storing := w.storing - {id}, pending := None)
  }

  /** Nothing pending: forget the run. Otherwise wait for the abort, unless the commit is known. */
  function CancelFrom(w: Worker): Worker {
    match w.pending
    case None => w.(token := w.token + 1, run := Idle)
    case Some(id) => if id in w.objects && w.objects[id].committed then w else w.(cancelling := w.cancelling + {id})
  }

  function CancelEnd(w: Worker, id: ReshareId): Worker {
    w.(cancelling := w.cancelling - {id}, pending := None,
       objects := if id in w.objects then w.objects[id := w.objects[id].(shareA := WIPED)] else w.objects)
  }

  datatype Confirmation = NothingPending | SendCommit | OnlyStore

  /** The background script's reshare state. Each method runs from one await to the next. */
  class Background {
    var reshareToken: int
    var reshareRun: Phase
    var starting: set<ReshareId>
    var tasks: map<ReshareId, Task>
    var pendingReshare: Option<ReshareId>
    var objects: map<ReshareId, Reshare>
    var confirming: map<CallId, ReshareId>
    var storing: set<ReshareId>
    var cancelling: set<ReshareId>

    ghost function State(): Worker
      reads this
    {
      Worker(reshareToken, reshareRun, starting, tasks, pendingReshare, objects, confirming, storing, cancelling)
    }

    constructor ()
      ensures State() == FreshWorker
    {
      reshareToken, reshareRun, tasks, pendingReshare, objects := 0, Idle, map[], None, map[];
      starting, confirming, storing, cancelling := {}, map[], {}, {};
    }

    method StartReshare(id: ReshareId, vault: KeyShare) returns (ok: bool)
      modifies this
      ensures ok == old(MayStart(State(), vault))
      ensures State() == if ok then Ask(old(State()), id) else old(State())
    {
      if vault.party != 1 {
        return false;
      }
      if pendingReshare.Some? || !reshareRun.Idle? {
        return false;
      }
      starting := starting + {id};
      ok := true;
    }

    /** `startReshare` after the password was right. */
    method PasswordChecked(id: ReshareId, vault: KeyShare)
      modifies this
      ensures State() == Begin(old(State()), id, vault)
    {
      starting := starting - {id};
      reshareRun := Working;
      reshareToken := reshareToken + 1;
      tasks := tasks[id := Task(reshareToken, vault)];
    }

    /** `performReshare` after `runReshare` came back; `abort` asks the server to undo a cancelled run. */
    method FinishRun(id: ReshareId, shareA: KeyShare, fileB: KeyShare) returns (abort: bool)
      requires id in tasks
      modifies this
      ensures abort == old(tasks[id].token != reshareToken)
      ensures State() == if abort then Drop(old(State()), id) else Adopt(old(State()), id, shareA, fileB)
    {
      var token := tasks[id].token;
      tasks := tasks - {id};
      if token != reshareToken {
        return true;
      }
      pendingReshare := Some(id);
      objects := objects[id := Reshare(shareA, false)];
      reshareRun := Ready(fileB);
      abort := false;
    }

    method FailRun(id: ReshareId)
      requires id in tasks
      modifies this
      ensures State() == Drop(old(State()), id)
    {
      var token := tasks[id].token;
      tasks := tasks - {id};
      if token == reshareToken {
        reshareRun := Failed;
      }
    }

    method ReshareProgress() returns (phase: Phase)
      modifies this
      ensures phase == old(reshareRun) && State() == Report(old(State()))
    {
      phase := reshareRun;
      if phase.Failed? {
        reshareRun := Idle;
      }
    }

    method TakeReshareRecovery() returns (fileB: Option<KeyShare>)
      modifies this
      ensures fileB == (if old(reshareRun).Ready? then Some(old(reshareRun).fileB) else None) && State() == Take(old(State()))
    {
      fileB := None;
      if reshareRun.Ready? {
        fileB := Some(reshareRun.fileB);
        reshareRun := Idle;
      }
    }

    /** With nothing pending the call fails; a commit goes out unless one is known to have happened. */
    method ConfirmReshareSaved(call: CallId) returns (r: Confirmation)
      requires pendingReshare.Some? ==> pendingReshare.value in objects
      modifies this
      ensures r == old(if pendingReshare.None? then NothingPending
                       else if objects[pendingReshare.value].committed then OnlyStore else SendCommit)
      ensures State() == if r.NothingPending? then old(State()) else ConfirmFrom(old(State()), old(pendingReshare).value, call)
    {
      if pendingReshare.None? {
        return NothingPending;
      }
      var id := pendingReshare.value;
      if objects[id].committed {
        storing := storing + {id};
        return OnlyStore;
      }
      confirming := confirming[call := id];
      r := SendCommit;
    }

    method CommitReturned(call: CallId)
      requires call in confirming && confirming[call] in objects
      modifies this
      ensures State() == CommitSeen(old(State()), call)
    {
      var id := confirming[call];
      objects := objects[id := objects[id].(committed := true)];
      confirming, storing := confirming - {call}, storing + {id};
    }

    /** The vault write came through: it holds what the object held when it was encrypted. */
    method VaultWritten(id: ReshareId) returns (vault: KeyShare)
      requires id in storing && id in objects
      modifies this
      ensures State() == StoredLocally(old(State()), id) && vault == KeyShare(0, old(objects[id]).shareA.secret)
    {
      vault := KeyShare(0, objects[id].shareA.secret);
      storing := storing - {id};
      pendingReshare := None;
    }

    /** `send` names the reshare whose abort goes out now. */
    method CancelReshare() returns (send: Option<ReshareId>)
      modifies this
      ensures State() == CancelFrom(old(State()))
      ensures send == old(if pendingReshare.Some? && !(pendingReshare.value in objects && objects[pendingReshare.value].committed)
                          then pendingReshare else None)
    {
      send := None;
      if pendingReshare.None? {
        reshareToken := reshareToken + 1;
        reshareRun := Idle;
      } else if !(pendingReshare.value in objects && objects[pendingReshare.value].committed) {
        send := pendingReshare;
        cancelling := cancelling + {pendingReshare.value};
      }
    }

    method AbortReturned(id: ReshareId)
      modifies this
      ensures State() == CancelEnd(old(State()), id)
    {
      cancelling := cancelling - {id};
      if id in objects {
        objects := objects[id := objects[id].(shareA := WIPED)];
      }
      pendingReshare := None;
    }
  }

  // ---- the whole system ----------------------------------------------------------------------------------

  /** An open session on the server: the share it started from. */
  datatype Session = Session(oldB: KeyShare, live: KeyShare)

  datatype Message = CommitSent(id: ReshareId, call: CallId) | AbortSent(id: ReshareId) | CommitOk(id: ReshareId, call: CallId)

  /** `outcomes` are the three shares each finished reshare produced; `liveFrom` names the reshare whose
      share is live, if any was committed; `began` are the grants already spent and `calls` the requests
      already made. */
  datatype World = World(
    worker: Worker,
    vault: KeyShare,
    shown: set<KeyShare>,
    files: set<KeyShare>,
    live: KeyShare,
    liveFrom: Option<ReshareId>,
    staged: Option<ReshareId>,
    sessions: map<ReshareId, Session>,
    began: set<ReshareId>,
    outcomes: map<ReshareId, seq<KeyShare>>,
    calls: set<CallId>,
    net: set<Message>)

  datatype Event =
    | Asks(id: ReshareId)
    | Start(id: ReshareId)
    | SessionOpens(id: ReshareId)
    | RoundsFinish(id: ReshareId, rb: int, rc: int)
    | SessionEnds(id: ReshareId)
    | RunReturns(id: ReshareId)
    | RunFails(id: ReshareId)
    | PopupPolls
    | PopupTakes
    | UserSaves(file: KeyShare)
    | Confirm(call: CallId)
    | CommitArrives(id: ReshareId, call: CallId)
    | CommitReplies(call: CallId)
    | CommitLost(call: CallId)
    | VaultWrites(id: ReshareId)
    | Cancel
    | CancelReturns(id: ReshareId)
    | AbortArrives(id: ReshareId)
    | StagedExpires
    | Crash

  /** A wallet: its field, its secret, and the line its current shares lie on. */
  datatype Wallet = Wallet(q: int, secret: int, slope: int)

  ghost predicate ValidWallet(m: Wallet) {
    FieldOrder(m.q) && m.secret % m.q != 0
  }

  function Key(m: Wallet): PublicKey
    requires 0 < m.q
  {
    PointOf(m.secret % m.q)
  }

  /** Restored from the recovery file: the vault holds B, the server holds C. */
  function Restored(m: Wallet, files: set<KeyShare>): World
    requires 0 < m.q
  {
    World(FreshWorker, HeldShare(m.q, m.secret, m.slope, 2), {}, files, HeldShare(m.q, m.secret, m.slope, 3), None, None,
          map[], {}, map[], {}, {})
  }

  /** The last round: the server stages its new share when the run is accepted, and drops the session
      either way. */
  ghost function Finished(m: Wallet, w: World, id: ReshareId, rb: int, rc: int): World
    requires ValidWallet(m) && id in w.sessions
  {
    var s := w.sessions[id];
    var closed := w.(sessions := w.sessions - {id}, staged := if w.staged == Some(id) then None else w.staged);
    if !SurvivorShares(1, s.oldB, 2, s.live) then closed
    else
      match ReshareOutcome(m.q, 1, s.oldB.secret.value.polyPoint, rb, 2, s.live.secret.value.polyPoint, rc, Key(m))
      case Failure(_) => closed
      case Success((shares, _)) => w.(sessions := w.sessions - {id}, staged := Some(id), outcomes := w.outcomes[id := shares])
  }

  ghost function Step(m: Wallet, w: World, e: Event): World
    requires ValidWallet(m)
  {
    match e
    case Asks(id) => if MayStart(w.worker, w.vault) then w.(worker := Ask(w.worker, id)) else w
    case Start(id) =>
      if id in w.worker.starting && id !in w.began && id !in w.worker.tasks then w.(worker := Begin(w.worker, id, w.vault)) else w
    case SessionOpens(id) =>
      if id in w.worker.tasks && id !in w.began
      then w.(began := w.began + {id}, sessions := w.sessions[id := Session(w.worker.tasks[id].oldB, w.live)]) else w
    case RoundsFinish(id, rb, rc) => if id in w.sessions then Finished(m, w, id, rb, rc) else w
    case SessionEnds(id) => w.(sessions := w.sessions - {id})
    case RunReturns(id) =>
      if id in w.worker.tasks && id in w.outcomes && |w.outcomes[id]| == 3 then
        if w.worker.tasks[id].token != w.worker.token then w.(worker := Drop(w.worker, id), net := w.net + {AbortSent(id)})
        else w.(worker := Adopt(w.worker, id, w.outcomes[id][0], w.outcomes[id][1]))
      else w
    case RunFails(id) => if id in w.worker.tasks then w.(worker := Drop(w.worker, id), net := w.net + {AbortSent(id)}) else w
    case PopupPolls => w.(worker := Report(w.worker))
    case PopupTakes =>
      if w.worker.run.Ready? then w.(worker := Take(w.worker), shown := w.shown + {w.worker.run.fileB}) else w
    case UserSaves(file) => if file in w.shown then w.(files := w.files + {file}) else w
    case Confirm(call) =>
      if w.worker.pending.Some? && w.worker.pending.value in w.worker.objects && call !in w.calls then
        var id := w.worker.pending.value;
        w.(worker := ConfirmFrom(w.worker, id, call), calls := w.calls + {call},
           net := if w.worker.objects[id].committed then w.net else w.net + {CommitSent(id, call)})
      else w
    case CommitArrives(id, call) =>
      if CommitSent(id, call) !in w.net then w
      else
        var taken := w.net - {CommitSent(id, call)};
        if w.staged == Some(id) && id in w.outcomes && |w.outcomes[id]| == 3
        then w.(live := w.outcomes[id][2], liveFrom := Some(id), staged := None, net := taken + {CommitOk(id, call)})
        else w.(net := taken)
    case CommitReplies(call) =>
      if call in w.worker.confirming && CommitOk(w.worker.confirming[call], call) in w.net
      then w.(worker := CommitSeen(w.worker, call), net := w.net - {CommitOk(w.worker.confirming[call], call)}) else w
    case CommitLost(call) => w.(worker := w.worker.(confirming := w.worker.confirming - {call}))
    case VaultWrites(id) =>
      if id in w.worker.storing && id in w.worker.objects
      then w.(worker := StoredLocally(w.worker, id), vault := KeyShare(0, w.worker.objects[id].shareA.secret)) else w
    case Cancel =>
      w.(worker := CancelFrom(w.worker),
         net := if w.worker.pending.Some? && !(w.worker.pending.value in w.worker.objects && w.worker.objects[w.worker.pending.value].committed)
                then w.net + {AbortSent(w.worker.pending.value)} else w.net)
    case CancelReturns(id) => if id in w.worker.cancelling then w.(worker := CancelEnd(w.worker, id)) else w
    case AbortArrives(id) =>
      if AbortSent(id) in w.net
      then w.(sessions := w.sessions - {id}, staged := if w.staged == Some(id) then None else w.staged) else w
    case StagedExpires => w.(staged := None)
    case Crash => w.(worker := FreshWorker)
  }

  /** The one thing asked of the user: confirm only once the new file is saved. */
  ghost predicate Careful(w: World, e: Event) {
    e.Confirm? && w.worker.pending.Some? && w.worker.pending.value in w.outcomes && |w.outcomes[w.worker.pending.value]| == 3 ==>
      w.outcomes[w.worker.pending.value][1] in w.files
  }

  ghost function Run(m: Wallet, files: set<KeyShare>, events: seq<Event>): World
    requires ValidWallet(m)
  {
    if events == [] then Restored(m, files) else Step(m, Run(m, files, events[..|events| - 1]), events[|events| - 1])
  }

  ghost predicate CarefulRun(m: Wallet, files: set<KeyShare>, events: seq<Event>)
    requires ValidWallet(m)
  {
    events == [] || (CarefulRun(m, files, events[..|events| - 1]) && Careful(Run(m, files, events[..|events| - 1]), events[|events| - 1]))
  }

  // ---- what every state keeps ------------------------------------------------------------------------------

  /** Three shares of one line with the wallet's secret. */
  ghost predicate OneEpoch(m: Wallet, shares: seq<KeyShare>, slope: int)
    requires 0 < m.q
  {
    shares == [HeldShare(m.q, m.secret, slope, 1), HeldShare(m.q, m.secret, slope, 2), HeldShare(m.q, m.secret, slope, 3)]
  }

  ghost predicate OutcomesInv(m: Wallet, w: World)
    requires 0 < m.q
  {
    && (forall id :: id in w.outcomes ==> id in w.began && id !in w.sessions && exists slope :: OneEpoch(m, w.outcomes[id], slope))
    && (forall id :: id in w.sessions ==> id in w.began)
    && (w.staged.Some? ==> w.staged.value in w.outcomes)
  }

  /** Objects come from outcomes. */
  ghost predicate ObjectsInv(w: World) {
    forall id :: id in w.worker.objects ==> (
      && id in w.outcomes && |w.outcomes[id]| == 3
      && (w.worker.objects[id].shareA == w.outcomes[id][0] || w.worker.objects[id].shareA == WIPED))
  }

  /** A commit is only out for a reshare whose file is saved. */
  ghost predicate SentInv(w: World) {
    forall id, call :: CommitSent(id, call) in w.net ==> id in w.outcomes && |w.outcomes[id]| == 3 && w.outcomes[id][1] in w.files
  }

  /** Where a commit is answered, known or being stored, one has happened, and of a reshare that is no
      longer staged. */
  ghost predicate KnownInv(w: World) {
    && (forall id, call :: CommitOk(id, call) in w.net ==> w.liveFrom.Some? && id in w.outcomes && w.staged != Some(id))
    && (forall id :: id in w.worker.storing ==> w.liveFrom.Some? && id in w.outcomes && w.staged != Some(id))
    && (forall id :: id in w.worker.objects && w.worker.objects[id].committed ==> w.liveFrom.Some? && w.staged != Some(id))
  }

  /** Before any commit nothing has changed; after one, the live share's own recovery file is saved. */
  ghost predicate LiveInv(m: Wallet, w: World)
    requires 0 < m.q
  {
    match w.liveFrom
    case None => w.live == HeldShare(m.q, m.secret, m.slope, 3) && w.vault == HeldShare(m.q, m.secret, m.slope, 2)
    case Some(id) => id in w.outcomes && |w.outcomes[id]| == 3 && w.live == w.outcomes[id][2] && w.outcomes[id][1] in w.files
  }

  ghost predicate Inv(m: Wallet, w: World)
    requires 0 < m.q
  {
    OutcomesInv(m, w) && ObjectsInv(w) && SentInv(w) && KnownInv(w) && LiveInv(m, w)
  }

  /** Whatever two shares the run was given: accepted means the wallet's secret, on a fresh line. */
  lemma AcceptedIsOneEpoch(m: Wallet, yb: int, rb: int, yc: int, rc: int)
    requires ValidWallet(m)
    ensures var r := ReshareOutcome(m.q, 1, yb, rb, 2, yc, rc, Key(m));
      r.Success? ==> OneEpoch(m, r.value.0, rb + rc)
  {
    hide IsPrime, Interpolate, SurvivingSecret;
    var secret := SurvivingSecret(m.q, 1, yb, 2, yc);
    SurvivingSecretIsCanonical(m.q, 1, yb, 2, yc);
    KeyNamesScalar(m.q, secret, m.secret % m.q);
    if ReshareOutcome(m.q, 1, yb, rb, 2, yc, rc, Key(m)).Success? {
      SharesDependOnSecretOnly(m.q, m.secret, m.secret % m.q, rb + rc);
    }
  }

  lemma FinishKeepsInv(m: Wallet, w: World, id: ReshareId, rb: int, rc: int)
    requires ValidWallet(m) && Inv(m, w) && id in w.sessions
    ensures Inv(m, Finished(m, w, id, rb, rc))
  {
    hide IsPrime, ReshareOutcome, HeldShare;
    var s := w.sessions[id];
    if SurvivorShares(1, s.oldB, 2, s.live) {
      AcceptedIsOneEpoch(m, s.oldB.secret.value.polyPoint, rb, s.live.secret.value.polyPoint, rc);
    }
  }

  lemma StepKeepsOutcomes(m: Wallet, w: World, e: Event)
    requires ValidWallet(m) && OutcomesInv(m, w) && !e.RoundsFinish?
    ensures OutcomesInv(m, Step(m, w, e)) && Step(m, w, e).outcomes == w.outcomes
    ensures w.files <= Step(m, w, e).files
  {
    hide IsPrime, HeldShare, OneEpoch, MayStart;
    hide Ask, Begin, Adopt, Drop, Report, Take, ConfirmFrom, CommitSeen, StoredLocally, CancelFrom, CancelEnd;
  }

  lemma StepKeepsLive(m: Wallet, w: World, e: Event)
    requires ValidWallet(m) && Inv(m, w) && Careful(w, e) && !e.RoundsFinish?
    ensures LiveInv(m, Step(m, w, e))
    ensures w.liveFrom.Some? ==> Step(m, w, e).liveFrom.Some?
  {
    hide IsPrime, HeldShare, OneEpoch, OutcomesInv, MayStart;
    hide Ask, Begin, Adopt, Drop, Report, Take, ConfirmFrom, CommitSeen, StoredLocally, CancelFrom, CancelEnd;
  }

  /** The steps after which the worker knows or holds more or less than before. */
  predicate TouchesWorker(e: Event) {
    e.RunReturns? || e.Confirm? || e.CommitReplies? || e.VaultWrites? || e.CancelReturns? || e.Crash?
  }

  predicate TouchesCommits(e: Event) {
    e.Confirm? || e.CommitArrives? || e.CommitReplies?
  }

  lemma OtherStepsKeepWorker(m: Wallet, w: World, e: Event)
    requires ValidWallet(m) && !TouchesWorker(e)
    ensures Step(m, w, e).worker.objects == w.worker.objects && Step(m, w, e).worker.storing == w.worker.storing
  {
    hide IsPrime, ReshareOutcome, MayStart;
  }

  lemma OtherStepsKeepCommits(m: Wallet, w: World, e: Event)
    requires ValidWallet(m) && !TouchesCommits(e)
    ensures forall id, call :: CommitSent(id, call) in Step(m, w, e).net <==> CommitSent(id, call) in w.net
    ensures forall id, call :: CommitOk(id, call) in Step(m, w, e).net <==> CommitOk(id, call) in w.net
    ensures Step(m, w, e).liveFrom == w.liveFrom && Step(m, w, e).calls == w.calls
  {
    hide IsPrime, ReshareOutcome, MayStart;
    hide Ask, Begin, Adopt, Drop, Report, Take, ConfirmFrom, CommitSeen, StoredLocally, CancelFrom, CancelEnd;
  }

  /** What is staged was staged before, unless the rounds just finished. */
  lemma StepKeepsStaged(m: Wallet, w: World, e: Event)
    requires ValidWallet(m) && !e.RoundsFinish?
    ensures Step(m, w, e).staged == w.staged || Step(m, w, e).staged == None
  {
    hide IsPrime, MayStart;
    hide Ask, Begin, Adopt, Drop, Report, Take, ConfirmFrom, CommitSeen, StoredLocally, CancelFrom, CancelEnd;
  }

  lemma WorkerStepsKeepObjects(m: Wallet, w: World, e: Event)
    requires ValidWallet(m) && Inv(m, w) && TouchesWorker(e)
    ensures ObjectsInv(Step(m, w, e))
  {
    hide IsPrime, HeldShare, OneEpoch, LiveInv, OutcomesInv, KnownInv, SentInv;
  }

  lemma StepKeepsObjects(m: Wallet, w: World, e: Event)
    requires ValidWallet(m) && Inv(m, w) && !e.RoundsFinish?
    ensures ObjectsInv(Step(m, w, e))
  {
    hide IsPrime, Step, OutcomesInv, KnownInv, SentInv, LiveInv;
    StepKeepsOutcomes(m, w, e);
    if TouchesWorker(e) {
      WorkerStepsKeepObjects(m, w, e);
    } else {
      OtherStepsKeepWorker(m, w, e);
    }
  }

  lemma WorkerStepsKeepKnown(m: Wallet, w: World, e: Event)
    requires ValidWallet(m) && Inv(m, w) && TouchesWorker(e) && !TouchesCommits(e)
    ensures KnownInv(Step(m, w, e))
  {
    hide IsPrime, HeldShare, OneEpoch, LiveInv, OutcomesInv, ObjectsInv, SentInv;
  }

  lemma CommitStepsKeepKnown(m: Wallet, w: World, e: Event)
    requires ValidWallet(m) && Inv(m, w) && TouchesCommits(e)
    ensures KnownInv(Step(m, w, e))
  {
    hide IsPrime, HeldShare, OneEpoch, LiveInv, SentInv;
  }

  lemma StepKeepsKnown(m: Wallet, w: World, e: Event)
    requires ValidWallet(m) && Inv(m, w) && !e.RoundsFinish?
    ensures KnownInv(Step(m, w, e))
  {
    hide IsPrime, Step, OutcomesInv, ObjectsInv, SentInv, LiveInv;
    if TouchesCommits(e) {
      CommitStepsKeepKnown(m, w, e);
    } else if TouchesWorker(e) {
      WorkerStepsKeepKnown(m, w, e);
    } else {
      StepKeepsOutcomes(m, w, e);
      StepKeepsStaged(m, w, e);
      OtherStepsKeepWorker(m, w, e);
      OtherStepsKeepCommits(m, w, e);
    }
  }

  lemma CommitStepsKeepSent(m: Wallet, w: World, e: Event)
    requires ValidWallet(m) && Inv(m, w) && Careful(w, e) && TouchesCommits(e)
    ensures SentInv(Step(m, w, e))
  {
    hide IsPrime, HeldShare, OneEpoch, LiveInv, KnownInv, OutcomesInv, ConfirmFrom, CommitSeen;
  }

  lemma StepKeepsSent(m: Wallet, w: World, e: Event)
    requires ValidWallet(m) && Inv(m, w) && Careful(w, e) && !e.RoundsFinish?
    ensures SentInv(Step(m, w, e))
  {
    hide IsPrime, Step, OutcomesInv, ObjectsInv, KnownInv, LiveInv;
    if TouchesCommits(e) {
      CommitStepsKeepSent(m, w, e);
    } else {
      StepKeepsOutcomes(m, w, e);
      OtherStepsKeepCommits(m, w, e);
    }
  }

  lemma StepKeepsInv(m: Wallet, w: World, e: Event)
    requires ValidWallet(m) && Inv(m, w) && Careful(w, e)
    ensures Inv(m, Step(m, w, e))
  {
    hide IsPrime, Finished, OutcomesInv, ObjectsInv, SentInv, KnownInv, LiveInv;
    if e.RoundsFinish? {
      if e.id in w.sessions {
        FinishKeepsInv(m, w, e.id, e.rb, e.rc);
      }
    } else {
      hide Step;
      StepKeepsOutcomes(m, w, e);
      StepKeepsLive(m, w, e);
      StepKeepsObjects(m, w, e);
      StepKeepsKnown(m, w, e);
      StepKeepsSent(m, w, e);
    }
  }

  lemma {:induction false} RunKeepsInv(m: Wallet, files: set<KeyShare>, events: seq<Event>)
    requires ValidWallet(m) && CarefulRun(m, files, events)
    ensures Inv(m, Run(m, files, events))
  {
    hide IsPrime, Step, HeldShare;
    if events != [] {
      RunKeepsInv(m, files, events[..|events| - 1]);
      StepKeepsInv(m, Run(m, files, events[..|events| - 1]), events[|events| - 1]);
    }
  }

  // ---- what is never lost ------------------------------------------------------------------------------------

  /** Two shares of different parties that give back the wallet's secret. */
  ghost predicate Usable(m: Wallet, a: KeyShare, b: KeyShare)
    requires ValidWallet(m)
  {
    a.party != b.party && Export(m.q, [a, b], Key(m)) == Success(m.secret % m.q)
  }

  /** What survives a crash: the vault, the saved files, the server's live share. */
  ghost predicate Durable(w: World, a: KeyShare) {
    a == w.vault || a in w.files || a == w.live
  }

  lemma OneLineIsUsable(m: Wallet, slope: int, slope': int, i: PartyIndex, j: PartyIndex)
    requires ValidWallet(m) && i != j
    ensures Usable(m, HeldShare(m.q, m.secret, slope, i), HeldShare(m.q, m.secret, slope', j)) <==> Cong(m.q, slope, slope')
  {
    hide IsPrime, Cong, Export;
    ExportOfMixedEpochs(m.q, m.secret, slope, slope', i, j);
  }

  /** In every reachable state, under any interleaving: two shares of different parties that open the
      wallet are in durable places. */
  lemma NeverLosesTheWallet(m: Wallet, files: set<KeyShare>, events: seq<Event>)
    requires ValidWallet(m) && CarefulRun(m, files, events)
    ensures var w := Run(m, files, events);
      exists a, b :: Durable(w, a) && Durable(w, b) && Usable(m, a, b)
  {
    hide IsPrime, Run, Cong, Export, HeldShare;
    RunKeepsInv(m, files, events);
    var w := Run(m, files, events);
    match w.liveFrom
    case None =>
      CongRefl(m.q, m.slope);
      OneLineIsUsable(m, m.slope, m.slope, 2, 3);
      assert Durable(w, w.vault) && Durable(w, w.live) && Usable(m, w.vault, w.live);
    case Some(id) =>
      var slope :| OneEpoch(m, w.outcomes[id], slope);
      CongRefl(m.q, slope);
      OneLineIsUsable(m, slope, slope, 2, 3);
      assert Durable(w, w.outcomes[id][1]) && Durable(w, w.live) && Usable(m, w.outcomes[id][1], w.live);
  }

  /** A finished confirmation makes the wallet whole: the vault, the new file and the server hold three
      shares of one line, and each two of them open it. It needs the committed share still to be the
      live one and the share not to have been wiped by a cancel that raced the confirmation. */
  lemma ConfirmedIsHealthy(m: Wallet, files: set<KeyShare>, events: seq<Event>, id: ReshareId)
    requires ValidWallet(m) && CarefulRun(m, files, events)
    requires var w := Run(m, files, events);
      id in w.worker.storing && id in w.worker.objects && w.worker.objects[id].shareA != WIPED && w.liveFrom == Some(id)
    ensures Healthy(m, Step(m, Run(m, files, events), VaultWrites(id)))
  {
    hide IsPrime, Run, Cong, Export, Healthy, Usable;
    RunKeepsInv(m, files, events);
    var w := Run(m, files, events);
    var w' := Step(m, w, VaultWrites(id));
    var slope :| OneEpoch(m, w.outcomes[id], slope);
    assert w'.vault == HeldShare(m.q, m.secret, slope, 1) && w'.live == HeldShare(m.q, m.secret, slope, 3);
    assert HeldShare(m.q, m.secret, slope, 2) in w'.files;
    OneEpochIsHealthy(m, w', slope);
  }

  /** Any two of the vault, some saved file and the server's share open the wallet. */
  ghost predicate Healthy(m: Wallet, w: World)
    requires ValidWallet(m)
  {
    exists fileB :: fileB in w.files && Usable(m, w.vault, fileB) && Usable(m, fileB, w.live) && Usable(m, w.vault, w.live)
  }

  lemma OneEpochIsHealthy(m: Wallet, w: World, slope: int)
    requires ValidWallet(m)
    requires w.vault == HeldShare(m.q, m.secret, slope, 1) && w.live == HeldShare(m.q, m.secret, slope, 3)
    requires HeldShare(m.q, m.secret, slope, 2) in w.files
    ensures Healthy(m, w)
  {
    hide IsPrime, Cong, Export, HeldShare, Usable;
    CongRefl(m.q, slope);
    OneLineIsUsable(m, slope, slope, 1, 2);
    OneLineIsUsable(m, slope, slope, 2, 3);
    OneLineIsUsable(m, slope, slope, 1, 3);
  }

  /** A wiped share opens nothing, with whatever other share. */
  lemma WipedIsUseless(m: Wallet, b: KeyShare)
    requires ValidWallet(m)
    ensures !Usable(m, WIPED, b)
  {
    hide IsPrime, Interpolate;
    assert !AllDecode([WIPED, b]) by {
      assert [WIPED, b][0].secret.None?;
    }
  }

  /** As long as the vault is the restored one, the vault and the server open the wallet if and only if
      no commit has reached the server, or it put back the very same line. */
  lemma CurrentPairWorksIff(m: Wallet, files: set<KeyShare>, events: seq<Event>)
    requires ValidWallet(m) && CarefulRun(m, files, events)
    requires Run(m, files, events).vault == HeldShare(m.q, m.secret, m.slope, 2)
    ensures var w := Run(m, files, events);
      Usable(m, w.vault, w.live) <==>
        w.liveFrom.None? || exists slope ::
          w.liveFrom.value in w.outcomes && OneEpoch(m, w.outcomes[w.liveFrom.value], slope) && Cong(m.q, m.slope, slope)
  {
    hide IsPrime, Run, Cong, Export, HeldShare;
    RunKeepsInv(m, files, events);
    var w := Run(m, files, events);
    match w.liveFrom
    case None =>
      CongRefl(m.q, m.slope);
      OneLineIsUsable(m, m.slope, m.slope, 2, 3);
    case Some(id) =>
      var slope :| OneEpoch(m, w.outcomes[id], slope);
      OneLineIsUsable(m, m.slope, slope, 2, 3);
      if s :| OneEpoch(m, w.outcomes[id], s) && Cong(m.q, m.slope, s) {
        OneLineIsUsable(m, m.slope, s, 2, 3);
      }
  }

  // ---- the paths a user takes ---------------------------------------------------------------------------------

  /** A reshare waits for its confirmation: staged on the server, its new file saved. */
  ghost predicate AwaitsConfirmation(w: World, id: ReshareId) {
    && w.worker.pending == Some(id) && id in w.worker.objects && !w.worker.objects[id].committed && w.worker.objects[id].shareA != WIPED
    && w.staged == Some(id) && id in w.outcomes && |w.outcomes[id]| == 3 && w.outcomes[id][1] in w.files
    && w.worker.objects[id].shareA == w.outcomes[id][0]
  }

  ghost function Steps(m: Wallet, w: World, es: seq<Event>): World
    requires ValidWallet(m)
    decreases |es|
  {
    if es == [] then w else Steps(m, Step(m, w, es[0]), es[1..])
  }

  lemma FourSteps(m: Wallet, w: World, a: Event, b: Event, c: Event, d: Event)
    requires ValidWallet(m)
    ensures Steps(m, w, [a, b, c, d]) == Step(m, Step(m, Step(m, Step(m, w, a), b), c), d)
  {
    hide IsPrime, Step;
    assert [a, b, c, d][1..] == [b, c, d] && [b, c, d][1..] == [c, d] && [c, d][1..] == [d] && [d][1..] == [];
    assert Steps(m, Step(m, Step(m, Step(m, w, a), b), c), [d]) == Step(m, Step(m, Step(m, Step(m, w, a), b), c), d);
    assert Steps(m, Step(m, Step(m, w, a), b), [c, d]) == Steps(m, Step(m, Step(m, Step(m, w, a), b), c), [d]);
  }

  lemma FiveSteps(m: Wallet, w: World, a: Event, b: Event, c: Event, d: Event, e: Event)
    requires ValidWallet(m)
    ensures Steps(m, w, [a, b, c, d, e]) == Step(m, Step(m, Step(m, Step(m, Step(m, w, a), b), c), d), e)
  {
    hide IsPrime, Step;
    assert [a, b, c, d, e][1..] == [b, c, d, e];
    FourSteps(m, Step(m, w, a), b, c, d, e);
  }

  /** Left to itself, a confirmation ends with a healthy wallet, whatever happened before. */
  lemma UndisturbedConfirmationHeals(m: Wallet, files: set<KeyShare>, events: seq<Event>, id: ReshareId, call: CallId)
    requires ValidWallet(m) && CarefulRun(m, files, events) && AwaitsConfirmation(Run(m, files, events), id)
    requires call !in Run(m, files, events).calls
    ensures var w := Steps(m, Run(m, files, events), [Confirm(call), CommitArrives(id, call), CommitReplies(call), VaultWrites(id)]);
      Healthy(m, w) && w.worker.pending == None && w.liveFrom == Some(id)
  {
    hide IsPrime, Run, HeldShare, Healthy, Finished, MayStart;
    RunKeepsInv(m, files, events);
    var w0 := Run(m, files, events);
    var slope :| OneEpoch(m, w0.outcomes[id], slope);
    FourSteps(m, w0, Confirm(call), CommitArrives(id, call), CommitReplies(call), VaultWrites(id));
    var w1 := Step(m, w0, Confirm(call));
    var w2 := Step(m, w1, CommitArrives(id, call));
    var w3 := Step(m, w2, CommitReplies(call));
    var w4 := Step(m, w3, VaultWrites(id));
    assert id in w3.worker.storing && w3.worker.objects[id].shareA == w0.outcomes[id][0];
    PartyOfFirst(m, slope);
    OneEpochIsHealthy(m, w4, slope);
  }

  lemma PartyOfFirst(m: Wallet, slope: int)
    requires 0 < m.q
    ensures KeyShare(0, HeldShare(m.q, m.secret, slope, 1).secret) == HeldShare(m.q, m.secret, slope, 1)
  {
  }

  // ---- the reply to the commit ---------------------------------------------------------------------------------

  /** The commit of this reshare has happened and cannot happen again; nobody has heard of it yet, and
      only the reply to `call` could still tell. */
  ghost predicate Unheard(w: World, id: ReshareId, call: CallId) {
    && id in w.began && id !in w.sessions && w.staged != Some(id)
    && id !in w.worker.storing && (id in w.worker.objects ==> !w.worker.objects[id].committed)
    && call in w.calls
    && forall c :: CommitOk(id, c) in w.net ==> c == call
  }

  lemma CommitIsUnheard(m: Wallet, files: set<KeyShare>, events: seq<Event>, id: ReshareId, call: CallId)
    requires ValidWallet(m) && CarefulRun(m, files, events) && AwaitsConfirmation(Run(m, files, events), id)
    requires call !in Run(m, files, events).calls
    ensures var w := Step(m, Step(m, Run(m, files, events), Confirm(call)), CommitArrives(id, call));
      Unheard(w, id, call) && w.worker.confirming == Run(m, files, events).worker.confirming[call := id] && w.liveFrom == Some(id)
  {
    hide IsPrime, Run, Finished, MayStart;
    RunKeepsInv(m, files, events);
  }

  lemma WorkerStepsKeepUnheard(m: Wallet, w: World, e: Event, id: ReshareId, call: CallId)
    requires ValidWallet(m) && Unheard(w, id, call) && (TouchesWorker(e) || TouchesCommits(e))
    requires e == CommitReplies(call) ==> call !in w.worker.confirming
    ensures Unheard(Step(m, w, e), id, call)
  {
    hide IsPrime;
  }

  lemma StepKeepsUnheard(m: Wallet, w: World, e: Event, id: ReshareId, call: CallId)
    requires ValidWallet(m) && Unheard(w, id, call) && (e == CommitReplies(call) ==> call !in w.worker.confirming)
    ensures Unheard(Step(m, w, e), id, call)
  {
    hide IsPrime, ReshareOutcome, MayStart;
    if TouchesWorker(e) || TouchesCommits(e) {
      WorkerStepsKeepUnheard(m, w, e, id, call);
    } else {
      OtherStepsKeepWorker(m, w, e);
      OtherStepsKeepCommits(m, w, e);
      hide Ask, Begin, Adopt, Drop, Report, Take, ConfirmFrom, CommitSeen, StoredLocally, CancelFrom, CancelEnd;
    }
  }

  /** A call that nobody waits for is not waited for again. */
  lemma StepKeepsForgotten(m: Wallet, w: World, e: Event, call: CallId)
    requires ValidWallet(m) && call in w.calls && call !in w.worker.confirming
    ensures call in Step(m, w, e).calls && call !in Step(m, w, e).worker.confirming
  {
    hide IsPrime, ReshareOutcome, MayStart;
  }

  /** Without that reply nothing of the reshare is ever stored here, whatever else happens: further
      confirmations, cancels, crashes, other reshares. */
  lemma {:induction false} WithoutReplyNothingIsStored(m: Wallet, w: World, es: seq<Event>, id: ReshareId, call: CallId)
    requires ValidWallet(m) && Unheard(w, id, call)
    requires call in w.worker.confirming ==> CommitReplies(call) !in es
    ensures var w' := Steps(m, w, es);
      id !in w'.worker.storing && Step(m, w', VaultWrites(id)) == w'
    decreases |es|
  {
    hide IsPrime, Step, Unheard;
    if es == [] {
      UnheardStoresNothing(m, w, id, call);
    } else {
      assert es[0] in es;
      StepKeepsUnheard(m, w, es[0], id, call);
      if call !in w.worker.confirming {
        ForgottenCall(w, id, call);
        StepKeepsForgotten(m, w, es[0], call);
      }
      WithoutReplyNothingIsStored(m, Step(m, w, es[0]), es[1..], id, call);
    }
  }

  lemma ForgottenCall(w: World, id: ReshareId, call: CallId)
    requires Unheard(w, id, call)
    ensures call in w.calls
  {
  }

  lemma UnheardStoresNothing(m: Wallet, w: World, id: ReshareId, call: CallId)
    requires ValidWallet(m) && Unheard(w, id, call)
    ensures id !in w.worker.storing && Step(m, w, VaultWrites(id)) == w
  {
    hide IsPrime, Finished;
  }

  /** A confirmation that reached the server is stored here if and only if its reply came back: with the
      reply the wallet is whole at once, and once the reply is lost no later events store it. */
  lemma ConfirmationStoredIffReplied(m: Wallet, files: set<KeyShare>, events: seq<Event>, id: ReshareId, call: CallId, replied: bool, es: seq<Event>)
    requires ValidWallet(m) && CarefulRun(m, files, events) && AwaitsConfirmation(Run(m, files, events), id)
    requires call !in Run(m, files, events).calls
    ensures var w2 := Step(m, Step(m, Run(m, files, events), Confirm(call)), CommitArrives(id, call));
      if replied then Healthy(m, Step(m, Step(m, w2, CommitReplies(call)), VaultWrites(id)))
      else
        var w' := Steps(m, Step(m, w2, CommitLost(call)), es);
        Step(m, w', VaultWrites(id)) == w'
  {
    hide IsPrime, Run, Healthy, Unheard, AwaitsConfirmation, Finished;
    var w0 := Run(m, files, events);
    CommitIsUnheard(m, files, events, id, call);
    var w2 := Step(m, Step(m, w0, Confirm(call)), CommitArrives(id, call));
    if replied {
      UndisturbedConfirmationHeals(m, files, events, id, call);
      FourSteps(m, w0, Confirm(call), CommitArrives(id, call), CommitReplies(call), VaultWrites(id));
    } else {
      StepKeepsUnheard(m, w2, CommitLost(call), id, call);
      var w3 := Step(m, w2, CommitLost(call));
      assert call !in w3.worker.confirming;
      WithoutReplyNothingIsStored(m, w3, es, id, call);
    }
  }

  /** A cancel after the commit went through but its reply was lost does not keep the current shares
      valid: the vault keeps the old line while the server is on the new one, so the two open the
      wallet only if the lines are the same. The saved new file still does. */
  lemma CancelAfterLostReply(m: Wallet, files: set<KeyShare>, events: seq<Event>, id: ReshareId, call: CallId)
    requires ValidWallet(m) && CarefulRun(m, files, events) && AwaitsConfirmation(Run(m, files, events), id)
    requires call !in Run(m, files, events).calls
    requires Run(m, files, events).vault == HeldShare(m.q, m.secret, m.slope, 2)
    ensures var w0 := Run(m, files, events);
      var w := Steps(m, w0, [Confirm(call), CommitArrives(id, call), CommitLost(call), Cancel, CancelReturns(id)]);
      && w.worker.pending == None && w.vault == w0.vault && w.live == w0.outcomes[id][2] && w0.outcomes[id][1] in w.files
      && Usable(m, w0.outcomes[id][1], w.live)
      && exists slope :: OneEpoch(m, w0.outcomes[id], slope) && (Usable(m, w.vault, w.live) <==> Cong(m.q, m.slope, slope))
  {
    hide IsPrime, Run, HeldShare, Usable, Cong, Step, LiveInv, ObjectsInv, SentInv, KnownInv;
    RunKeepsInv(m, files, events);
    var w0 := Run(m, files, events);
    FiveSteps(m, w0, Confirm(call), CommitArrives(id, call), CommitLost(call), Cancel, CancelReturns(id));
    CancelledWithoutReply(m, w0, id, call);
    var slope :| OneEpoch(m, w0.outcomes[id], slope);
    CongRefl(m.q, slope);
    OneLineIsUsable(m, slope, slope, 2, 3);
    OneLineIsUsable(m, m.slope, slope, 2, 3);
  }

  lemma CancelledWithoutReply(m: Wallet, w0: World, id: ReshareId, call: CallId)
    requires ValidWallet(m) && AwaitsConfirmation(w0, id) && call !in w0.calls
    ensures var w := Step(m, Step(m, Step(m, Step(m, Step(m, w0, Confirm(call)), CommitArrives(id, call)), CommitLost(call)), Cancel), CancelReturns(id));
      w.worker.pending == None && w.vault == w0.vault && w.live == w0.outcomes[id][2] && w.files == w0.files
  {
    hide IsPrime, Finished, MayStart;
    var w2 := Step(m, Step(m, w0, Confirm(call)), CommitArrives(id, call));
    var w4 := Step(m, Step(m, w2, CommitLost(call)), Cancel);
    assert w4.worker.cancelling == w0.worker.cancelling + {id};
  }

  /** The run of the protocol, from the restored wallet to the staged share. */
  lemma ProtocolStages(m: Wallet, files: set<KeyShare>, rb: int, rc: int)
    requires ValidWallet(m)
    ensures var w0 := Restored(m, files);
      var w := Step(m, Step(m, Step(m, Step(m, w0, Asks(1)), Start(1)), SessionOpens(1)), RoundsFinish(1, rb, rc));
      && w.worker == Begin(FreshWorker, 1, w0.vault) && w.vault == w0.vault && w.files == files && w.shown == {}
      && w.staged == Some(1) && 1 in w.outcomes && OneEpoch(m, w.outcomes[1], rb + rc) && w.calls == {}
  {
    hide IsPrime, ReshareOutcome;
    var w0 := Restored(m, files);
    var w2 := Step(m, Step(m, Step(m, w0, Asks(1)), Start(1)), SessionOpens(1));
    assert FreshWorker.starting + {1} - {1} == {};
    assert w2.sessions[1] == Session(w0.vault, w0.live) && w2.worker == Begin(FreshWorker, 1, w0.vault);
    assert SurvivorShares(1, w0.vault, 2, w0.live);
    ReshareKeepsTheKey(m.q, m.secret, m.slope, 1, rb, 2, rc, 1, 2);
    AcceptedIsOneEpoch(m, w0.vault.secret.value.polyPoint, rb, w0.live.secret.value.polyPoint, rc);
  }

  /** From there to the saved file. */
  lemma FileIsHandedOver(m: Wallet, w: World, slope: int)
    requires ValidWallet(m) && w.worker == Begin(FreshWorker, 1, w.vault)
    requires w.staged == Some(1) && 1 in w.outcomes && OneEpoch(m, w.outcomes[1], slope)
    ensures var w' := Step(m, Step(m, Step(m, w, RunReturns(1)), PopupTakes), UserSaves(HeldShare(m.q, m.secret, slope, 2)));
      AwaitsConfirmation(w', 1) && w'.outcomes == w.outcomes && w'.vault == w.vault
  {
    hide IsPrime, Finished;
    assert HeldShare(m.q, m.secret, slope, 1) != WIPED;
    var w1 := Step(m, w, RunReturns(1));
    assert w1.worker.run == Ready(w.outcomes[1][1]);
  }

  /** The way there, for every wallet and all fresh slopes: from the restored wallet, the run is
      accepted, its shares lie on the summed slope, and the file is handed over once and saved. */
  lemma ReshareReachesConfirmation(m: Wallet, files: set<KeyShare>, rb: int, rc: int)
    requires ValidWallet(m)
    ensures var events := [Asks(1), Start(1), SessionOpens(1), RoundsFinish(1, rb, rc), RunReturns(1), PopupTakes,
                           UserSaves(HeldShare(m.q, m.secret, rb + rc, 2))];
      && CarefulRun(m, files, events)
      && AwaitsConfirmation(Run(m, files, events), 1)
      && OneEpoch(m, Run(m, files, events).outcomes[1], rb + rc)
      && Run(m, files, events).vault == HeldShare(m.q, m.secret, m.slope, 2)
  {
    hide IsPrime, ReshareOutcome, Step, HeldShare, OneEpoch, AwaitsConfirmation;
    var es := [Asks(1), Start(1), SessionOpens(1), RoundsFinish(1, rb, rc), RunReturns(1), PopupTakes,
               UserSaves(HeldShare(m.q, m.secret, rb + rc, 2))];
    var w0 := Restored(m, files);
    assert es[..0] == [] && es[..7] == es;
    RunSnoc(m, files, es, 0);
    RunSnoc(m, files, es, 1);
    RunSnoc(m, files, es, 2);
    RunSnoc(m, files, es, 3);
    RunSnoc(m, files, es, 4);
    RunSnoc(m, files, es, 5);
    RunSnoc(m, files, es, 6);
    hide Run;
    assert Run(m, files, es[..0]) == w0;
    ProtocolStages(m, files, rb, rc);
    FileIsHandedOver(m, Run(m, files, es[..4]), rb + rc);
  }

  /** Saving the file first is what makes it safe: confirmed without it, and with no older file kept,
      a worker that dies between the commit and the vault write leaves no usable pair, unless the new
      line is the old one. */
  lemma ConfirmingBeforeSavingCanLose(m: Wallet, rb: int, rc: int)
    requires ValidWallet(m)
    ensures var w := Run(m, {}, [Asks(1), Start(1), SessionOpens(1), RoundsFinish(1, rb, rc), RunReturns(1), Confirm(0), CommitArrives(1, 0), Crash]);
      (exists a, b :: Durable(w, a) && Durable(w, b) && Usable(m, a, b)) <==> Cong(m.q, m.slope, rb + rc)
  {
    hide IsPrime, ReshareOutcome, Step, HeldShare, OneEpoch, Usable, Cong;
    var es := [Asks(1), Start(1), SessionOpens(1), RoundsFinish(1, rb, rc), RunReturns(1), Confirm(0), CommitArrives(1, 0), Crash];
    assert es[..0] == [] && es[..8] == es;
    RunSnoc(m, {}, es, 0);
    RunSnoc(m, {}, es, 1);
    RunSnoc(m, {}, es, 2);
    RunSnoc(m, {}, es, 3);
    RunSnoc(m, {}, es, 4);
    RunSnoc(m, {}, es, 5);
    RunSnoc(m, {}, es, 6);
    RunSnoc(m, {}, es, 7);
    hide Run;
    assert Run(m, {}, es[..0]) == Restored(m, {});
    ProtocolStages(m, {}, rb, rc);
    DiesAfterCommit(m, Run(m, {}, es[..4]), rb + rc);
    var w := Run(m, {}, es);
    CongEitherWay(m.q, m.slope, rb + rc);
    OneLineIsUsable(m, m.slope, rb + rc, 2, 3);
    OneLineIsUsable(m, rb + rc, m.slope, 3, 2);
    assert Durable(w, w.vault) && Durable(w, w.live);
    forall a, b | Durable(w, a) && Durable(w, b) && Usable(m, a, b) ensures Cong(m.q, m.slope, rb + rc) {
      DifferentParties(m, a, b);
    }
  }

  lemma CongEitherWay(q: int, x: int, y: int)
    requires 0 < q
    ensures Cong(q, x, y) <==> Cong(q, y, x)
  {
    hide Cong;
    if Cong(q, x, y) {
      CongSym(q, x, y);
    }
    if Cong(q, y, x) {
      CongSym(q, y, x);
    }
  }

  lemma DifferentParties(m: Wallet, a: KeyShare, b: KeyShare)
    requires ValidWallet(m) && Usable(m, a, b)
    ensures a.party != b.party
  {
  }

  lemma DiesAfterCommit(m: Wallet, w: World, slope: int)
    requires ValidWallet(m) && w.worker == Begin(FreshWorker, 1, w.vault)
    requires w.staged == Some(1) && 1 in w.outcomes && OneEpoch(m, w.outcomes[1], slope) && w.calls == {}
    ensures var w' := Step(m, Step(m, Step(m, Step(m, w, RunReturns(1)), Confirm(0)), CommitArrives(1, 0)), Crash);
      w'.vault == w.vault && w'.files == w.files && w'.live == HeldShare(m.q, m.secret, slope, 3)
  {
    hide IsPrime, Finished, HeldShare;
  }

  lemma RunSnoc(m: Wallet, files: set<KeyShare>, es: seq<Event>, k: int)
    requires ValidWallet(m) && 0 <= k < |es|
    ensures Run(m, files, es[..k + 1]) == Step(m, Run(m, files, es[..k]), es[k])
    ensures CarefulRun(m, files, es[..k]) && Careful(Run(m, files, es[..k]), es[k]) ==> CarefulRun(m, files, es[..k + 1])
  {
    hide IsPrime, Step, Careful;
    assert es[..k + 1][..k] == es[..k];
  }

  // ---- what a cancel achieves ---------------------------------------------------------------------------------------

  /** A run that is still going started under a token no newer than the current one, and nothing of it is
      pending, kept, confirmed or stored yet. */
  ghost predicate RunsInv(w: World) {
    && (forall id :: id in w.worker.tasks ==> w.worker.tasks[id].token <= w.worker.token)
    && (forall a, b :: a in w.worker.tasks && b in w.worker.tasks && a != b ==> w.worker.tasks[a].token != w.worker.tasks[b].token)
    && (forall id :: id in w.sessions || id in w.outcomes ==> id in w.began)
    && (forall id :: id in w.worker.objects ==> id in w.began && id !in w.worker.tasks)
    && (w.worker.pending.Some? ==> w.worker.pending.value in w.worker.objects)
    && (forall call :: call in w.worker.confirming ==> w.worker.confirming[call] in w.worker.objects)
    && (forall id :: id in w.worker.storing ==> id in w.worker.objects)
    && (forall id, call :: CommitSent(id, call) in w.net ==> id in w.began && id !in w.worker.tasks)
  }

  lemma FinishKeepsRuns(m: Wallet, w: World, id: ReshareId, rb: int, rc: int)
    requires ValidWallet(m) && RunsInv(w) && id in w.sessions
    ensures RunsInv(Finished(m, w, id, rb, rc))
  {
    hide IsPrime, ReshareOutcome, SurvivorShares;
  }

  /** The steps in which the worker's run or its calls move on. */
  predicate MovesWorker(e: Event) {
    TouchesWorker(e) || e.Start? || e.RunFails? || e.Cancel? || e.CommitLost?
  }

  lemma RunMovesKeepRuns(m: Wallet, w: World, e: Event)
    requires ValidWallet(m) && RunsInv(w) && (e.Start? || e.RunReturns? || e.RunFails?)
    ensures RunsInv(Step(m, w, e))
  {
    hide IsPrime, Finished, MayStart, Ask, Report, Take, ConfirmFrom, CommitSeen, StoredLocally, CancelFrom, CancelEnd;
  }

  lemma CommitMovesKeepRuns(m: Wallet, w: World, e: Event)
    requires ValidWallet(m) && RunsInv(w) && TouchesCommits(e)
    ensures RunsInv(Step(m, w, e))
  {
    hide IsPrime, Finished, MayStart, Ask, Begin, Adopt, Drop, Report, Take, StoredLocally, CancelFrom, CancelEnd;
  }

  lemma OtherMovesKeepRuns(m: Wallet, w: World, e: Event)
    requires ValidWallet(m) && RunsInv(w) && MovesWorker(e) && !TouchesCommits(e) && !e.Start? && !e.RunReturns? && !e.RunFails?
    ensures RunsInv(Step(m, w, e))
  {
    hide IsPrime, Finished, MayStart, Ask, Begin, Adopt, Drop, Report, Take, ConfirmFrom, CommitSeen;
  }

  lemma OtherStepsKeepRuns(m: Wallet, w: World, e: Event)
    requires ValidWallet(m) && RunsInv(w) && !MovesWorker(e) && !TouchesCommits(e)
    ensures RunsInv(Step(m, w, e))
  {
    hide IsPrime, Finished, MayStart, Begin, Adopt, Drop, ConfirmFrom, CommitSeen, StoredLocally, CancelFrom, CancelEnd;
    if e.RoundsFinish? && e.id in w.sessions {
      FinishKeepsRuns(m, w, e.id, e.rb, e.rc);
    }
  }

  lemma StepKeepsRuns(m: Wallet, w: World, e: Event)
    requires ValidWallet(m) && RunsInv(w)
    ensures RunsInv(Step(m, w, e))
  {
    hide *;
    if TouchesCommits(e) {
      CommitMovesKeepRuns(m, w, e);
    } else if e.Start? || e.RunReturns? || e.RunFails? {
      RunMovesKeepRuns(m, w, e);
    } else if MovesWorker(e) {
      OtherMovesKeepRuns(m, w, e);
    } else {
      OtherStepsKeepRuns(m, w, e);
    }
  }

  lemma {:induction false} RunKeepsRuns(m: Wallet, files: set<KeyShare>, events: seq<Event>)
    requires ValidWallet(m)
    ensures RunsInv(Run(m, files, events))
  {
    hide IsPrime, Step, HeldShare;
    if events != [] {
      RunKeepsRuns(m, files, events[..|events| - 1]);
      StepKeepsRuns(m, Run(m, files, events[..|events| - 1]), events[|events| - 1]);
    }
  }

  /** The run of this reshare is not wanted any more, and nothing of it is in use. */
  ghost predicate Forgotten(w: World, id: ReshareId) {
    && id in w.began && (id in w.worker.tasks ==> w.worker.tasks[id].token < w.worker.token)
    && w.worker.pending != Some(id) && id !in w.worker.objects && id !in w.worker.storing
    && (forall call :: call in w.worker.confirming ==> w.worker.confirming[call] != id)
    && (forall call :: CommitSent(id, call) !in w.net)
  }

  lemma StepKeepsForgottenRun(m: Wallet, w: World, e: Event, id: ReshareId)
    requires ValidWallet(m) && Forgotten(w, id)
    ensures Forgotten(Step(m, w, e), id)
  {
    hide IsPrime, ReshareOutcome, MayStart;
  }

  lemma {:induction false} StaysForgotten(m: Wallet, w: World, id: ReshareId, es: seq<Event>)
    requires ValidWallet(m) && Forgotten(w, id)
    ensures Forgotten(Steps(m, w, es), id)
    decreases |es|
  {
    hide IsPrime, Step, Forgotten;
    if es != [] {
      StepKeepsForgottenRun(m, w, es[0], id);
      StaysForgotten(m, Step(m, w, es[0]), id, es[1..]);
    }
  }

  /** From every reachable state in which a run with an open session works and nothing is pending, a cancel
      is final, whatever follows: this reshare is never pending, kept, confirmed or stored, no commit of it
      ever goes out, and when its run returns, an abort goes out and nothing else of the worker changes. */
  lemma CancelForgetsTheRun(m: Wallet, files: set<KeyShare>, events: seq<Event>, id: ReshareId, later: seq<Event>)
    requires ValidWallet(m)
    requires var w := Run(m, files, events); w.worker.pending.None? && id in w.worker.tasks && id in w.sessions
    ensures Step(m, Run(m, files, events), Cancel).worker.run.Idle?
    ensures var w := Steps(m, Step(m, Run(m, files, events), Cancel), later);
      && w.worker.pending != Some(id) && id !in w.worker.objects && id !in w.worker.storing
      && (forall call :: CommitSent(id, call) !in w.net)
      && (id in w.worker.tasks && id in w.outcomes && |w.outcomes[id]| == 3 ==>
            Step(m, w, RunReturns(id)) == w.(worker := w.worker.(tasks := w.worker.tasks - {id}), net := w.net + {AbortSent(id)}))
  {
    hide IsPrime, Run, Finished, MayStart;
    RunKeepsRuns(m, files, events);
    var w1 := Step(m, Run(m, files, events), Cancel);
    assert Forgotten(w1, id);
    StaysForgotten(m, w1, id, later);
  }

  /** In every reachable state at most one run is wanted, however many were started: of two that return, one
      is undone, and its abort goes out. */
  lemma OneRunIsWanted(m: Wallet, files: set<KeyShare>, events: seq<Event>, a: ReshareId, b: ReshareId)
    requires ValidWallet(m)
    requires var w := Run(m, files, events);
      a != b && a in w.worker.tasks && b in w.worker.tasks
      && a in w.outcomes && |w.outcomes[a]| == 3 && b in w.outcomes && |w.outcomes[b]| == 3
    ensures var w := Run(m, files, events);
      var w' := Step(m, Step(m, w, RunReturns(a)), RunReturns(b));
      (AbortSent(a) in w'.net && w'.worker.pending != Some(a)) || (AbortSent(b) in w'.net && w'.worker.pending != Some(b))
  {
    hide IsPrime, Run, Finished, MayStart;
    RunKeepsRuns(m, files, events);
  }

  /** Nothing that makes a run unwanted: no cancel, no other start, no crash. */
  predicate Leaves(e: Event) {
    !e.Cancel? && !e.Start? && !e.Crash?
  }

  /** The run of this reshare is the wanted one, unless it is already over. */
  ghost predicate Wanted(w: World, id: ReshareId) {
    id in w.worker.tasks ==> w.worker.tasks[id].token == w.worker.token
  }

  lemma StepKeepsWanted(m: Wallet, w: World, e: Event, id: ReshareId)
    requires ValidWallet(m) && Wanted(w, id) && Leaves(e)
    ensures Wanted(Step(m, w, e), id)
  {
    hide IsPrime, ReshareOutcome, SurvivorShares, MayStart;
  }

  lemma {:induction false} StaysWanted(m: Wallet, w: World, id: ReshareId, es: seq<Event>)
    requires ValidWallet(m) && Wanted(w, id) && forall k :: 0 <= k < |es| ==> Leaves(es[k])
    ensures Wanted(Steps(m, w, es), id)
    decreases |es|
  {
    hide IsPrime, Step, Wanted;
    if es != [] {
      assert forall k :: 0 <= k < |es| - 1 ==> es[1..][k] == es[k + 1];
      StepKeepsWanted(m, w, es[0], id);
      StaysWanted(m, Step(m, w, es[0]), id, es[1..]);
    }
  }

  /** A run that nobody cancelled, replaced or crashed does become the pending reshare when it returns, with
      its own share and its file ready to be taken, and no abort goes out. */
  lemma UncancelledRunIsAdopted(m: Wallet, files: set<KeyShare>, events: seq<Event>, id: ReshareId, es: seq<Event>)
    requires ValidWallet(m) && forall k :: 0 <= k < |es| ==> Leaves(es[k])
    requires var w := Run(m, files, events); id in w.worker.starting && id !in w.began && id !in w.worker.tasks
    requires var w := Steps(m, Step(m, Run(m, files, events), Start(id)), es); id in w.worker.tasks && id in w.outcomes && |w.outcomes[id]| == 3
    ensures var w := Steps(m, Step(m, Run(m, files, events), Start(id)), es);
      var w' := Step(m, w, RunReturns(id));
      && w'.worker.pending == Some(id) && w'.worker.run == Ready(w.outcomes[id][1]) && id !in w'.worker.tasks
      && id in w'.worker.objects && w'.worker.objects[id] == Reshare(w.outcomes[id][0], false) && w'.net == w.net
  {
    hide IsPrime, Run, Finished, MayStart;
    StaysWanted(m, Step(m, Run(m, files, events), Start(id)), id, es);
  }

  /** Asking counts only for a restored wallet with nothing pending or running. */
  lemma AskCountsIffFree(m: Wallet, w: World, id: ReshareId)
    requires ValidWallet(m)
    ensures Step(m, w, Asks(id)).worker
      == if w.vault.party == 1 && w.worker.pending.None? && w.worker.run.Idle?
         then w.worker.(starting := w.worker.starting + {id}) else w.worker
  {
    hide IsPrime, Finished;
  }

  /** A failure is reported only of a wanted run, and once; a file is handed over once. */
  lemma ReportedOnce(m: Wallet, w: World, id: ReshareId)
    requires ValidWallet(m)
    ensures id in w.worker.tasks ==>
      Step(m, w, RunFails(id)).worker.run == if w.worker.tasks[id].token == w.worker.token then Failed else w.worker.run
    ensures Step(m, w, PopupPolls).worker == w.worker.(run := if w.worker.run.Failed? then Idle else w.worker.run)
    ensures w.worker.run.Ready? ==>
      Step(m, w, PopupTakes).shown == w.shown + {w.worker.run.fileB} && Step(m, w, PopupTakes).worker == w.worker.(run := Idle)
    ensures !w.worker.run.Ready? ==> Step(m, w, PopupTakes) == w
  {
    hide IsPrime, Finished;
  }

  /** A confirmation sends a commit, and waits for its reply, unless one is known to have happened; then it
      only stores the share, and the vault gets it. */
  lemma KnownCommitIsNotRepeated(m: Wallet, w: World, id: ReshareId, call: CallId)
    requires ValidWallet(m) && w.worker.pending == Some(id) && id in w.worker.objects && call !in w.calls
    ensures var w' := Step(m, w, Confirm(call));
      if w.worker.objects[id].committed then
        && w'.net == w.net && w'.worker.confirming == w.worker.confirming && id in w'.worker.storing
        && var stored := Step(m, w', VaultWrites(id));
        stored.vault == KeyShare(0, w.worker.objects[id].shareA.secret) && stored.worker.pending.None? && id !in stored.worker.storing
      else
        && w'.net == w.net + {CommitSent(id, call)} && w'.worker.storing == w.worker.storing
        && call in w'.worker.confirming && w'.worker.confirming[call] == id
  {
    hide IsPrime, Finished, MayStart;
  }

  /** The object of this reshare knows that its commit happened. */
  ghost predicate Known(w: World, id: ReshareId) {
    id in w.worker.objects && w.worker.objects[id].committed
  }

  lemma StepKeepsKnownCommit(m: Wallet, w: World, e: Event, id: ReshareId)
    requires ValidWallet(m) && RunsInv(w) && Known(w, id) && !e.Crash?
    ensures Known(Step(m, w, e), id)
  {
    hide IsPrime, ReshareOutcome, SurvivorShares, MayStart;
  }

  lemma {:induction false} StaysKnown(m: Wallet, w: World, id: ReshareId, es: seq<Event>)
    requires ValidWallet(m) && RunsInv(w) && Known(w, id) && forall k :: 0 <= k < |es| ==> !es[k].Crash?
    ensures Known(Steps(m, w, es), id)
    decreases |es|
  {
    hide IsPrime, Step, Known, RunsInv;
    if es != [] {
      assert forall k :: 0 <= k < |es| - 1 ==> es[1..][k] == es[k + 1];
      StepKeepsRuns(m, w, es[0]);
      StepKeepsKnownCommit(m, w, es[0], id);
      StaysKnown(m, Step(m, w, es[0]), id, es[1..]);
    }
  }

  /** Once the reply to a commit has come back, and as long as the worker lives, the reshare cannot be cancelled
      and is not committed again, whatever else happens: while it is pending, a cancel changes nothing and a
      confirmation sends nothing. */
  lemma RepliedCommitIsRemembered(m: Wallet, files: set<KeyShare>, events: seq<Event>, call: CallId, later: seq<Event>, again: CallId)
    requires ValidWallet(m) && forall k :: 0 <= k < |later| ==> !later[k].Crash?
    requires var w := Run(m, files, events); call in w.worker.confirming && CommitOk(w.worker.confirming[call], call) in w.net
    ensures var id := Run(m, files, events).worker.confirming[call];
      var w := Steps(m, Step(m, Run(m, files, events), CommitReplies(call)), later);
      w.worker.pending == Some(id) ==> Step(m, w, Cancel) == w && Step(m, w, Confirm(again)).net == w.net
  {
    hide IsPrime, Run, Finished, MayStart;
    RunKeepsRuns(m, files, events);
    var w0 := Run(m, files, events);
    var id, w1 := w0.worker.confirming[call], Step(m, w0, CommitReplies(call));
    StepKeepsRuns(m, w0, CommitReplies(call));
    StaysKnown(m, w1, id, later);
    var w := Steps(m, w1, later);
    if w.worker.pending == Some(id) {
      CancelOfPending(m, w, id);
    }
  }

  /** A cancel of a pending reshare is refused once its commit is known. Otherwise an abort goes out, and when
      the call returns nothing is pending and the share is wiped. */
  lemma CancelOfPending(m: Wallet, w: World, id: ReshareId)
    requires ValidWallet(m) && w.worker.pending == Some(id) && id in w.worker.objects
    ensures w.worker.objects[id].committed ==> Step(m, w, Cancel) == w
    ensures !w.worker.objects[id].committed ==>
      var w' := Step(m, Step(m, w, Cancel), CancelReturns(id));
      AbortSent(id) in w'.net && w'.worker.pending.None? && id in w'.worker.objects && w'.worker.objects[id].shareA == WIPED
  {
    hide IsPrime, Finished, MayStart;
    assert id in CancelFrom(w.worker).cancelling || w.worker.objects[id].committed;
  }
}
