/** The two device-key slots of an install, and a recovery that may stop at any durable write
    (packages/extension/src/deviceKey.ts:76-112, packages/extension/entrypoints/background.ts:183-380).
    Calls run one after another; each is cut off after any number of its writes. A new wallet can be
    made in between, because key creation only asks whether there is a vault. */
module DeviceSlots {
  import opened Prelude

  type Key = int
  type RequestId = int

  // ---- the slots -------------------------------------------------------------------------------------

  /** The IndexedDB store: the active pair, and the one waiting for a recovery. */
  class DeviceKeys {
    var active: Option<Key>
    var pending: Option<Key>

    constructor ()
      ensures active == pending == None
    {
      active, pending := None, None;
    }

    method StoreDeviceKey(pair: Key)
      modifies this
      ensures active == Some(pair) && pending == old(pending)
    {
      active := Some(pair);
    }

    method StorePendingDeviceKey(pair: Key)
      modifies this
      ensures pending == Some(pair) && active == old(active)
    {
      pending := Some(pair);
    }

    method DiscardPendingDeviceKey()
      modifies this
      ensures pending == None && active == old(active)
    {
      pending := None;
    }

    /** Copies first and deletes second; stopped after `writes` of the two, the pair is in some slot. */
    method PromotePendingDeviceKey(writes: nat) returns (ok: bool)
      modifies this
      ensures ok == old(pending).Some?
      ensures !ok ==> active == old(active) && pending == None
      ensures ok ==> active == (if writes >= 1 then old(pending) else old(active))
      ensures ok ==> pending == (if writes >= 2 then None else old(pending))
    {
      if pending.None? {
        return false;
      }
      ok := true;
      if writes >= 1 {
        StoreDeviceKey(pending.value);
      }
      if writes >= 2 {
        DiscardPendingDeviceKey();
      }
    }
  }

  // ---- the install and its server -----------------------------------------------------------------------

  datatype Status = Awaiting | Cooling | Ready | Completed | Ended

  /** A recovery request on the server; `shown` once its ceremony tab was opened. */
  datatype Request = Request(key: Key, status: Status, shown: bool)

  /** `onboarding` is the device key of a new wallet in the worker's memory, `enrolled` once its
      registration reached the server. `swapped` is the last key this install made the server take for
      the recovered wallet; `asked` and `own` are the keys made so far for recoveries and new wallets. */
  datatype World = World(
    pending: Option<Key>,
    active: Option<Key>,
    vault: bool,
    recovery: Option<RequestId>,
    onboarding: Option<Key>,
    enrolled: bool,
    registered: Option<Key>,
    requests: map<RequestId, Request>,
    swapped: Option<Key>,
    asked: set<Key>,
    own: set<Key>)

  datatype Write =
    | PutPending(key: Key)
    | PutActive
    | DropPending
    | StoreVault
    | WriteRecovery(request: RequestId)
    | ClearRecovery
    | AskServer(request: RequestId, key: Key)
    | OpenCeremony(request: RequestId)
    | Swap(request: RequestId)
    | Withdraw(request: RequestId)

  /** The swap ends every other request of the wallet that is still open. */
  function OthersEnded(requests: map<RequestId, Request>, done: RequestId): map<RequestId, Request> {
    map r | r in requests ::
      if r == done then requests[r].(status := Completed)
      else if requests[r].status.Completed? then requests[r]
      else requests[r].(status := Ended)
  }

  function Apply(w: World, x: Write): World {
    match x
    case PutPending(key) => w.(pending := Some(key))
    case PutActive => w.(active := w.pending)
    case DropPending => w.(pending := None)
    case StoreVault => w.(vault := true)
    case WriteRecovery(request) => w.(recovery := Some(request))
    case ClearRecovery => w.(recovery := None)
    case AskServer(request, key) =>
      if request in w.requests then w else w.(requests := w.requests[request := Request(key, Awaiting, false)])
    case OpenCeremony(request) =>
      if request in w.requests then w.(requests := w.requests[request := w.requests[request].(shown := true)]) else w
    case Swap(request) =>
      if request in w.requests && w.requests[request].status.Ready?
      then w.(registered := Some(w.requests[request].key), swapped := Some(w.requests[request].key),
              requests := OthersEnded(w.requests, request))
      else w
    case Withdraw(request) =>
      if request in w.requests && !w.requests[request].status.Completed?
      then w.(requests := w.requests[request := w.requests[request].(status := Ended)]) else w
  }

  /** The first `n` writes of a plan. */
  function Upto(w: World, plan: seq<Write>, n: nat): World
    decreases |plan|
  {
    if n == 0 || plan == [] then w else Upto(Apply(w, plan[0]), plan[1..], n - 1)
  }

  lemma NoWrites(w: World, n: nat)
    ensures Upto(w, [], n) == w
  {
  }

  // ---- what each call writes, in order ----------------------------------------------------------------------

  function BeginPlan(w: World, key: Key, request: RequestId): seq<Write> {
    if w.vault || w.recovery.Some? then [] else [PutPending(key), AskServer(request, key), WriteRecovery(request), OpenCeremony(request)]
  }

  const CleanUp := [DropPending, ClearRecovery]

  /** The server answers a call about a request only when it is signed with the request's own key. */
  predicate Answers(w: World) {
    w.recovery.Some? && w.recovery.value in w.requests && w.pending == Some(w.requests[w.recovery.value].key)
  }

  function ProgressPlan(w: World): seq<Write> {
    if w.recovery.None? then []
    else if w.pending.None? then [ClearRecovery]
    else if Answers(w) && w.requests[w.recovery.value].status.Ended? then CleanUp
    else []
  }

  const LocalSteps := [PutActive, DropPending, StoreVault, ClearRecovery]

  function FinishPlan(w: World): seq<Write> {
    if w.vault || w.recovery.None? || w.pending.None? || !Answers(w) then []
    else
      match w.requests[w.recovery.value].status
      case Ended => CleanUp
      case Ready => [Swap(w.recovery.value)] + LocalSteps
      case Completed => LocalSteps
      case _ => []
  }

  /** The server is told when it can be reached; the local state goes either way. */
  function AbandonPlan(w: World, told: bool): seq<Write> {
    (if told && Answers(w) then [Withdraw(w.recovery.value)] else []) + CleanUp
  }

  datatype Event =
    | Begin(key: Key, request: RequestId, n: nat, caught: bool, m: nat)
    | Progress(n: nat)
    | Finish(n: nat)
    | Abandon(told: bool, n: nat)
    | CreateKey(key: Key)
    | ConfirmSaved(n: nat)
    | WorkerDies
    | Approve(request: RequestId)
    | CoolingEnds(request: RequestId)
    | RequestEnds(request: RequestId)
    | OtherDevice(key: Key)

  function Advance(w: World, request: RequestId, before: Status, after: Status): World {
    if request in w.requests && w.requests[request].status == before && w.requests[request].shown
    then w.(requests := w.requests[request := w.requests[request].(status := after)]) else w
  }

  /** A new wallet's confirmation, cut off after `n` of its writes: the key registered, the active slot,
      the vault. The server takes a wallet's first key once, so nothing follows a repeated registration. */
  function Confirmed(w: World, n: nat): World {
    if w.onboarding.None? || w.enrolled || n == 0 then w
    else if n == 1 then w.(enrolled := true)
    else if n == 2 then w.(enrolled := true, active := w.onboarding)
    else w.(enrolled := false, active := w.onboarding, vault := true, onboarding := None)
  }

  /** A key the browser just generated is not one it generated before. */
  predicate IsNew(w: World, key: Key) {
    key !in w.asked && key !in w.own
  }

  function Step(w: World, e: Event): World {
    match e
    case Begin(key, request, n, caught, m) =>
      if request in w.requests || !IsNew(w, key) then w
      else
        var plan := BeginPlan(w, key, request);
        var w1 := Upto(w.(asked := w.asked + {key}), plan, n);
        if caught && plan != [] && n < 4 then Upto(w1, CleanUp, m) else w1
    case Progress(n) => Upto(w, ProgressPlan(w), n)
    case Finish(n) => Upto(w, FinishPlan(w), n)
    case Abandon(told, n) => Upto(w, AbandonPlan(w, told), n)
    case CreateKey(key) =>
      if w.vault || !IsNew(w, key) then w else w.(onboarding := Some(key), enrolled := false, own := w.own + {key})
    case ConfirmSaved(n) => Confirmed(w, n)
    case WorkerDies => w.(onboarding := None, enrolled := false)
    case Approve(request) => Advance(w, request, Awaiting, Cooling)
    case CoolingEnds(request) => Advance(w, request, Cooling, Ready)
    case RequestEnds(request) => Apply(w, Withdraw(request))
    case OtherDevice(key) => w.(registered := Some(key))
  }

  function Fresh(registered: Option<Key>): World {
    World(None, None, false, None, None, false, registered, map[], None, {}, {})
  }

  function Run(registered: Option<Key>, events: seq<Event>): World {
    if events == [] then Fresh(registered) else Step(Run(registered, events[..|events| - 1]), events[|events| - 1])
  }

  // ---- what every state keeps ---------------------------------------------------------------------------------

  /** The swapped key is only ever pending while its own, completed recovery is on record. */
  ghost predicate Inv(w: World) {
    && (w.recovery.Some? ==> (
          && w.recovery.value in w.requests
          && (w.pending.Some? ==> w.pending == Some(w.requests[w.recovery.value].key))
          && (w.requests[w.recovery.value].status.Completed? ==> w.swapped == Some(w.requests[w.recovery.value].key))))
    && (forall r :: r in w.requests && !w.requests[r].shown ==> w.requests[r].status.Awaiting? || w.requests[r].status.Ended?)
    && (w.swapped.Some? && w.pending == w.swapped ==> w.recovery.Some? && w.requests[w.recovery.value].status.Completed?)
    && KeysApart(w)
  }

  ghost predicate KeysApart(w: World) {
    && w.asked !! w.own
    && (w.pending.Some? ==> w.pending.value in w.asked)
    && (w.swapped.Some? ==> w.swapped.value in w.asked)
    && (w.onboarding.Some? ==> w.onboarding.value in w.own)
    && (forall r :: r in w.requests ==> w.requests[r].key in w.asked)
  }

  lemma FinishKeepsInv(w: World, n: nat)
    requires Inv(w)
    ensures Inv(Upto(w, FinishPlan(w), n))
  {
    hide OthersEnded;
    var plan := FinishPlan(w);
    if plan != [] {
      var r := w.recovery.value;
      if w.requests[r].status.Ready? {
        SwapKeepsInv(w);
        assert plan[1..] == LocalSteps;
        if n > 0 {
          LocalStepsKeepInv(Apply(w, plan[0]), n - 1);
        }
      } else if w.requests[r].status.Completed? {
        LocalStepsKeepInv(w, n);
      } else {
        CleanUpUnfolds(w, n);
      }
    }
  }

  lemma SwapKeepsInv(w: World)
    requires Inv(w) && Answers(w) && w.requests[w.recovery.value].status.Ready?
    ensures var w' := Apply(w, Swap(w.recovery.value));
      && Inv(w') && Answers(w') && w'.requests[w'.recovery.value].status.Completed? && w'.recovery == w.recovery
      && w'.pending == w.pending && w'.active == w.active && w'.vault == w.vault && w'.swapped == w.pending && w'.registered == w.pending
  {
  }

  lemma LocalStepsUnfold(w: World, n: nat)
    ensures Upto(w, LocalSteps, n) ==
      if n == 0 then w
      else if n == 1 then w.(active := w.pending)
      else if n == 2 then w.(active := w.pending, pending := None)
      else if n == 3 then w.(active := w.pending, pending := None, vault := true)
      else w.(active := w.pending, pending := None, vault := true, recovery := None)
  {
    assert LocalSteps[1..] == [DropPending, StoreVault, ClearRecovery] && LocalSteps[1..][1..] == [StoreVault, ClearRecovery];
    assert [StoreVault, ClearRecovery][1..] == [ClearRecovery] && [ClearRecovery][1..] == [];
    if n >= 1 {
      var w1 := Apply(w, PutActive);
      assert Upto(w, LocalSteps, n) == Upto(w1, [DropPending, StoreVault, ClearRecovery], n - 1);
      if n >= 2 {
        var w2 := Apply(w1, DropPending);
        assert [DropPending, StoreVault, ClearRecovery][1..] == [StoreVault, ClearRecovery];
        assert Upto(w1, [DropPending, StoreVault, ClearRecovery], n - 1) == Upto(w2, [StoreVault, ClearRecovery], n - 2);
        if n >= 3 {
          var w3 := Apply(w2, StoreVault);
          assert Upto(w2, [StoreVault, ClearRecovery], n - 2) == Upto(w3, [ClearRecovery], n - 3);
        }
      }
    }
  }

  lemma LocalStepsKeepInv(w: World, n: nat)
    requires Inv(w) && Answers(w) && w.requests[w.recovery.value].status.Completed?
    ensures Inv(Upto(w, LocalSteps, n))
  {
    LocalStepsUnfold(w, n);
  }

  lemma CleanUpUnfolds(w: World, n: nat)
    ensures Upto(w, CleanUp, n) == if n == 0 then w else if n == 1 then w.(pending := None) else w.(pending := None, recovery := None)
  {
    assert CleanUp[1..] == [ClearRecovery] && [ClearRecovery][1..] == [];
    if n >= 1 {
      assert Upto(w, CleanUp, n) == Upto(Apply(w, DropPending), [ClearRecovery], n - 1);
    }
  }

  lemma BeginUnfolds(w: World, key: Key, request: RequestId, n: nat)
    requires !w.vault && w.recovery.None? && request !in w.requests
    ensures Upto(w, BeginPlan(w, key, request), n) ==
      var asked := w.requests[request := Request(key, Awaiting, false)];
      if n == 0 then w
      else if n == 1 then w.(pending := Some(key))
      else if n == 2 then w.(pending := Some(key), requests := asked)
      else if n == 3 then w.(pending := Some(key), requests := asked, recovery := Some(request))
      else w.(pending := Some(key), requests := asked[request := Request(key, Awaiting, true)], recovery := Some(request))
  {
    var plan := BeginPlan(w, key, request);
    assert plan[1..] == [AskServer(request, key), WriteRecovery(request), OpenCeremony(request)];
    assert plan[1..][1..] == [WriteRecovery(request), OpenCeremony(request)];
    assert [WriteRecovery(request), OpenCeremony(request)][1..] == [OpenCeremony(request)] && [OpenCeremony(request)][1..] == [];
    if n >= 1 {
      var w1 := Apply(w, PutPending(key));
      assert Upto(w, plan, n) == Upto(w1, plan[1..], n - 1);
      if n >= 2 {
        var w2 := Apply(w1, AskServer(request, key));
        assert Upto(w1, plan[1..], n - 1) == Upto(w2, [WriteRecovery(request), OpenCeremony(request)], n - 2);
        if n >= 3 {
          var w3 := Apply(w2, WriteRecovery(request));
          assert Upto(w2, [WriteRecovery(request), OpenCeremony(request)], n - 2) == Upto(w3, [OpenCeremony(request)], n - 3);
          if n >= 4 {
            var w4 := Apply(w3, OpenCeremony(request));
            assert Upto(w3, [OpenCeremony(request)], n - 3) == Upto(w4, [], n - 4) == w4;
          }
        }
      }
    }
  }

  lemma BeginKeepsInv(w: World, key: Key, request: RequestId, n: nat, caught: bool, m: nat)
    requires Inv(w)
    ensures Inv(Step(w, Begin(key, request, n, caught, m)))
  {
    hide Upto, Apply;
    var w0 := w.(asked := w.asked + {key});
    NoWrites(w0, n);
    if request !in w.requests && IsNew(w, key) && !w.vault && w.recovery.None? {
      BeginUnfolds(w0, key, request, n);
      CleanUpUnfolds(Upto(w0, BeginPlan(w0, key, request), n), m);
    }
  }

  lemma CleanUpKeepsInv(w: World, n: nat)
    requires Inv(w)
    ensures Inv(Upto(w, CleanUp, n))
  {
    CleanUpUnfolds(w, n);
  }

  lemma WithdrawKeepsInv(w: World, request: RequestId)
    requires Inv(w)
    ensures Inv(Apply(w, Withdraw(request)))
  {
  }

  /** Abandoning is cleaning up, after telling the server if it can be told. */
  lemma AbandonUnfolds(w: World, told: bool, n: nat)
    ensures Upto(w, AbandonPlan(w, told), n) ==
      if told && Answers(w) then
        if n == 0 then w else Upto(Apply(w, Withdraw(w.recovery.value)), CleanUp, n - 1)
      else Upto(w, CleanUp, n)
  {
    hide Apply;
    var plan := AbandonPlan(w, told);
    if told && Answers(w) {
      assert plan[0] == Withdraw(w.recovery.value) && plan[1..] == CleanUp;
    } else {
      assert plan == CleanUp;
    }
  }

  lemma AbandonKeepsInv(w: World, told: bool, n: nat)
    requires Inv(w)
    ensures Inv(Step(w, Abandon(told, n)))
  {
    hide Inv, Upto, Apply, AbandonPlan;
    AbandonUnfolds(w, told, n);
    if told && Answers(w) && n > 0 {
      WithdrawKeepsInv(w, w.recovery.value);
      CleanUpKeepsInv(Apply(w, Withdraw(w.recovery.value)), n - 1);
    } else {
      CleanUpKeepsInv(w, n);
    }
  }

  lemma ProgressKeepsInv(w: World, n: nat)
    requires Inv(w)
    ensures Inv(Step(w, Progress(n)))
  {
    CleanUpUnfolds(w, n);
    assert [ClearRecovery][1..] == [];
  }

  lemma StepKeepsInv(w: World, e: Event)
    requires Inv(w)
    ensures Inv(Step(w, e))
  {
    hide Upto, BeginPlan, ProgressPlan, FinishPlan, AbandonPlan;
    match e
    case Begin(key, request, n, caught, m) => BeginKeepsInv(w, key, request, n, caught, m);
    case Progress(n) => ProgressKeepsInv(w, n);
    case Finish(n) => FinishKeepsInv(w, n);
    case Abandon(told, n) => AbandonKeepsInv(w, told, n);
    case RequestEnds(request) => WithdrawKeepsInv(w, request);
    case _ =>
  }

  lemma {:induction false} RunKeepsInv(registered: Option<Key>, events: seq<Event>)
    ensures Inv(Run(registered, events))
  {
    hide Step;
    if events != [] {
      RunKeepsInv(registered, events[..|events| - 1]);
      StepKeepsInv(Run(registered, events[..|events| - 1]), events[|events| - 1]);
    }
  }

  // ---- the calls themselves --------------------------------------------------------------------------------------

  /** The server's side of this wallet. */
  class Server {
    var registered: Option<Key>
    var requests: map<RequestId, Request>

    constructor (registered: Option<Key>)
      ensures this.registered == registered && requests == map[]
    {
      this.registered, requests := registered, map[];
    }

    method Complete(request: RequestId)
      requires request in requests && requests[request].status.Ready?
      modifies this
      ensures registered == Some(old(requests)[request].key) && requests == OthersEnded(old(requests), request)
    {
      registered, requests := Some(requests[request].key), OthersEnded(requests, request);
    }
  }

  /** The background script over its two key slots and its other durable state. `writes` is how many
      durable writes a call gets through before it is cut off. */
  class Install {
    const server: Server
    const keys: DeviceKeys
    var vault: bool
    var recovery: Option<RequestId>
    var onboarding: Option<Key>
    var enrolled: bool
    ghost var swapped: Option<Key>
    ghost var asked: set<Key>
    ghost var own: set<Key>

    ghost function State(): World
      reads this, server, keys
    {
      World(keys.pending, keys.active, vault, recovery, onboarding, enrolled, server.registered, server.requests, swapped, asked, own)
    }

    constructor (server: Server, keys: DeviceKeys)
      ensures this.server == server && this.keys == keys
      ensures !vault && recovery == onboarding == None && !enrolled && swapped == None && asked == own == {}
    {
      this.server, this.keys := server, keys;
      vault, recovery, onboarding, enrolled, swapped, asked, own := false, None, None, false, None, {}, {};
    }

    method CleanUpLocally(writes: nat)
      modifies this, keys
      ensures State() == Upto(old(State()), CleanUp, writes)
    {
      CleanUpUnfolds(State(), writes);
      if writes >= 1 {
        keys.DiscardPendingDeviceKey();
      }
      if writes >= 2 {
        recovery := None;
      }
    }

    method BeginRecovery(key: Key, request: RequestId, writes: nat, caught: bool, cleaned: nat)
      requires IsNew(State(), key)
      modifies this, server, keys
      ensures State() == Step(old(State()), Begin(key, request, writes, caught, cleaned))
    {
      if request in server.requests {
        return;
      }
      asked := asked + {key};
      if vault || recovery.Some? {
        return;
      }
      BeginUnfolds(State(), key, request, writes);
      if writes >= 1 {
        keys.StorePendingDeviceKey(key);
      }
      if writes >= 2 {
        server.requests := server.requests[request := Request(key, Awaiting, false)];
      }
      if writes >= 3 {
        recovery := Some(request);
      }
      if writes >= 4 {
        server.requests := server.requests[request := Request(key, Awaiting, true)];
      } else if caught {
        CleanUpLocally(cleaned);
      }
    }

    method RecoveryProgress(writes: nat)
      modifies this, keys
      ensures State() == Step(old(State()), Progress(writes))
    {
      if recovery.None? {
        return;
      }
      if keys.pending.None? {
        assert [ClearRecovery][1..] == [];
        if writes >= 1 {
          recovery := None;
        }
        return;
      }
      if recovery.value in server.requests && keys.pending == Some(server.requests[recovery.value].key)
         && server.requests[recovery.value].status.Ended? {
        CleanUpLocally(writes);
      }
    }

    method FinishRecovery(writes: nat)
      modifies this, server, keys
      ensures State() == Step(old(State()), Finish(writes))
    {
      hide Upto, OthersEnded;
      NoWrites(State(), writes);
      if vault || recovery.None? || keys.pending.None? {
        return;
      }
      var request := recovery.value;
      if request !in server.requests || keys.pending != Some(server.requests[request].key) {
        return;
      }
      match server.requests[request].status
      case Ended =>
        CleanUpLocally(writes);
      case Ready =>
        FinishFromReady(State(), writes);
        if writes > 0 {
          server.Complete(request);
          swapped := keys.pending;
          StoreLocally(writes - 1);
        }
      case Completed =>
        StoreLocally(writes);
      case _ =>
    }

    /** The steps after the server has swapped the key. */
    method StoreLocally(writes: nat)
      requires keys.pending.Some?
      modifies this, keys
      ensures State() == Upto(old(State()), LocalSteps, writes)
    {
      LocalStepsUnfold(State(), writes);
      var _ := keys.PromotePendingDeviceKey(writes);
      if writes >= 3 {
        vault := true;
      }
      if writes >= 4 {
        recovery := None;
      }
    }

    method AbandonRecovery(told: bool, writes: nat)
      modifies this, server, keys
      ensures State() == Step(old(State()), Abandon(told, writes))
    {
      AbandonUnfolds(State(), told, writes);
      var left := writes;
      if told && recovery.Some? && recovery.value in server.requests && keys.pending == Some(server.requests[recovery.value].key) {
        if writes == 0 {
          return;
        }
        if !server.requests[recovery.value].status.Completed? {
          server.requests := server.requests[recovery.value := server.requests[recovery.value].(status := Ended)];
        }
        left := writes - 1;
      }
      CleanUpLocally(left);
    }

    method CreateKey(key: Key)
      requires IsNew(State(), key)
      modifies this
      ensures State() == Step(old(State()), Event.CreateKey(key))
    {
      if vault {
        return;
      }
      onboarding, enrolled, own := Some(key), false, own + {key};
    }

    /** The slot is overwritten whatever it holds; whether there is a vault by now is not asked again. */
    method ConfirmRecoverySaved(writes: nat)
      modifies this, keys
      ensures State() == Confirmed(old(State()), writes)
    {
      if onboarding.None? || enrolled || writes == 0 {
        return;
      }
      enrolled := true;
      if writes >= 2 {
        keys.StoreDeviceKey(onboarding.value);
      }
      if writes >= 3 {
        vault, onboarding, enrolled := true, None, false;
      }
    }
  }

  lemma FinishFromReady(w: World, n: nat)
    requires !w.vault && Answers(w) && w.requests[w.recovery.value].status.Ready?
    ensures Upto(w, FinishPlan(w), n) == if n == 0 then w else Upto(Apply(w, Swap(w.recovery.value)), LocalSteps, n - 1)
  {
    hide Apply;
    assert FinishPlan(w)[1..] == LocalSteps;
  }

  // ---- where the swapped key goes --------------------------------------------------------------------------------

  /** The key the server took is in one of the two slots. */
  predicate Holds(w: World) {
    w.swapped.Some? && (w.pending == w.swapped || w.active == w.swapped)
  }

  /** The confirmation of a new wallet gets to the active slot, which has the only copy. */
  predicate Overwrites(w: World, e: Event) {
    && e.ConfirmSaved? && e.n >= 2 && w.onboarding.Some? && !w.enrolled
    && w.swapped.Some? && w.active == w.swapped && w.pending != w.swapped
  }

  /** An abandoned recovery gets to the pending slot, which has the only copy. */
  predicate Discards(w: World, e: Event) {
    && e.Abandon? && e.n > (if e.told && Answers(w) then 1 else 0)
    && w.swapped.Some? && w.pending == w.swapped && w.active != w.swapped
  }

  lemma FinishKeepsHolding(w: World, n: nat)
    requires Inv(w)
    ensures var w' := Upto(w, FinishPlan(w), n);
      if w'.swapped == w.swapped then (Holds(w') <==> Holds(w)) else Holds(w')
  {
    hide OthersEnded, Upto;
    NoWrites(w, n);
    if FinishPlan(w) != [] {
      var r := w.recovery.value;
      if w.requests[r].status.Ready? {
        FinishFromReady(w, n);
        SwapKeepsInv(w);
        if n > 0 {
          LocalStepsUnfold(Apply(w, Swap(r)), n - 1);
        }
      } else if w.requests[r].status.Completed? {
        LocalStepsUnfold(w, n);
      } else {
        CleanUpUnfolds(w, n);
      }
    }
  }

  lemma BeginKeepsHolding(w: World, key: Key, request: RequestId, n: nat, caught: bool, m: nat)
    requires Inv(w)
    ensures var w' := Step(w, Begin(key, request, n, caught, m));
      w'.swapped == w.swapped && (Holds(w') <==> Holds(w))
  {
    hide Upto;
    if request !in w.requests && IsNew(w, key) {
      var w0 := w.(asked := w.asked + {key});
      NoWrites(w0, n);
      if !w.vault && w.recovery.None? {
        BeginUnfolds(w0, key, request, n);
        CleanUpUnfolds(Upto(w0, BeginPlan(w0, key, request), n), m);
      }
    }
  }

  lemma AbandonDrops(w: World, told: bool, n: nat)
    requires Inv(w)
    ensures var w' := Step(w, Abandon(told, n));
      w'.swapped == w.swapped && (Holds(w') <==> Holds(w) && !Discards(w, Abandon(told, n)))
  {
    hide Upto, AbandonPlan;
    AbandonUnfolds(w, told, n);
    if told && Answers(w) && n > 0 {
      CleanUpUnfolds(Apply(w, Withdraw(w.recovery.value)), n - 1);
    } else {
      CleanUpUnfolds(w, n);
    }
  }

  lemma ProgressKeepsHolding(w: World, n: nat)
    requires Inv(w)
    ensures var w' := Step(w, Progress(n));
      w'.swapped == w.swapped && (Holds(w') <==> Holds(w))
  {
    CleanUpUnfolds(w, n);
    assert [ClearRecovery][1..] == [];
  }

  /** For every reachable state and every next call, cut off anywhere: unless the server takes another
      key, which then is in a slot, the swapped key leaves both slots exactly when a new wallet's
      confirmation overwrites its only copy or an abandon drops it; and once gone it stays gone. */
  lemma KeyLeavesSlotsIff(registered: Option<Key>, events: seq<Event>, e: Event)
    ensures var w, w' := Run(registered, events), Step(Run(registered, events), e);
      if w'.swapped == w.swapped then (Holds(w') <==> Holds(w) && !Overwrites(w, e) && !Discards(w, e)) else Holds(w')
  {
    hide Run, Upto, BeginPlan, ProgressPlan, FinishPlan, AbandonPlan;
    RunKeepsInv(registered, events);
    var w := Run(registered, events);
    match e
    case Begin(key, request, n, caught, m) => BeginKeepsHolding(w, key, request, n, caught, m);
    case Progress(n) => ProgressKeepsHolding(w, n);
    case Finish(n) => FinishKeepsHolding(w, n);
    case Abandon(told, n) => AbandonDrops(w, told, n);
    case _ =>
  }

  /** Call number `k` threw away the key, and the server has taken no other since. */
  ghost predicate LosesAt(registered: Option<Key>, events: seq<Event>, k: int)
    requires 0 <= k < |events|
  {
    && (Overwrites(Run(registered, events[..k]), events[k]) || Discards(Run(registered, events[..k]), events[k]))
    && forall j :: k <= j < |events| ==> Run(registered, events[..j]).swapped == Run(registered, events).swapped
  }

  /** From the server's key swap on, at every point a call can stop and through every retry: the key
      the server took is in the pending or the active slot if and only if no new wallet overwrote and no
      abandon dropped its only copy. */
  lemma {:induction false} SwappedKeyIsKept(registered: Option<Key>, events: seq<Event>)
    ensures var w := Run(registered, events);
      w.swapped.Some? ==> (Holds(w) <==> forall k :: 0 <= k < |events| ==> !LosesAt(registered, events, k))
  {
    hide Step, Holds, Overwrites, Discards, LosesAt;
    if events != [] {
      var n := |events| - 1;
      var init, e := events[..n], events[n];
      SwappedKeyIsKept(registered, init);
      LossesSoFar(registered, events);
      KeyLeavesSlotsIff(registered, init, e);
      if Run(registered, init).swapped == Run(registered, events).swapped {
        assert LosesAt(registered, events, n) <==> Overwrites(Run(registered, init), e) || Discards(Run(registered, init), e);
        assert forall k :: 0 <= k < n ==> (LosesAt(registered, events, k) <==> LosesAt(registered, init, k));
      }
    }
  }

  /** A call that leaves the swapped key alone adds at most its own loss; one that swaps leaves none. */
  lemma LossesSoFar(registered: Option<Key>, events: seq<Event>)
    requires events != []
    ensures var n := |events| - 1;
      var init := events[..n];
      var w0, w := Run(registered, init), Run(registered, events);
      if w0.swapped == w.swapped then
        && (LosesAt(registered, events, n) <==> Overwrites(w0, events[n]) || Discards(w0, events[n]))
        && (forall k :: 0 <= k < n ==> (LosesAt(registered, events, k) <==> LosesAt(registered, init, k)))
      else forall k :: 0 <= k < |events| ==> !LosesAt(registered, events, k)
  {
    hide Run, Overwrites, Discards;
    var n := |events| - 1;
    var init := events[..n];
    assert forall k :: 0 <= k <= n ==> events[..k] == init[..k];
    assert init[..n] == init;
    forall k | 0 <= k < n && LosesAt(registered, events, k)
      ensures Run(registered, init).swapped == Run(registered, events).swapped
    {
      assert Run(registered, events[..n]).swapped == Run(registered, events).swapped;
    }
    if Run(registered, init).swapped == Run(registered, events).swapped {
      forall k | 0 <= k < n ensures LosesAt(registered, events, k) <==> LosesAt(registered, init, k) {
        assert forall j :: k <= j < n ==> events[..j] == init[..j];
        assert init[k] == events[k];
      }
    }
  }

  /** No abandon is needed to lose it. Stopped before the vault, a finish leaves the only copy in the
      active slot, and a new wallet made then overwrites it; a wallet made earlier and confirmed later
      does so even after a whole finish. Stopped earlier, the pending slot still has it. */
  lemma NewWalletCanLoseTheKey(registered: Option<Key>, key: Key, request: RequestId, other: Key)
    requires other != key
    ensures var ready := AfterWaiting(registered, key, request);
      var stopped := Steps(ready, [Finish(3), CreateKey(other), ConfirmSaved(2)]);
      var earlier := Steps(ready, [CreateKey(other), Finish(5), ConfirmSaved(2)]);
      var kept := Steps(ready, [Finish(1), CreateKey(other), ConfirmSaved(3)]);
      && stopped.registered == stopped.swapped == Some(key) && !Holds(stopped)
      && earlier.registered == earlier.swapped == Some(key) && earlier.vault && !Holds(earlier)
      && kept.registered == kept.swapped == Some(key) && Holds(kept)
  {
    hide Step;
    ReadyIsReached(registered, key, request);
    RunKeepsInv(registered, [Begin(key, request, 4, false, 0), Approve(request), CoolingEnds(request)]);
    var ready := AfterWaiting(registered, key, request);
    ThreeSteps(ready, Finish(3), CreateKey(other), ConfirmSaved(2));
    ThreeSteps(ready, CreateKey(other), Finish(5), ConfirmSaved(2));
    ThreeSteps(ready, Finish(1), CreateKey(other), ConfirmSaved(3));
    LosingRuns(ready, key, other);
  }

  lemma LosingRuns(ready: World, key: Key, other: Key)
    requires Inv(ready) && !ready.vault && Answers(ready) && ready.requests[ready.recovery.value].status.Ready? && ready.pending == Some(key)
    requires IsNew(ready, other) && other != key && ready.onboarding == None
    ensures var stopped := Step(Step(Step(ready, Finish(3)), CreateKey(other)), ConfirmSaved(2));
      var earlier := Step(Step(Step(ready, CreateKey(other)), Finish(5)), ConfirmSaved(2));
      var kept := Step(Step(Step(ready, Finish(1)), CreateKey(other)), ConfirmSaved(3));
      && stopped.registered == stopped.swapped == Some(key) && !Holds(stopped)
      && earlier.registered == earlier.swapped == Some(key) && earlier.vault && !Holds(earlier)
      && kept.registered == kept.swapped == Some(key) && Holds(kept)
  {
    hide Upto, FinishPlan, OthersEnded;
    FinishUnfolds(ready, 3);
    FinishUnfolds(ready, 1);
    FinishUnfolds(Step(ready, CreateKey(other)), 5);
  }

  function Steps(w: World, events: seq<Event>): World
    decreases |events|
  {
    if events == [] then w else Steps(Step(w, events[0]), events[1..])
  }

  lemma ThreeSteps(w: World, a: Event, b: Event, c: Event)
    ensures Steps(w, [a, b, c]) == Step(Step(Step(w, a), b), c)
  {
    hide Step;
    assert [a, b, c][1..] == [b, c] && [b, c][1..] == [c] && [c][1..] == [];
    assert Steps(Step(Step(w, a), b), [c]) == Step(Step(Step(w, a), b), c);
  }

  // ---- retries -----------------------------------------------------------------------------------------------------

  lemma FinishUnfolds(w: World, n: nat)
    requires Inv(w) && !w.vault && Answers(w) && w.requests[w.recovery.value].status.Ready?
    ensures var swapped := Apply(w, Swap(w.recovery.value));
      && Answers(swapped) && swapped.requests[swapped.recovery.value].status.Completed?
      && swapped.recovery == w.recovery && swapped.pending == w.pending
      && swapped.registered == w.pending && !swapped.vault
      && Upto(w, FinishPlan(w), n) ==
        if n == 0 then w
        else if n == 1 then swapped
        else if n == 2 then swapped.(active := w.pending)
        else if n == 3 then swapped.(active := w.pending, pending := None)
        else if n == 4 then swapped.(active := w.pending, pending := None, vault := true)
        else swapped.(active := w.pending, pending := None, vault := true, recovery := None)
  {
    hide OthersEnded;
    SwapKeepsInv(w);
    var plan := FinishPlan(w);
    assert plan[1..] == LocalSteps;
    if n > 0 {
      LocalStepsUnfold(Apply(w, plan[0]), n - 1);
    }
  }

  /** The local steps are still to be done: nothing in the vault, a recovery on record, and the server
      ready for it or done with it. */
  predicate Unfinished(w: World) {
    && !w.vault && w.recovery.Some? && w.recovery.value in w.requests
    && (w.requests[w.recovery.value].status.Ready? || w.requests[w.recovery.value].status.Completed?)
  }

  /** For every reachable state, and so after every series of calls cut off anywhere: a finish stores the
      vault, under the key the server takes, if and only if the pending slot still has a key. Without
      one neither a finish nor anything short of forgetting the recovery writes a thing. */
  lemma FinishStoresIffKeyIsPending(registered: Option<Key>, events: seq<Event>)
    requires Unfinished(Run(registered, events))
    ensures var w := Run(registered, events);
      && (Step(w, Finish(5)).vault <==> w.pending.Some?)
      && (w.pending.Some? ==> Step(w, Finish(5)).active == Step(w, Finish(5)).swapped == w.pending)
      && (w.pending.None? ==> FinishPlan(w) == [] && ProgressPlan(w) == [ClearRecovery])
  {
    hide Run, OthersEnded, Upto;
    RunKeepsInv(registered, events);
    var w := Run(registered, events);
    if w.pending.Some? {
      if w.requests[w.recovery.value].status.Ready? {
        FinishUnfolds(w, 5);
      } else {
        LocalStepsUnfold(w, 5);
      }
    } else {
      NoWrites(w, 5);
    }
  }

  /** A series of tries to finish, each cut off somewhere. */
  function Tries(w: World, cuts: seq<nat>): World {
    if cuts == [] then w else Step(Tries(w, cuts[..|cuts| - 1]), Finish(cuts[|cuts| - 1]))
  }

  /** Over every series: an unfinished recovery stays unfinished until the vault is stored, and each next
      try stores it if and only if no earlier one emptied the pending slot without storing it. */
  lemma {:induction false} TriesStoreIffKeyIsPending(registered: Option<Key>, events: seq<Event>, cuts: seq<nat>)
    requires Unfinished(Run(registered, events))
    ensures var t := Tries(Run(registered, events), cuts);
      && (t.vault || (Unfinished(t) && (Step(t, Finish(5)).vault <==> t.pending.Some?)))
      && (Unfinished(t) && t.pending.None? ==> forall n: nat :: Step(t, Finish(n)) == t)
  {
    hide Step;
    var t := Tries(Run(registered, events), cuts);
    TriesAreARun(registered, events, cuts);
    var es := events + Finishes(cuts);
    if cuts != [] {
      TriesStoreIffKeyIsPending(registered, events, cuts[..|cuts| - 1]);
      TriesAreARun(registered, events, cuts[..|cuts| - 1]);
      StaysUnfinished(registered, events + Finishes(cuts[..|cuts| - 1]), cuts[|cuts| - 1]);
    }
    if Unfinished(t) {
      FinishStoresIffKeyIsPending(registered, es);
      if t.pending.None? {
        forall n: nat ensures Step(t, Finish(n)) == t {
          FinishWithoutPlan(t, n);
        }
      }
    }
  }

  lemma FinishWithoutPlan(w: World, n: nat)
    requires FinishPlan(w) == []
    ensures Step(w, Finish(n)) == w
  {
  }

  function Finishes(cuts: seq<nat>): seq<Event> {
    seq(|cuts|, i requires 0 <= i < |cuts| => Finish(cuts[i]))
  }

  lemma {:induction false} TriesAreARun(registered: Option<Key>, events: seq<Event>, cuts: seq<nat>)
    ensures Tries(Run(registered, events), cuts) == Run(registered, events + Finishes(cuts))
  {
    hide Step;
    if cuts == [] {
      assert events + Finishes(cuts) == events;
    } else {
      var init := cuts[..|cuts| - 1];
      TriesAreARun(registered, events, init);
      var all := events + Finishes(cuts);
      assert all[..|all| - 1] == events + Finishes(init);
    }
  }

  lemma StaysUnfinished(registered: Option<Key>, events: seq<Event>, n: nat)
    requires Run(registered, events).vault || Unfinished(Run(registered, events))
    ensures var w' := Step(Run(registered, events), Finish(n));
      w'.vault || Unfinished(w')
  {
    hide Run, OthersEnded, Upto;
    RunKeepsInv(registered, events);
    var w := Run(registered, events);
    NoWrites(w, n);
    if !w.vault && w.pending.Some? {
      if w.requests[w.recovery.value].status.Ready? {
        FinishUnfolds(w, n);
      } else {
        LocalStepsUnfold(w, n);
      }
    }
  }

  /** The place where that happens: a finish stopped after the third of its five writes. There the retry
      writes nothing, the next progress report forgets the recovery as expired, and yet the key the
      server takes is the active one. */
  lemma RetryWorksExceptBeforeVault(registered: Option<Key>, events: seq<Event>, n: nat)
    requires var w := Run(registered, events);
      !w.vault && Answers(w) && w.requests[w.recovery.value].status.Ready?
    ensures var w := Run(registered, events);
      var stopped := Step(w, Finish(n));
      var retried := Step(stopped, Finish(5));
      && (retried.vault <==> n != 3)
      && (retried.vault ==> retried.active == w.pending && retried.registered == w.pending)
      && (n == 3 ==> FinishPlan(stopped) == [] && ProgressPlan(stopped) == [ClearRecovery] && stopped.active == stopped.registered == w.pending)
  {
    hide Run, OthersEnded;
    RunKeepsInv(registered, events);
    var w := Run(registered, events);
    FinishUnfolds(w, n);
    var stopped := Step(w, Finish(n));
    if n == 0 {
      FinishUnfolds(w, 5);
    } else {
      LocalStepsUnfold(stopped, 5);
    }
  }

  /** The state after a recovery was begun, approved and waited for. */
  function AfterWaiting(registered: Option<Key>, key: Key, request: RequestId): World {
    Run(registered, [Begin(key, request, 4, false, 0), Approve(request), CoolingEnds(request)])
  }

  /** A recovery that is approved and waited for gets there. */
  lemma ReadyIsReached(registered: Option<Key>, key: Key, request: RequestId)
    ensures var w := AfterWaiting(registered, key, request);
      && !w.vault && Answers(w) && w.requests[w.recovery.value].status.Ready? && w.pending == Some(key)
      && w.asked == {key} && w.own == {} && w.onboarding == None
  {
    var es := [Begin(key, request, 4, false, 0), Approve(request), CoolingEnds(request)];
    assert es[..2][..1] == es[..1] && es[..1][..0] == [];
    var w0 := Fresh(registered).(asked := {} + {key});
    BeginUnfolds(w0, key, request, 4);
    assert Step(Fresh(registered), es[0]) == Upto(w0, BeginPlan(w0, key, request), 4);
    assert Run(registered, es[..1]) == Step(Fresh(registered), es[0]);
    assert Run(registered, es[..2]) == Step(Run(registered, es[..1]), es[1]);
    assert Run(registered, es) == Step(Run(registered, es[..2]), es[2]);
  }

  // ---- what each call achieves ------------------------------------------------------------------------------------

  /** A recovery begins only with neither a vault nor another recovery here. Uninterrupted, it keeps the new
      key aside and has its request shown; when it fails part of the way and the clean-up runs, nothing is
      kept. */
  lemma BeginsOnlyWhenFree(w: World, key: Key, request: RequestId, n: nat, caught: bool, m: nat)
    requires request !in w.requests && IsNew(w, key)
    ensures var w' := Step(w, Begin(key, request, n, caught, m));
      if w.vault || w.recovery.Some? then w' == w.(asked := w.asked + {key})
      else
        && w'.active == w.active && !w'.vault
        && (n >= 4 ==> w'.pending == Some(key) && w'.recovery == Some(request)
                       && w'.requests == w.requests[request := Request(key, Awaiting, true)])
        && (n < 4 && caught && m >= 2 ==> w'.pending.None? && w'.recovery.None?)
  {
    hide Upto, Apply;
    var w0 := w.(asked := w.asked + {key});
    NoWrites(w0, n);
    if !w.vault && w.recovery.None? {
      BeginUnfolds(w0, key, request, n);
      CleanUpUnfolds(Upto(w0, BeginPlan(w0, key, request), n), m);
      assert w.requests[request := Request(key, Awaiting, false)][request := Request(key, Awaiting, true)]
          == w.requests[request := Request(key, Awaiting, true)];
    }
  }

  /** An abandon that runs to its end leaves no recovery and no key aside, and keeps the active key and the
      vault. If the server was reached, the request is ended there unless it had completed, and no other is. */
  lemma AbandonEndsTheRecovery(w: World, told: bool, n: nat)
    requires n >= 3
    ensures var w' := Step(w, Abandon(told, n));
      && w'.pending.None? && w'.recovery.None? && w'.active == w.active && w'.vault == w.vault
      && w'.requests.Keys == w.requests.Keys
      && forall r :: r in w.requests ==>
           w'.requests[r] == if told && Answers(w) && r == w.recovery.value && !w.requests[r].status.Completed?
                             then w.requests[r].(status := Ended) else w.requests[r]
  {
    hide Upto;
    AbandonUnfolds(w, told, n);
    if told && Answers(w) {
      CleanUpUnfolds(Apply(w, Withdraw(w.recovery.value)), n - 1);
    } else {
      CleanUpUnfolds(w, n);
    }
  }

  /** A new wallet is kept in memory only while there is no vault. Its confirmation, once, registers the key,
      then makes it the active one, then stores the vault, and stops where it is cut off. */
  lemma NewWalletWrites(w: World, key: Key, n: nat)
    ensures w.vault ==> Step(w, CreateKey(key)) == w
    ensures !w.vault && IsNew(w, key) ==> Step(w, CreateKey(key)).onboarding == Some(key) && !Step(w, CreateKey(key)).enrolled
    ensures var w' := Step(w, ConfirmSaved(n));
      if w.onboarding.None? || w.enrolled || n == 0 then w' == w
      else
        && w'.active == (if n >= 2 then w.onboarding else w.active) && w'.vault == (w.vault || n >= 3)
        && w'.onboarding == (if n >= 3 then None else w.onboarding) && (n < 3 ==> w'.enrolled)
        && w'.pending == w.pending && w'.recovery == w.recovery && w'.requests == w.requests
  {
  }

  /** Asked about a request that ended, both the progress report and the finish forget it; about one that
      still waits, neither writes anything. */
  lemma OnlyEndsAreForgotten(w: World, n: nat)
    requires !w.vault && Answers(w) && n >= 2
    ensures var status := w.requests[w.recovery.value].status;
      && (status.Ended? ==>
            Step(w, Progress(n)) == Step(w, Finish(n)) == w.(pending := None, recovery := None))
      && (status.Awaiting? || status.Cooling? ==> Step(w, Progress(n)) == Step(w, Finish(n)) == w)
  {
    hide Upto;
    NoWrites(w, n);
    CleanUpUnfolds(w, n);
  }

  /** The swap registers the key kept aside, completes its request, and ends every other one that had not
      completed, at whatever write the finish is cut off later. */
  lemma SwapEndsTheOthers(w: World, n: nat)
    requires !w.vault && Answers(w) && w.requests[w.recovery.value].status.Ready? && n >= 1
    ensures var w' := Step(w, Finish(n));
      && w'.registered == w'.swapped == w.pending && w'.requests.Keys == w.requests.Keys
      && forall r :: r in w.requests ==>
           w'.requests[r].status == if r == w.recovery.value || w.requests[r].status.Completed? then Completed else Ended
  {
    hide Upto;
    FinishFromReady(w, n);
    LocalStepsUnfold(Apply(w, Swap(w.recovery.value)), n - 1);
  }
}
