/** Storing a new wallet once its recovery file is saved
    (packages/extension/entrypoints/background.ts:175-236, crates/mpc-server/src/store.rs:559-577). */
module Onboarding {
  import opened Prelude
  import opened Digests
  import opened RecoveryStore

  type Share = int

  const MIN_PASSWORD := 8

  datatype Creation = ShortPassword | KeyExists | GenerationFailed | KeptInMemory

  /** The new wallet as the worker's memory holds it. */
  datatype NewWallet = NewWallet(wallet: WalletId, shareA: Share, deviceKey: DeviceKey)

  /** Worker memory, the install's durable state, and the server's tables. */
  datatype Setup = Setup(pending: Option<NewWallet>, active: Option<DeviceKey>, vault: Option<(WalletId, Share)>, db: Db)

  /** A confirmation cut off after `writes` of its three durable writes: the key registered, the key
      stored, the vault stored. A refused registration ends it at once. */
  function Confirmed(s: Setup, writes: nat): Setup {
    match s.pending
    case None => s
    case Some(p) =>
      var (db, registered) := RegisterSpec(s.db, p.wallet, p.deviceKey);
      if writes == 0 || !registered then s
      else if writes == 1 then s.(db := db)
      else if writes == 2 then s.(db := db, active := Some(p.deviceKey))
      else Setup(None, Some(p.deviceKey), Some((p.wallet, p.shareA)), db)
  }

  class Background {
    const server: Store
    var pending: Option<NewWallet>
    var active: Option<DeviceKey>
    var vault: Option<(WalletId, Share)>

    ghost function State(): Setup
      reads this, server
    {
      Setup(pending, active, vault, server.Tables())
    }

    constructor (server: Store)
      ensures this.server == server && pending == None && active == None && vault == None
    {
      this.server := server;
      pending, active, vault := None, None, None;
    }

    /** Key creation keeps everything in memory. A short password or a wallet already here refuses it
        before anything is generated; `created` is what the generation gives, unless it throws. */
    method CreateKey(passwordLength: nat, created: Option<NewWallet>) returns (r: Creation)
      modifies this
      ensures r == (if passwordLength < MIN_PASSWORD then ShortPassword else if old(vault).Some? then KeyExists
                    else if created.None? then GenerationFailed else KeptInMemory)
      ensures State() == if r.KeptInMemory? then old(State()).(pending := created) else old(State())
    {
      if passwordLength < MIN_PASSWORD {
        return ShortPassword;
      }
      if vault.Some? {
        return KeyExists;
      }
      if created.None? {
        return GenerationFailed;
      }
      pending := created;
      r := KeptInMemory;
    }

    /** Everything that was created is dropped; what is durable stays. */
    method CancelOnboarding()
      modifies this
      ensures State() == old(State()).(pending := None)
    {
      pending := None;
    }

    method ConfirmRecoverySaved(writes: nat)
      modifies this, server
      ensures State() == Confirmed(old(State()), writes)
    {
      if pending.None? || writes == 0 {
        return;
      }
      var registered := server.RegisterDeviceKey(pending.value.wallet, pending.value.deviceKey);
      if !registered || writes == 1 {
        return;
      }
      active := Some(pending.value.deviceKey);
      if writes == 2 {
        return;
      }
      vault := Some((pending.value.wallet, pending.value.shareA));
      pending := None;
    }
  }

  /** Trying again until something changes no more. */
  function Retried(s: Setup, tries: seq<nat>): Setup {
    if tries == [] then s else Confirmed(Retried(s, tries[..|tries| - 1]), tries[|tries| - 1])
  }

  /** The wallet is stored with its own share, and the server takes the key in the active slot. */
  predicate Complete(s: Setup, p: NewWallet) {
    && s.vault == Some((p.wallet, p.shareA)) && s.active == Some(p.deviceKey)
    && p.wallet in s.db.deviceKeys && s.db.deviceKeys[p.wallet] == p.deviceKey
  }

  /** For every series of tries: the wallet ends up stored if and only if the first try that reached
      the server went through to the end. A try cut off between the registration and the vault leaves a
      wallet no retry can store, because the server takes a wallet's first key only once. */
  lemma {:induction false} ConfirmationIsNotRetryable(s: Setup, p: NewWallet, tries: seq<nat>)
    requires s.pending == Some(p) && p.wallet !in s.db.deviceKeys && s.vault.None?
    ensures var t := Retried(s, tries);
      && (Complete(t, p) <==> exists i :: 0 <= i < |tries| && tries[i] >= 3 && forall j :: 0 <= j < i ==> tries[j] == 0)
      && (t == s <==> forall i :: 0 <= i < |tries| ==> tries[i] == 0)
      && (t != s ==> p.wallet in t.db.deviceKeys)
      && (if Complete(t, p) then t.pending == None else t.pending == Some(p) && t.vault == None)
  {
    if tries != [] {
      var n := |tries| - 1;
      var init := tries[..n];
      ConfirmationIsNotRetryable(s, p, init);
      var t0, t := Retried(s, init), Retried(s, tries);
      assert forall i :: 0 <= i < n ==> init[i] == tries[i];
      if t0 == s {
        assert tries[n] >= 3 ==> Complete(t, p);
        if Complete(t, p) {
          assert tries[n] >= 3 && forall j :: 0 <= j < n ==> tries[j] == 0;
        }
      } else {
        assert t == t0;
        if Complete(t0, p) {
          var i :| 0 <= i < n && init[i] >= 3 && forall j :: 0 <= j < i ==> init[j] == 0;
          assert tries[i] >= 3 && forall j :: 0 <= j < i ==> tries[j] == 0;
        }
      }
    }
  }

  /** The first try that reaches the server decides for good what there will be: the registered key in any
      case, the active key if it got to its second write, the vault if it got to its third. */
  lemma {:induction false} FirstTryDecides(s: Setup, p: NewWallet, tries: seq<nat>, i: int)
    requires s.pending == Some(p) && p.wallet !in s.db.deviceKeys && s.vault.None?
    requires 0 <= i < |tries| && tries[i] > 0 && forall j :: 0 <= j < i ==> tries[j] == 0
    ensures var t := Retried(s, tries);
      && t.db.deviceKeys == s.db.deviceKeys[p.wallet := p.deviceKey]
      && t.active == (if tries[i] >= 2 then Some(p.deviceKey) else s.active)
      && t.vault == (if tries[i] >= 3 then Some((p.wallet, p.shareA)) else None)
      && t.pending == (if tries[i] >= 3 then None else Some(p))
    decreases |tries|
  {
    var n := |tries| - 1;
    if i < n {
      FirstTryDecides(s, p, tries[..n], i);
    } else {
      assert forall j :: 0 <= j < n ==> tries[..n][j] == 0;
      NoTriesNoChange(s, tries[..n]);
    }
  }

  /** Before the confirmation reaches the server nothing is durable: losing the worker leaves the install
      and the server as they were. */
  lemma NothingBeforeConfirmation(s: Setup, p: NewWallet, tries: seq<nat>)
    requires s.pending == None && forall i :: 0 <= i < |tries| ==> tries[i] == 0
    ensures var t := Retried(s.(pending := Some(p)), tries);
      t.active == s.active && t.vault == s.vault && t.db == s.db
  {
    NoTriesNoChange(s.(pending := Some(p)), tries);
  }

  lemma {:induction false} NoTriesNoChange(s: Setup, tries: seq<nat>)
    requires forall i :: 0 <= i < |tries| ==> tries[i] == 0
    ensures Retried(s, tries) == s
  {
    if tries != [] {
      NoTriesNoChange(s, tries[..|tries| - 1]);
    }
  }
}
