/** Device proofs and the nonce table behind them (crates/mpc-server/src/auth.rs,
    crates/mpc-server/src/store.rs:829-855). A request is one step with one clock reading, in
    nanoseconds; the skew check truncates that reading to milliseconds, the table does not. */
module Auth {
  import opened Digests

  const MAX_CLOCK_SKEW_MS := 300_000
  const NONCE_TTL_SECONDS := 600
  const NS_PER_MS := 1_000_000
  const NS_PER_SECOND := 1_000_000_000

  /** A proof as presented: its headers, whether its signature verifies over them, and the body. */
  datatype Proof = Proof(wallet: WalletId, timestamp: int, nonce: string, body: string, verifies: bool)

  type Reserved = map<(WalletId, string), int>

  predicate InWindow(skewMs: int, timestamp: int, now: int) {
    -skewMs <= now / NS_PER_MS - timestamp <= skewMs
  }

  predicate WellFormed(p: Proof) {
    0 < |p.nonce| <= 128
  }

  /** Drops what expired before `now`. */
  function Kept(table: Reserved, now: int): Reserved {
    map k | k in table && table[k] >= now :: table[k]
  }

  function ReserveSpec(table: Reserved, wallet: WalletId, nonce: string, ttlNs: int, now: int): (Reserved, bool) {
    var kept := Kept(table, now);
    if (wallet, nonce) in kept then (kept, false) else (kept[(wallet, nonce) := now + ttlNs], true)
  }

  /** One request. Only a proof that passes every other check reaches the table. */
  function AuthSpec(table: Reserved, p: Proof, skewMs: int, ttlNs: int, now: int): (Reserved, bool) {
    if !InWindow(skewMs, p.timestamp, now) || !WellFormed(p) || !p.verifies then (table, false)
    else ReserveSpec(table, p.wallet, p.nonce, ttlNs, now)
  }

  class NonceStore {
    var reserved: Reserved

    constructor ()
      ensures reserved == map[]
    {
      reserved := map[];
    }

    method ReserveDeviceNonce(wallet: WalletId, nonce: string, ttlNs: int, now: int) returns (unused: bool)
      modifies this
      ensures (reserved, unused) == ReserveSpec(old(reserved), wallet, nonce, ttlNs, now)
    {
      reserved := map k | k in reserved && reserved[k] >= now :: reserved[k];
      unused := (wallet, nonce) !in reserved;
      if unused {
        reserved := reserved[(wallet, nonce) := now + ttlNs];
      }
    }

    method Authenticate(p: Proof, now: int) returns (accepted: bool)
      modifies this
      ensures (reserved, accepted) == AuthSpec(old(reserved), p, MAX_CLOCK_SKEW_MS, NONCE_TTL_SECONDS * NS_PER_SECOND, now)
    {
      var nowMs := now / NS_PER_MS;
      if nowMs - p.timestamp > MAX_CLOCK_SKEW_MS || p.timestamp - nowMs > MAX_CLOCK_SKEW_MS || |p.nonce| == 0 || |p.nonce| > 128 {
        return false;
      }
      if !p.verifies {
        return false;
      }
      accepted := ReserveDeviceNonce(p.wallet, p.nonce, NONCE_TTL_SECONDS * NS_PER_SECOND, now);
    }
  }

  // ---- whole runs ----------------------------------------------------------------------------------

  datatype Arrival = Arrival(proof: Proof, now: int)

  datatype Log = Log(table: Reserved, accepted: seq<bool>)

  function Serve(arrivals: seq<Arrival>, skewMs: int, ttlNs: int): (l: Log)
    ensures |l.accepted| == |arrivals|
  {
    if arrivals == [] then Log(map[], [])
    else
      var l := Serve(arrivals[..|arrivals| - 1], skewMs, ttlNs);
      var (table, ok) := AuthSpec(l.table, arrivals[|arrivals| - 1].proof, skewMs, ttlNs, arrivals[|arrivals| - 1].now);
      Log(table, l.accepted + [ok])
  }

  /** The clock never runs backwards. */
  ghost predicate Ordered(arrivals: seq<Arrival>) {
    forall i, j :: 0 <= i < j < |arrivals| ==> arrivals[i].now <= arrivals[j].now
  }

  /** Two requests that present the same proof. */
  predicate SameProof(p: Proof, q: Proof) {
    p.wallet == q.wallet && p.timestamp == q.timestamp && p.nonce == q.nonce && p.body == q.body
  }

  ghost predicate AcceptedOnce(arrivals: seq<Arrival>, l: Log)
    requires |l.accepted| == |arrivals|
  {
    forall i, j :: 0 <= i < j < |arrivals| && l.accepted[i] && l.accepted[j] ==> !SameProof(arrivals[i].proof, arrivals[j].proof)
  }

  // ---- which proofs are accepted -----------------------------------------------------------------------

  /** Signed, with a nonce of 1 to 128 characters, and within the skew on the millisecond clock. */
  predicate Genuine(a: Arrival, skewMs: int) {
    && a.proof.verifies && 1 <= |a.proof.nonce| <= 128
    && a.proof.timestamp - skewMs <= a.now / 1_000_000 <= a.proof.timestamp + skewMs
  }

  /** Request `j` was accepted, and no genuine request since came after the end of its lifetime. */
  ghost predicate StillReserves(arrivals: seq<Arrival>, accepted: seq<bool>, skewMs: int, ttlNs: int, j: int, n: int)
    requires n <= |arrivals| == |accepted|
  {
    && 0 <= j < n && accepted[j]
    && forall k :: j < k < n && Genuine(arrivals[k], skewMs) ==> arrivals[k].now <= arrivals[j].now + ttlNs
  }

  predicate SameNonce(p: Proof, q: Proof) {
    p.wallet == q.wallet && p.nonce == q.nonce
  }

  /** The table holds exactly what the acceptances that still count reserved. */
  ghost predicate Reserves(arrivals: seq<Arrival>, l: Log, skewMs: int, ttlNs: int)
    requires |l.accepted| == |arrivals|
  {
    && (forall j :: StillReserves(arrivals, l.accepted, skewMs, ttlNs, j, |arrivals|) ==> (
          var key := (arrivals[j].proof.wallet, arrivals[j].proof.nonce);
          key in l.table && l.table[key] == arrivals[j].now + ttlNs))
    && (forall key :: key in l.table ==> exists j ::
          0 <= j < |arrivals| && StillReserves(arrivals, l.accepted, skewMs, ttlNs, j, |arrivals|)
          && (arrivals[j].proof.wallet, arrivals[j].proof.nonce) == key)
  }

  /** What one request does to the table. */
  lemma OneRequest(table: Reserved, a: Arrival, skewMs: int, ttlNs: int)
    ensures var (table', ok) := AuthSpec(table, a.proof, skewMs, ttlNs, a.now);
      var mine := (a.proof.wallet, a.proof.nonce);
      && (ok <==> Genuine(a, skewMs) && !(mine in table && a.now <= table[mine]))
      && (forall key :: key in table' <==> (key in table && (Genuine(a, skewMs) ==> a.now <= table[key])) || (ok && key == mine))
      && (forall key :: key in table' ==> table'[key] == if ok && key == mine then a.now + ttlNs else table[key])
  {
  }

  /** Later requests do not change what the earlier ones say. */
  lemma EarlierReservations(run: seq<Arrival>, accepted: seq<bool>, init: seq<Arrival>, before: seq<bool>, skewMs: int, ttlNs: int, j: int, n: int)
    requires n <= |init| == |before| && |run| == |accepted| && init <= run && before <= accepted
    ensures StillReserves(run, accepted, skewMs, ttlNs, j, n) <==> StillReserves(init, before, skewMs, ttlNs, j, n)
    ensures StillReserves(run, accepted, skewMs, ttlNs, j, n) ==> 0 <= j < n && accepted[j]
  {
    hide Genuine;
    assert forall k :: 0 <= k < |init| ==> run[k] == init[k] && accepted[k] == before[k];
  }

  lemma ReservesOneLonger(run: seq<Arrival>, accepted: seq<bool>, skewMs: int, ttlNs: int, j: int, n: int)
    requires 0 <= n < |run| == |accepted|
    ensures StillReserves(run, accepted, skewMs, ttlNs, j, n + 1) <==>
      if j == n then accepted[n]
      else StillReserves(run, accepted, skewMs, ttlNs, j, n) && (Genuine(run[n], skewMs) ==> run[n].now <= run[j].now + ttlNs)
  {
    hide Genuine;
  }

  lemma NextAnswer(init: seq<Arrival>, a: Arrival, skewMs: int, ttlNs: int)
    requires Reserves(init, Serve(init, skewMs, ttlNs), skewMs, ttlNs)
    ensures var run, l := init + [a], Serve(init + [a], skewMs, ttlNs);
      && Serve(init, skewMs, ttlNs).accepted <= l.accepted
      && (l.table, l.accepted[|init|]) == AuthSpec(Serve(init, skewMs, ttlNs).table, a.proof, skewMs, ttlNs, a.now)
      && (l.accepted[|init|] <==> Genuine(a, skewMs) && !exists j :: (
            StillReserves(run, l.accepted, skewMs, ttlNs, j, |init|) && SameNonce(run[j].proof, a.proof)
            && a.now <= run[j].now + ttlNs))
  {
    hide Genuine, StillReserves, AuthSpec;
    var run, n := init + [a], |init|;
    assert run[..n] == init && run[n] == a;
    var l0, l := Serve(init, skewMs, ttlNs), Serve(run, skewMs, ttlNs);
    OneRequest(l0.table, a, skewMs, ttlNs);
    forall j: int
      ensures StillReserves(run, l.accepted, skewMs, ttlNs, j, n) <==> StillReserves(init, l0.accepted, skewMs, ttlNs, j, n)
      ensures StillReserves(run, l.accepted, skewMs, ttlNs, j, n) ==> 0 <= j < n
    {
      EarlierReservations(run, l.accepted, init, l0.accepted, skewMs, ttlNs, j, n);
    }
    assert forall j :: 0 <= j < n ==> run[j] == init[j];
  }

  lemma NextTable(init: seq<Arrival>, a: Arrival, skewMs: int, ttlNs: int)
    requires Reserves(init, Serve(init, skewMs, ttlNs), skewMs, ttlNs)
    ensures Reserves(init + [a], Serve(init + [a], skewMs, ttlNs), skewMs, ttlNs)
  {
    hide Genuine, StillReserves, AuthSpec, Serve;
    var run, n := init + [a], |init|;
    var l0, l := Serve(init, skewMs, ttlNs), Serve(run, skewMs, ttlNs);
    NextAnswer(init, a, skewMs, ttlNs);
    OneRequest(l0.table, a, skewMs, ttlNs);
    forall j: int
      ensures StillReserves(run, l.accepted, skewMs, ttlNs, j, n) <==> StillReserves(init, l0.accepted, skewMs, ttlNs, j, n)
      ensures StillReserves(run, l.accepted, skewMs, ttlNs, j, n) ==> 0 <= j < n
      ensures StillReserves(run, l.accepted, skewMs, ttlNs, j, n + 1) <==>
        if j == n then l.accepted[n]
        else StillReserves(run, l.accepted, skewMs, ttlNs, j, n) && (Genuine(a, skewMs) ==> a.now <= run[j].now + ttlNs)
    {
      EarlierReservations(run, l.accepted, init, l0.accepted, skewMs, ttlNs, j, n);
      ReservesOneLonger(run, l.accepted, skewMs, ttlNs, j, n);
    }
    assert forall j :: 0 <= j < n ==> run[j] == init[j];
    forall key | key in l.table
      ensures exists j :: 0 <= j < |run| && StillReserves(run, l.accepted, skewMs, ttlNs, j, n + 1) && (run[j].proof.wallet, run[j].proof.nonce) == key
    {
      if l.accepted[n] && key == (a.proof.wallet, a.proof.nonce) {
        ReservesOneLonger(run, l.accepted, skewMs, ttlNs, n, n);
        assert run[n] == a;
      } else {
        var j :| 0 <= j < n && StillReserves(init, l0.accepted, skewMs, ttlNs, j, n) && (init[j].proof.wallet, init[j].proof.nonce) == key;
        assert l0.table[(init[j].proof.wallet, init[j].proof.nonce)] == init[j].now + ttlNs;
        assert Genuine(a, skewMs) ==> a.now <= l0.table[key];
        assert run[j] == init[j] && StillReserves(run, l.accepted, skewMs, ttlNs, j, n);
        ReservesOneLonger(run, l.accepted, skewMs, ttlNs, j, n);
      }
    }
  }

  /** For any clock, forward or backward, any lifetime and any skew: what is accepted is exactly a genuine
      proof whose nonce no earlier acceptance still reserves. */
  lemma {:induction false} AcceptedIff(arrivals: seq<Arrival>, skewMs: int, ttlNs: int, i: int)
    requires 0 <= i < |arrivals|
    ensures var accepted := Serve(arrivals, skewMs, ttlNs).accepted;
      accepted[i] <==> Genuine(arrivals[i], skewMs) && !exists j :: (
        StillReserves(arrivals, accepted, skewMs, ttlNs, j, i) && SameNonce(arrivals[j].proof, arrivals[i].proof)
        && arrivals[i].now <= arrivals[j].now + ttlNs)
    decreases |arrivals|
  {
    hide Genuine, StillReserves, AuthSpec, Serve, Reserves;
    var n := |arrivals| - 1;
    var init := arrivals[..n];
    assert init + [arrivals[n]] == arrivals;
    ServedTableReserves(init, skewMs, ttlNs);
    NextAnswer(init, arrivals[n], skewMs, ttlNs);
    if i < n {
      AcceptedIff(init, skewMs, ttlNs, i);
      var accepted, before := Serve(arrivals, skewMs, ttlNs).accepted, Serve(init, skewMs, ttlNs).accepted;
      forall j: int
        ensures StillReserves(arrivals, accepted, skewMs, ttlNs, j, i) <==> StillReserves(init, before, skewMs, ttlNs, j, i)
        ensures StillReserves(arrivals, accepted, skewMs, ttlNs, j, i) ==> 0 <= j < i
      {
        EarlierReservations(arrivals, accepted, init, before, skewMs, ttlNs, j, i);
      }
      assert forall j :: 0 <= j <= i ==> arrivals[j] == init[j];
    }
  }

  lemma {:induction false} ServedTableReserves(arrivals: seq<Arrival>, skewMs: int, ttlNs: int)
    ensures Reserves(arrivals, Serve(arrivals, skewMs, ttlNs), skewMs, ttlNs)
  {
    if arrivals != [] {
      var n := |arrivals| - 1;
      ServedTableReserves(arrivals[..n], skewMs, ttlNs);
      NextTable(arrivals[..n], arrivals[n], skewMs, ttlNs);
      assert arrivals[..n] + [arrivals[n]] == arrivals;
    }
  }

  /** The shipped server under a clock that does not run backwards, with every number written out. */
  lemma ShippedAcceptance(arrivals: seq<Arrival>, i: int)
    requires Ordered(arrivals) && 0 <= i < |arrivals|
    ensures var accepted := Serve(arrivals, MAX_CLOCK_SKEW_MS, NONCE_TTL_SECONDS * NS_PER_SECOND).accepted;
      var p, now := arrivals[i].proof, arrivals[i].now;
      accepted[i] <==>
        && p.verifies && 0 < |p.nonce| <= 128 && -300_000 <= now / 1_000_000 - p.timestamp <= 300_000
        && forall j :: 0 <= j < i && accepted[j] && SameNonce(arrivals[j].proof, p) ==> now > arrivals[j].now + 600_000_000_000
  {
    var ttl := NONCE_TTL_SECONDS * NS_PER_SECOND;
    AcceptedIff(arrivals, MAX_CLOCK_SKEW_MS, ttl, i);
    var accepted := Serve(arrivals, MAX_CLOCK_SKEW_MS, ttl).accepted;
    forall j | 0 <= j < i && accepted[j] && arrivals[i].now <= arrivals[j].now + ttl
      ensures StillReserves(arrivals, accepted, MAX_CLOCK_SKEW_MS, ttl, j, i)
    {
      assert forall k :: j < k < i ==> arrivals[k].now <= arrivals[i].now;
    }
  }

  /** The longest time between two readings of the clock inside one proof's window. */
  function WindowLength(skewMs: int): int {
    2 * skewMs * NS_PER_MS + (NS_PER_MS - 1)
  }

  lemma WindowIsThatLong(skewMs: int, timestamp: int, x: int, y: int)
    requires InWindow(skewMs, timestamp, x) && InWindow(skewMs, timestamp, y)
    ensures y - x <= WindowLength(skewMs)
  {
  }

  /** Every acceptance is still reserved, until its own lifetime has passed. */
  lemma {:induction false} AcceptancesStayReserved(arrivals: seq<Arrival>, skewMs: int, ttlNs: int)
    requires Ordered(arrivals)
    ensures var l := Serve(arrivals, skewMs, ttlNs);
      forall i :: 0 <= i < |arrivals| && l.accepted[i] && arrivals[|arrivals| - 1].now <= arrivals[i].now + ttlNs ==> (
        var key := (arrivals[i].proof.wallet, arrivals[i].proof.nonce);
        && key in l.table && l.table[key] >= arrivals[i].now + ttlNs
        && InWindow(skewMs, arrivals[i].proof.timestamp, arrivals[i].now))
  {
    if arrivals != [] {
      var n := |arrivals| - 1;
      var init := arrivals[..n];
      AcceptancesStayReserved(init, skewMs, ttlNs);
      var l, l' := Serve(init, skewMs, ttlNs), Serve(arrivals, skewMs, ttlNs);
      forall i | 0 <= i < |arrivals| && l'.accepted[i] && arrivals[n].now <= arrivals[i].now + ttlNs
        ensures var key := (arrivals[i].proof.wallet, arrivals[i].proof.nonce);
          key in l'.table && l'.table[key] >= arrivals[i].now + ttlNs && InWindow(skewMs, arrivals[i].proof.timestamp, arrivals[i].now)
      {
        if i < n {
          assert l.accepted[i] && init[n - 1].now <= arrivals[n].now;
        }
      }
    }
  }

  /** A lifetime as long as the window makes every proof one-use, over every run. */
  lemma {:induction false} LongLifetimeSuffices(arrivals: seq<Arrival>, skewMs: int, ttlNs: int)
    requires Ordered(arrivals) && ttlNs >= WindowLength(skewMs)
    ensures AcceptedOnce(arrivals, Serve(arrivals, skewMs, ttlNs))
  {
    if arrivals != [] {
      var n := |arrivals| - 1;
      var init := arrivals[..n];
      LongLifetimeSuffices(init, skewMs, ttlNs);
      var l, l' := Serve(init, skewMs, ttlNs), Serve(arrivals, skewMs, ttlNs);
      forall i, j | 0 <= i < j < |arrivals| && l'.accepted[i] && l'.accepted[j]
        ensures !SameProof(arrivals[i].proof, arrivals[j].proof)
      {
        if j < n {
          assert l.accepted[i] && l.accepted[j] && init[i] == arrivals[i] && init[j] == arrivals[j];
        } else if SameProof(arrivals[i].proof, arrivals[n].proof) {
          ReplayIsRefused(arrivals, skewMs, ttlNs, i);
        }
      }
    }
  }

  lemma ReplayIsRefused(arrivals: seq<Arrival>, skewMs: int, ttlNs: int, i: int)
    requires Ordered(arrivals) && ttlNs >= WindowLength(skewMs) && 0 <= i < |arrivals| - 1
    requires Serve(arrivals, skewMs, ttlNs).accepted[i] && SameProof(arrivals[i].proof, arrivals[|arrivals| - 1].proof)
    ensures !Serve(arrivals, skewMs, ttlNs).accepted[|arrivals| - 1]
  {
    var n := |arrivals| - 1;
    var init := arrivals[..n];
    var l := Serve(init, skewMs, ttlNs);
    assert l.accepted[i] && init[i] == arrivals[i];
    if InWindow(skewMs, arrivals[n].proof.timestamp, arrivals[n].now) {
      AcceptedInWindow(init, skewMs, ttlNs, i);
      WindowIsThatLong(skewMs, arrivals[i].proof.timestamp, arrivals[i].now, arrivals[n].now);
      assert init[n - 1].now <= arrivals[n].now;
      AcceptancesStayReserved(init, skewMs, ttlNs);
    }
  }

  lemma {:induction false} AcceptedInWindow(arrivals: seq<Arrival>, skewMs: int, ttlNs: int, i: int)
    requires 0 <= i < |arrivals| && Serve(arrivals, skewMs, ttlNs).accepted[i]
    ensures InWindow(skewMs, arrivals[i].proof.timestamp, arrivals[i].now)
    decreases |arrivals|
  {
    if i < |arrivals| - 1 {
      AcceptedInWindow(arrivals[..|arrivals| - 1], skewMs, ttlNs, i);
    }
  }

  /** The two ends of a proof's window. */
  function Replay(p: Proof, skewMs: int): seq<Arrival> {
    var first := (p.timestamp - skewMs) * NS_PER_MS;
    [Arrival(p, first), Arrival(p, first + WindowLength(skewMs))]
  }

  lemma EndsAreInWindow(timestamp: int, skewMs: int)
    requires 0 <= skewMs
    ensures InWindow(skewMs, timestamp, (timestamp - skewMs) * NS_PER_MS)
    ensures InWindow(skewMs, timestamp, (timestamp - skewMs) * NS_PER_MS + WindowLength(skewMs))
  {
  }

  /** A shorter one does not: the same proof is accepted at both ends of its window. */
  lemma ShortLifetimeFails(p: Proof, skewMs: int, ttlNs: int)
    requires 0 <= skewMs && 0 <= ttlNs < WindowLength(skewMs) && WellFormed(p) && p.verifies
    ensures Ordered(Replay(p, skewMs)) && !AcceptedOnce(Replay(p, skewMs), Serve(Replay(p, skewMs), skewMs, ttlNs))
  {
    var run := Replay(p, skewMs);
    EndsAreInWindow(p.timestamp, skewMs);
    assert run[..1] == [run[0]] && run[..1][..0] == [];
    var l0 := Serve(run[..1][..0], skewMs, ttlNs);
    assert Kept(l0.table, run[0].now) == map[];
    var l1 := Serve(run[..1], skewMs, ttlNs);
    assert l1.table == map[(p.wallet, p.nonce) := run[0].now + ttlNs] && l1.accepted == [true];
    assert (p.wallet, p.nonce) !in Kept(l1.table, run[1].now);
    var l := Serve(run, skewMs, ttlNs);
    assert l.accepted == [true, true];
    assert SameProof(run[0].proof, run[1].proof);
  }

  /** The lifetime that makes device proofs one-use over all runs, exactly. */
  lemma OneUseIffLifetimeCoversWindow(skewMs: int, ttlNs: int)
    requires 0 <= skewMs && 0 <= ttlNs
    ensures (forall arrivals :: Ordered(arrivals) ==> AcceptedOnce(arrivals, Serve(arrivals, skewMs, ttlNs)))
            <==> ttlNs >= WindowLength(skewMs)
  {
    if ttlNs >= WindowLength(skewMs) {
      forall arrivals | Ordered(arrivals) ensures AcceptedOnce(arrivals, Serve(arrivals, skewMs, ttlNs)) {
        LongLifetimeSuffices(arrivals, skewMs, ttlNs);
      }
    } else {
      var p := Proof([], 0, "n", "", true);
      ShortLifetimeFails(p, skewMs, ttlNs);
    }
  }

  /** The lifetime of 600 s is twice the skew of 300 s, and yet 999 999 ns short of the window, because
      the skew check rounds the clock down to milliseconds. */
  lemma ShippedLifetimeIsShort()
    ensures NONCE_TTL_SECONDS * NS_PER_SECOND == 2 * MAX_CLOCK_SKEW_MS * NS_PER_MS == WindowLength(MAX_CLOCK_SKEW_MS) - 999_999
    ensures exists arrivals ::
      Ordered(arrivals) && !AcceptedOnce(arrivals, Serve(arrivals, MAX_CLOCK_SKEW_MS, NONCE_TTL_SECONDS * NS_PER_SECOND))
  {
    OneUseIffLifetimeCoversWindow(MAX_CLOCK_SKEW_MS, NONCE_TTL_SECONDS * NS_PER_SECOND);
  }

  /** With the shipped constants, a proof can only be accepted again when the first time was in the
      first millisecond of its window and the second time in the last. */
  lemma {:induction false} ShippedReplaysSpanTheWindow(arrivals: seq<Arrival>, i: int, j: int)
    requires Ordered(arrivals) && 0 <= i < j < |arrivals| && SameProof(arrivals[i].proof, arrivals[j].proof)
    requires var l := Serve(arrivals, MAX_CLOCK_SKEW_MS, NONCE_TTL_SECONDS * NS_PER_SECOND); l.accepted[i] && l.accepted[j]
    ensures arrivals[i].now / NS_PER_MS == arrivals[i].proof.timestamp - MAX_CLOCK_SKEW_MS
    ensures arrivals[j].now / NS_PER_MS == arrivals[i].proof.timestamp + MAX_CLOCK_SKEW_MS
    decreases |arrivals|
  {
    var ttl := NONCE_TTL_SECONDS * NS_PER_SECOND;
    var n := |arrivals| - 1;
    var init := arrivals[..n];
    if j < n {
      ShippedReplaysSpanTheWindow(init, i, j);
    } else {
      AcceptedInWindow(arrivals, MAX_CLOCK_SKEW_MS, ttl, i);
      AcceptedInWindow(arrivals, MAX_CLOCK_SKEW_MS, ttl, j);
      AcceptancesStayReserved(init, MAX_CLOCK_SKEW_MS, ttl);
      var l := Serve(init, MAX_CLOCK_SKEW_MS, ttl);
      assert l.accepted[i] && init[i] == arrivals[i] && init[n - 1].now <= arrivals[n].now;
      assert arrivals[n].now > arrivals[i].now + ttl;
    }
  }
}
