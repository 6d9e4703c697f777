# A verified model of the MPC wallet

This project models the core of a two-of-three threshold wallet and proves properties of it. A wallet is a
secret on a line over a prime field. The extension holds share A, the user keeps share B as a recovery file,
and the server holds share C; every renewal moves all three to another line of the same secret, an epoch. Four
parts share that picture.

* **Secret sharing** (`Modular`, `Shamir`, `Backend`, `Renewal`). Exact statements over the integers modulo any
  prime above 255, which the order of secp256k1 (section 2.4.1 of SEC 2, version 2.0) is. The nested loops of a
  reconstruction are proved against Lagrange interpolation of any degree.
* **Round engine** (`Wire`, `Upstream`, `Dkg`, `Drive`, `Honest`, `Ceremony`, `Runner`, `Sign`, `Signing`). Parties
  as objects that change step by step, the loops that drive them, what honest runs do, and the message-passing
  drivers as refinements of the one-process harness.
* **Server** (`Digests`, `RecoveryStore`, `RecoveryRuns`, `Auth`, `ReshareStore`). Tables and transactions with
  rollback, and safety over whole runs: where a device key and a live share come from, one-use grants and device
  proofs, the request limiter.
* **Across extension and server** (`ReshareFlow`, `DeviceSlots`, `Onboarding`). State machines in which a worker
  may die, a reply may be lost and an abort may race a commit at every await or durable write.

`Prelude` and `Keys` hold the shared types. Each class carries the fields its source updates; its methods are
proved equal to a specification function, which only links the model to the source. What such a function does is
stated apart from it, in terms of rows, messages, shares or the history of a run; those lemmas, the ones about whole
runs, and the methods with loops are the results. Check the project with
`dafny verify dfyconfig.toml`.

## Where the code and its words differ

Each of these is stated as an exact condition by the member named.

* A device proof is meant to be one-use because its nonce lives 600 s, twice the skew. The skew check rounds the
  clock down to milliseconds and the nonce table does not, so the lifetime is 999 999 ns too short
  (`Auth.OneUseIffLifetimeCoversWindow`, `Auth.ShippedLifetimeIsShort`).
* `docs/protocol.md:74` says that messages out of round order abort the session and leave no partial state. A bad
  header changes nothing at all, in memory (`Drive.AdvanceMovesOneRound`); on the server only a reshare session is
  dropped. A signing round that fails leaves the stored session as it was, so a kept value is spent again by a
  retry (`Sign.ServerSpendsOnceIffClientStops`).
* `finishRecovery` is called safe to retry (`packages/extension/entrypoints/background.ts:314`). With no vault
  written yet a retry stores one exactly when the pending slot still holds the key
  (`DeviceSlots.FinishStoresIffKeyIsPending`, `DeviceSlots.TriesStoreIffKeyIsPending`); stopped between emptying
  that slot and writing the vault it never does (`DeviceSlots.RetryWorksExceptBeforeVault`).
* The device key of a recovered wallet can be lost without an abandon: a new wallet may be made while a recovery is
  unfinished, and its confirmation overwrites the active slot without asking what it holds or whether there is a
  vault by then (`DeviceSlots.KeyLeavesSlotsIff`, `DeviceSlots.SwappedKeyIsKept`, `DeviceSlots.NewWalletCanLoseTheKey`).
* Cancelling a reshare is said to keep the current shares valid (`packages/extension/entrypoints/background.ts:819`).
  After a commit whose reply was lost it does not (`ReshareFlow.CancelAfterLostReply`).
* Confirming a reshare is said to be repeatable (`packages/extension/entrypoints/background.ts:793-795`). That holds
  once the reply to the commit came back; if it was lost, the repeated commit is refused and the vault is never
  written (`ReshareFlow.ConfirmationStoredIffReplied`).
* A reshare session is inserted under its id or only has its state replaced, whoever asks. Two wallets with one id
  therefore mix (`ReshareStore.SharedIdMixesWallets`); without shared ids shares fit (`ReshareStore.SharesFitTheKey`).
* Confirming a new wallet cannot be repeated once the server has registered its device key
  (`Onboarding.ConfirmationIsNotRetryable`).
* The central reshare is said to preserve the public key (`crates/mpc-core/src/backend.rs:488`). It does if and
  only if the shares are of one epoch (`Renewal.ResplitOfMixedEpochs`); old shares stop working after a refresh if
  and only if the slopes do not cancel out (`Renewal.OldSharesStopIff`).

## Assumptions

* A public key names its scalar: distinct scalars have distinct keys, and the point at infinity has none. A hash is
  an injective constructor on byte strings.
* The upstream DKLs23 phases of key generation are contracts (`Upstream`): phase 2 sums the fragments, phase 4
  accepts when every peer's messages of this session are there and the three points lie on one polynomial by two
  overlapping reconstructions, and settles on the key of the interpolated secret. The search for a party's
  multiplication messages by peer is part of that contract, and a body of one type read as another counts as not
  decoding. A refresh accepts when the three corrections lie on one polynomial with value zero at zero. Signing
  phases may answer anything at all, except where two honest parties are assumed.
* Random slopes, session ids and challenges are parameters, and every statement holds for all of them. Sealing and
  opening stored state is the identity.
* Times are integers. Where the tables hold RFC 3339 text, the order of texts is taken to be the order of times.
* A step is one store transaction in `RecoveryRuns`, one handler in `ReshareStore`, `Sign` and `Auth`, and the code
  between two awaits in `ReshareFlow`. In `RecoveryRuns` a status call reads its request and consumes the grant in
  one step, whatever the request's status is by then; that only adds behaviour.
* In `ReshareFlow` the user confirms only after saving the new file and keeps saved files until the flow ends;
  `ReshareFlow.ConfirmingBeforeSavingCanLose` shows that the first is needed. Requests may arrive late, never or
  after the worker has died.
* In `DeviceSlots` calls run one after another, a key just generated is not one generated before, a request whose
  ceremony tab never opened is never approved, and a request the server reports as ended stays ended.

## Model

| member | source | states |
|---|---|---|
| Shamir.LagrangeAtZero | crates/mpc-core/src/backend.rs:394-411 | For every prime order above 255, every list of n distinct nodes and every polynomial with at most n coefficients, the Lagrange weights at zero blend its values into its constant term. |
| Shamir.InterpolationRecovers | crates/mpc-core/src/backend.rs:394-414 | Distinct shares of a polynomial with no more coefficients than there are shares interpolate to its constant term, whatever the subset and the order. |
| Shamir.EveryShareMatters | crates/mpc-core/src/backend.rs:394-411 | Replacing one share's point keeps the interpolated value if and only if the point was not really replaced. |
| Shamir.MixedEpochs | crates/mpc-core/src/backend.rs:394-411 | A share of one line and a share of another with the same secret interpolate to that secret if and only if the slopes are congruent. |
| Backend.Coefficient | crates/mpc-core/src/backend.rs:397-406 | The inner loop computes the numerator and denominator of one node's weight, skipping only the node itself. |
| Backend.WeightedSum | crates/mpc-core/src/backend.rs:394-413 | The nested loops give the interpolated value and never reach the "not invertible" error for distinct indices. |
| Backend.RepetitionShrinks | crates/mpc-core/src/backend.rs:386-392 | Sorting and removing duplicates shortens the list of indices if and only if a party occurs twice. |
| Backend.Reconstruct | crates/mpc-core/src/backend.rs:370-414 | The whole of `reconstruct`: the checks in their order, then the interpolated secret; it succeeds if and only if there are two or more shares, all decode and no index repeats. |
| Backend.ReconstructsIff | crates/mpc-core/src/backend.rs:370-414 | For every list, told by the shares alone: when it reconstructs, to what, and otherwise which error comes first. |
| Backend.ReconstructionIsTheSecret | crates/mpc-core/src/backend.rs:363-414 | Distinct shares of a line (or of a polynomial of matching degree) reconstruct its constant term if and only if there are at least two. |
| Backend.ExportPrivateKeyFor | crates/mpc-core/src/backend.rs:462-476 | The reconstructed scalar is handed out only when its public key is the wallet's. |
| Backend.ExportsIff | crates/mpc-core/src/backend.rs:462-476 | A scalar is handed out if and only if the list reconstructs to it, it is not zero, and its key is the wallet's; which error it is otherwise. |
| Backend.ExportOfMixedEpochs | crates/mpc-core/src/backend.rs:462-476 | A pair of shares from two epochs exports the key if and only if the epochs are the same line; otherwise the public-key check refuses it. |
| Backend.ExportRejectsOneChangedShare | crates/mpc-core/src/backend.rs:462-476 | Once a list of shares exports the key, really changing one point of it makes the export fail at the public-key check. |
| Upstream.LinePasses | docs/adr/0007-distributed-reshare.md:23-25 | Three points of one line pass the two overlapping reconstructions, which give the line's constant. |
| Dkg.DkgParty.StartWith | crates/mpc-core/src/protocol.rs:266-304 | Opening a session keeps the party's own fragment and sends every other one to exactly its party. |
| Dkg.DkgParty.Advance | crates/mpc-core/src/protocol.rs:314-338 | One call: the header checks in order, then the round the party is in; new state and answer, errors included. |
| Dkg.StrayEnvelopesChangeNothing | crates/mpc-core/src/protocol.rs:314-338 | For every inbox: one envelope of another round or for another party anywhere, and nothing changes and the first of them is reported; with none, no such error comes. |
| Dkg.Round1SucceedsIff | crates/mpc-core/src/protocol.rs:352-385 | Round 1 goes through if and only if no envelope is stray, every body is a fragment, and exactly three parties' fragments are there. |
| Dkg.LastFragmentsCount | crates/mpc-core/src/protocol.rs:352-355 | Of two fragments from one sender the later counts, and one held before only if its sender is silent. |
| Dkg.Round2SucceedsIff | crates/mpc-core/src/protocol.rs:387-435 | Round 2 goes through if and only if no envelope is stray, every body is in its place from a party with an index, and round 1 left its part. |
| Dkg.LastRoundSucceedsOnlyIf | crates/mpc-core/src/protocol.rs:437-497 | A last round that goes through had every body in place and all three proofs; its share is the party's own, with its own point, under the key it names, which is the one asked for. A missing proof is reported as that. |
| Dkg.DkgParty.AdvanceToRound2 | crates/mpc-core/src/protocol.rs:352-385 | Fragments are filed by sender before they are counted, summed in party order, and the party proves its point. |
| Dkg.DkgParty.AdvanceToRound3 | crates/mpc-core/src/protocol.rs:387-435 | Broadcasts are filed by sender, private messages in order of arrival, up to the first that does not decode. |
| Dkg.DkgParty.AdvanceToRound4 | crates/mpc-core/src/protocol.rs:437-497 | All proofs must be there; the upstream verdict is taken; a reshare whose key is not the expected one is refused. |
| Drive.AdvanceMovesOneRound | crates/mpc-core/src/protocol.rs:314-338 | Every accepted call moves the round by exactly one, only the call that ends round 3 finishes, a refused one stays; a bad header leaves no trace. |
| Drive.PassRaisesEveryRound | crates/mpc-core/src/protocol.rs:550-582 | An error-free pass raises the round of every party, and counts as finished those that were in round 3. |
| Drive.OnePass | crates/mpc-core/src/protocol.rs:550-582 | The loop body advances every party once, in order, with what the flight holds for it. |
| Drive.DriveLocally | crates/mpc-core/src/protocol.rs:543-590 | The unbounded loop terminates on every input and returns what the recursive definition of the run says. |
| Drive.RunIsLockStep | crates/mpc-core/src/protocol.rs:543-590 | For every input: at most four passes; a run that succeeds had all parties in the same round from the start and collected one share from each. |
| Drive.SharesAgreeOnTheKey | crates/mpc-core/src/protocol.rs:562-589 | For any parties and messages: the shares of a run that succeeds all lie under the one key it reports. |
| Honest.Transpose | crates/mpc-core/src/backend.rs:96-103 | The harness's loops build, for every slot, the column of what each row holds for it. |
| Honest.FragmentsAreTheColumn | crates/mpc-core/src/protocol.rs:352-367 | For any delivery order of the honest round 1 envelopes, repetitions included, a party feeds phase 2 exactly the column the harness builds. |
| Wire.InboxFor | packages/extension/src/protocolRunner.ts:27-29 | An envelope is in the inbox exactly if it is in the flight, for everyone or for me, and not mine. |
| Wire.InboxCounts | packages/extension/src/protocolRunner.ts:27-29 | Every envelope that arrives arrives as often as it was sent. |
| Wire.InboxConcat | packages/extension/src/protocolRunner.ts:27-29 | The inbox keeps the order of the flight: that of two flights in a row is one inbox and then the other. |
| Honest.Flight1Delivers | crates/mpc-core/src/protocol.rs:554-560 | The first flight delivers every fragment to exactly its party, in whatever order it is put. |
| Honest.LaterInboxes | crates/mpc-core/src/protocol.rs:554-560 | In rounds 2 and 3 every party gets exactly the broadcast and its own private message of each peer. |
| Honest.HonestRound2 | crates/mpc-core/src/protocol.rs:352-385 | An honest party's state and messages after round 1, for any delivery of the fragments. |
| Honest.HonestRound3 | crates/mpc-core/src/protocol.rs:387-435 | An honest party's state and messages after round 2; every inbox passes the header checks. |
| Honest.HonestRound4 | crates/mpc-core/src/protocol.rs:437-497 | An honest party's last answer, decided by the three summed points alone. |
| Honest.HonestRun | crates/mpc-core/src/protocol.rs:543-590 | Three honest parties take exactly three passes, for any delivery order of the first flight, and end with one share for each of parties 0, 1 and 2 or with the same refusal. |
| Ceremony.LinesSum | docs/adr/0007-distributed-reshare.md:50-55 | Rows that are lines sum to three points of one line whose constant is the sum of the constants. |
| Ceremony.DriveRows | crates/mpc-core/src/protocol.rs:543-590 | Three parties opened with any rows and driven in one process end as the honest outcome of those rows says. |
| Ceremony.RunLocally | crates/mpc-core/src/protocol.rs:503-513 | Key generation in one process gives three shares of the summed line and its key; it fails only when the constants sum to zero. |
| Ceremony.AnyTwoSharesExport | crates/mpc-core/src/backend.rs:462-476 | Any two shares of one line export its secret under its key. |
| Ceremony.PairWeights | crates/mpc-core/src/protocol.rs:174-194 | Over two nodes the general coefficient is the formula the survivors use. |
| Ceremony.WeightedSharesInterpolate | crates/mpc-core/src/protocol.rs:174-194 | The survivors' weights exist for every pair in either order, and the weighted shares sum to what the two points interpolate to. |
| Ceremony.ReshareRowsAreLines | crates/mpc-core/src/protocol.rs:198-224 | The rows of two survivors and a zero row are lines that sum to one line with the interpolated secret and the summed slopes. |
| Ceremony.ReshareLocally | crates/mpc-core/src/protocol.rs:519-540 | For any two shares whatever, decodable or not, of any parties, and all slopes: accepted exactly when both start and their points interpolate to the secret behind the expected key, and which error it is otherwise. |
| Ceremony.SurvivorRowIff | crates/mpc-core/src/protocol.rs:174-224 | A survivor's row exists if and only if the share is its own, decodes to its index, and it is one of two different parties of the three. |
| Ceremony.LocalReshareSucceedsIff | crates/mpc-core/src/protocol.rs:519-540 | It succeeds if and only if the shares belong to two different parties of the three, decode to their indices, and interpolate to the secret behind the expected key. |
| Ceremony.ReshareSessionOutcome | crates/mpc-core/src/protocol.rs:483-496 | A session whose rows are the reshare roles ends as the two survivor points decide. |
| Ceremony.ReshareKeepsTheKey | crates/mpc-core/src/protocol.rs:252-264 | Survivors of one line: the reshare succeeds, the key is the same, and each two of the new shares export it. |
| Ceremony.ReshareRefusesMixedEpochs | crates/mpc-core/src/protocol.rs:483-490 | Survivors of two epochs: accepted if and only if the epochs are the same line. |
| Renewal.Refresh | crates/mpc-core/src/backend.rs:253-322 | A refresh in one process: rows with zero constant, transposed, summed, accepted or refused by the last phase, and added to the shares; all errors included. |
| Renewal.RefreshRefusals | crates/mpc-core/src/backend.rs:253-322 | When a refresh is refused for the number of shares or one that does not decode; an accepted one keeps every index and the key scalar. |
| Renewal.RefreshKeepsTheKey | crates/mpc-core/src/backend.rs:248-252 | An accepted refresh moves all shares to another line of the same secret, whatever the slopes and the order of the shares. |
| Renewal.RefreshInOrder | crates/mpc-core/src/backend.rs:253-322 | With the shares in index order a refresh is always accepted, and the new slope is the old plus the parties' three. |
| Renewal.OldSharesStopIff | crates/mpc-core/src/backend.rs:250 | Old and new shares stop working together if and only if the slopes do not cancel out. |
| Renewal.Reshare | crates/mpc-core/src/backend.rs:489-519 | The central reshare reconstructs and splits again, with the errors of both steps. |
| Renewal.ResplitsIff | crates/mpc-core/src/backend.rs:489-519 | For every list: the split goes through if and only if the list reconstructs to a scalar with a key, and is then that scalar's shares under that key. |
| Renewal.ResplitKeepsTheKey | crates/mpc-core/src/backend.rs:476-488 | From two or more shares of one line the key stays, and any two of the new shares export it; from fewer nothing is split. |
| Renewal.ResplitOfMixedEpochs | crates/mpc-core/src/backend.rs:486-489 | From shares of two epochs the wallet's key comes out if and only if they are the same line; otherwise the split goes through under another key. |
| Runner.RunRounds | packages/extension/src/protocolRunner.ts:49-100 | The loop of key generation and of a reshare, with its exits; a failed reshare, and only that, tells the server to let go. |
| Runner.FinishedMeansAgreement | packages/extension/src/protocolRunner.ts:49-100 | For any parties, messages and server: a run that finishes does so under a key that the extension's share lies under, that the server reported, and that is the wanted one if there is one. |
| Runner.ClosedInAgreement | packages/extension/src/protocolRunner.ts:79-93 | When the loop finishes on the server's key, and which error it is otherwise. |
| Runner.EarlyIterationIsAPass | packages/extension/src/protocolRunner.ts:64-97 | In rounds 1 and 2 an iteration is one pass of the harness, error for error and envelope for envelope. |
| Runner.LastIterationIsAPass | packages/extension/src/protocolRunner.ts:64-93 | The last iteration gets the same three answers as the last pass. |
| Runner.MessagePassingRefinesHarness | packages/extension/src/protocolRunner.ts:49-100 | For any parties in one round and any flight, the message-passing run takes as many iterations as the one-process run takes passes, and ends with the same shares and key or with the very error, unless the two local keys disagree; it never meets the round limit, a server that finishes first, or a finished session. |
| Runner.HonestRunsTakeThreeIterations | packages/extension/src/protocolRunner.ts:121-187 | Against an honest server, key generation and reshare end in the third of six iterations: with the two local shares and the key, or with the very refusal all parties give. |
| Runner.ReshareWithServerKeepsTheKey | packages/extension/src/protocolRunner.ts:121-187 | A reshare by B and C with A joining finishes under the wallet's key, and the two shares the extension gets export its secret. |
| Sign.SignParty.Start | crates/mpc-core/src/protocol.rs:650-693 | Opening a signing session, with every refusal in its order. |
| Sign.StartIsFresh | crates/mpc-core/src/protocol.rs:650-693 | When a session opens, and what it then is: its first kept value and nothing else, for a counterparty that is not itself, with one message for each addressee. |
| Sign.SignParty.Advance | crates/mpc-core/src/protocol.rs:713-744 | One call of a signing party: header checks, then the phase of its round; new state, answer, and what was spent. |
| Sign.ForeignEnvelopesSpendNothing | crates/mpc-core/src/protocol.rs:713-744 | For every inbox: one envelope of another round, from anyone but the counterparty or for another party anywhere, and nothing changes, nothing is spent, and the first of them is reported, round before sender before recipient; with none, no such error comes. |
| Sign.PhaseGetsTheMessages | crates/mpc-core/src/protocol.rs:746-827 | A call spends something if and only if every envelope is well-formed, and then the kept value of its round with all the messages in order, in the last phase after the party's own broadcast. |
| Sign.SignParty.AdvanceToRound2 | crates/mpc-core/src/protocol.rs:746-773 | Bodies decode before the kept value is taken; a refusal has spent it. |
| Sign.SignParty.AdvanceToRound3 | crates/mpc-core/src/protocol.rs:775-800 | The same for phase 3; the round moves before the broadcast is encoded. |
| Sign.SignParty.AdvanceToRound4 | crates/mpc-core/src/protocol.rs:802-827 | Broadcasts pile up before the nonce is taken; malformed hex fails after it was spent. |
| Sign.StageIsKept | crates/mpc-core/src/protocol.rs:713-827 | The fields say exactly how far the chain of phases has come, and every call keeps that. |
| Sign.KeptValuesAreSpentOnce | crates/mpc-core/src/protocol.rs:713-827 | For every sequence of calls: rounds only rise 1 to 4, each kept value is spent by at most one phase, and a signature is the work of phases 2, 3 and 4, once each in order, given out once. |
| Sign.NothingAfterARefusal | crates/mpc-core/src/protocol.rs:713-827 | Once a phase has refused, nothing more is spent and every later call is an error. |
| Sign.SignSessions.AdvanceSign | crates/mpc-server/src/api.rs:456-501 | The handler writes the party back only when its round worked, and drops the row when it signed. |
| Sign.RetrySpendsTheSameValue | crates/mpc-server/src/api.rs:456-486 | A round that did not work leaves the row, so the next one that reaches a phase spends the same kept value again. |
| Sign.SpendsIffWellFormed | crates/mpc-server/src/api.rs:456-501 | A request spends a kept value if and only if the row lives, its headers pass and all its bodies decode; it fails in doing so exactly with one of three refusals. |
| Sign.ClientTellsUses | crates/mpc-server/src/api.rs:439-502 | Over every run, the replies so far tell whether the next request will spend a kept value. |
| Sign.SpentOnceIffStopped | crates/mpc-server/src/api.rs:439-502 | The same over the server's own record: spent once if and only if nothing is spent after a spending round that failed. |
| Sign.ServerSpendsOnceIffClientStops | crates/mpc-server/src/api.rs:439-502 | Over every run of requests, told from requests and replies alone: each kept value is spent at most once if and only if no well-formed request for the row follows a reply that a phase failed, that encoding failed or that the signature was malformed; a signature is given out at most once either way. |
| Signing.SignWithRecoveryFile | packages/extension/src/protocolRunner.ts:239-265 | The offline loop returns the extension's signature in the iteration it finishes. |
| Signing.SignWithServer | packages/extension/src/protocolRunner.ts:192-231 | The everyday loop against the server's stored session. |
| Signing.SignLocally | crates/mpc-core/src/protocol.rs:848-889 | The harness's loop, which compares the two signatures. |
| Signing.OfflineEndsInThree | packages/extension/src/protocolRunner.ts:239-265 | For any messages and any upstream behaviour a signature can only come in the third iteration, and the loop never runs out of rounds. |
| Signing.OnlineEndsInThree | packages/extension/src/protocolRunner.ts:192-231 | The same for the everyday path; the server never produces a signature before the extension. |
| Signing.LocalEndsInThree | crates/mpc-core/src/protocol.rs:848-889 | The same for the harness. |
| Signing.HonestSignStep | crates/mpc-core/src/protocol.rs:650-827 | Each round of an honest party takes in exactly the peer's message of that round; phase 4 gets both broadcasts. |
| Signing.HonestOffline | packages/extension/src/protocolRunner.ts:239-265 | Two honest parties finish offline signing in the third iteration. |
| Signing.HonestOnline | packages/extension/src/protocolRunner.ts:192-231 | So do an extension and an honest server. |
| Signing.HonestLocal | crates/mpc-core/src/protocol.rs:848-889 | The harness signs in the third pass exactly when both parties computed the same signature. |
| Digests.AssertionDigestIsInjective | crates/mpc-server/src/recovery.rs:71-85 | Two recoveries share a digest if and only if wallet, key and request are all the same, for wallet ids of any length. |
| Digests.GrantDigestIsInjective | crates/mpc-server/src/reshare.rs:35-45 | Two reshares share a digest if and only if public key and id are the same. |
| Digests.DigestsAreSeparate | crates/mpc-server/src/reshare.rs:39-45 | No grant for a recovery is a grant for a reshare. |
| RecoveryStore.Store.CreateRecoveryRequest | crates/mpc-server/src/store.rs:583-625 | A request is recorded unless the wallet has too many since an hour ago. |
| RecoveryStore.Store.StartRecoveryCooling | crates/mpc-server/src/store.rs:646-700 | Sweep, conditional update and unique index in one transaction, rolled back on every early return. |
| RecoveryStore.Store.CompleteRecovery | crates/mpc-server/src/store.rs:706-774 | Key swap, own end and the end of every other open request in one transaction, with the two refusals. |
| RecoveryStore.Store.CancelRecovery | crates/mpc-server/src/store.rs:777-801 | An awaiting or cooling request of the wallet is cancelled, nothing else. |
| RecoveryStore.Store.RegisterDeviceKey | crates/mpc-server/src/store.rs:559-577 | A first key is stored; an existing one is never overwritten. |
| RecoveryStore.Store.PutPasskeyChallenge | crates/mpc-server/src/store.rs:150-175 | A challenge is stored once under its id with its binding. |
| RecoveryStore.Store.TakePasskeyChallenge | crates/mpc-server/src/store.rs:308-333 | A live, unused challenge of this wallet and ceremony is claimed once and gives its binding. |
| RecoveryStore.Store.PutPasskeyAuthorization | crates/mpc-server/src/store.rs:503-528 | A grant is stored once per tuple, ever. |
| RecoveryStore.Store.ConsumePasskeyAuthorization | crates/mpc-server/src/store.rs:531-552 | A live grant for exactly this tuple is consumed once. |
| RecoveryStore.Store.LiveRecoveries | crates/mpc-server/src/store.rs:804-817 | Exactly the wallet's unlapsed cooling requests, each once, oldest first. |
| RecoveryStore.StateForetellsAnswers | crates/mpc-server/src/recovery.rs:188-201 | For every row and time: the state reported is `Ready`, `Cooling` or neither exactly when completing would answer done, not ready or gone; awaiting exactly when cooling would not answer that it is not. |
| RecoveryStore.CreationAnswers | crates/mpc-server/src/store.rs:583-625 | A request is recorded if and only if its id is new and the wallet has fewer than the limit from the last hour on. |
| RecoveryStore.CompletionAnswers | crates/mpc-server/src/store.rs:706-774 | When the key is replaced, and what becomes of every row and key then; otherwise nothing changes. |
| RecoveryStore.CancelAnswers | crates/mpc-server/src/store.rs:777-801 | A cancel succeeds if and only if the wallet's request is awaiting or cooling; it cancels that row and touches nothing else. |
| RecoveryStore.StartAnswers | crates/mpc-server/src/store.rs:646-700 | Every answer but `Started` changes nothing; another cooling request is reported if and only if this one is awaiting and unlapsed and a different unlapsed one is cooling. |
| RecoveryStore.StartKeepsOneCooling | crates/mpc-server/migrations/0010_recovery.sql:16-17 | Starting keeps at most one cooling request per wallet. |
| RecoveryStore.StartMovesForward | crates/mpc-server/src/store.rs:646-700 | Starting moves statuses only forward. |
| RecoveryStore.CompleteMovesForward | crates/mpc-server/src/store.rs:706-774 | Completing moves statuses only forward and keeps at most one cooling request. |
| RecoveryStore.CompleteKeepsOneCooling | crates/mpc-server/migrations/0010_recovery.sql:16-17 | Completing keeps at most one cooling request per wallet. |
| RecoveryStore.CancelMovesForward | crates/mpc-server/src/store.rs:777-801 | So does cancelling. |
| RecoveryRuns.StepKeepsGrants | crates/mpc-server/src/passkey.rs:592-628 | Every step keeps: each entry rests on an earlier one, nothing is used twice, and the tables agree with the history. |
| RecoveryRuns.GrantsAreOneUse | crates/mpc-server/src/store.rs:503-552 | Over every run: whatever was opened or set cooling answers to its own consumed grant, no tuple is consumed twice, and each came, within both lifetimes, from a one-use challenge issued for an assertion on that tuple. |
| RecoveryRuns.SpendSucceedsIff | crates/mpc-server/src/store.rs:531-552 | In every reachable state, told by the history: a grant is consumed if and only if the operation was granted at most its lifetime ago and not consumed since. |
| RecoveryRuns.AssertionCountsIff | crates/mpc-server/src/passkey.rs:592-628 | In every reachable state, told by the history: an assertion earns a grant if and only if it verifies and its challenge was issued in time, for an assertion by this wallet on exactly this tuple, and was not taken since. |
| RecoveryRuns.GoalsShareNoGrant | crates/mpc-server/src/recovery.rs:71-85 | What a start of cooling and the opening of a reshare ask for is the same only for the same wallet and request or reshare. |
| RecoveryRuns.StepKeepsCooling | crates/mpc-server/src/store.rs:646-774 | Every cooling row has been cooling since one recorded start, with that start's times, and nothing has ended it. |
| RecoveryRuns.DeviceKeyProvenance | crates/mpc-server/src/recovery.rs:317-395 | Over every run: a registered device key is never removed, and changes only to the key of a request for which a grant bound to wallet, key and request was earned and consumed in time, cooling started, at least the cooling-off period and at most that and the completion window passed, and nothing ended it in between. |
| RecoveryRuns.RecoveryGoesThrough | crates/mpc-server/src/recovery.rs:317-395 | Approved and waited for, a recovery does replace the key, for every wallet, key, request and cooling-off period. |
| RecoveryRuns.CancelTakesEffect | crates/mpc-server/src/store.rs:777-801 | In any run, whatever follows: a cancel of the wallet's awaiting or cooling request cancels it, touches nothing else, and its key never gets in afterwards; any other cancel changes nothing. |
| RecoveryRuns.CompletionTakesEffect | crates/mpc-server/src/store.rs:706-774 | In any run, whatever follows: a completion replaces the key if and only if the wallet's request is cooling and between its ready time and its end; then the wallet's other open requests end as cancelled, none of their keys gets in afterwards, and other wallets' requests stay. |
| RecoveryRuns.EndedForGood | crates/mpc-server/src/store.rs:646-801 | A request that has ended stays exactly as it is, and its key is never put in afterwards. |
| RecoveryRuns.StateTellsTheEnd | crates/mpc-server/src/recovery.rs:188-201 | In every reachable state the reported state tells how a request ended: completed if and only if its key was put in, cancelled if withdrawn and only if withdrawn or overtaken, expired only if neither. |
| RecoveryRuns.PendingIsExact | crates/mpc-server/src/recovery.rs:417-430 | In every reachable state: the pending list is exactly the cooling or ready requests, at most one, none lost for want of a ready time. |
| RecoveryRuns.StatusesMoveForward | crates/mpc-server/src/store.rs:646-801 | From any point of a run to any later one, statuses only move forward and ended requests stay as they are. |
| RecoveryRuns.CreateKeepsWindows | crates/mpc-server/src/store.rs:591-604 | For any limit and any clock reading, recording a request keeps every hour within the limit. |
| RecoveryRuns.EveryHourHoldsAtMostFive | crates/mpc-server/src/store.rs:583-625 | For every run and any clock, every hour holds at most five requests of a wallet. |
| Auth.NonceStore.ReserveDeviceNonce | crates/mpc-server/src/store.rs:830-855 | Expired nonces go, then the nonce is reserved unless it is there. |
| Auth.NonceStore.Authenticate | crates/mpc-server/src/auth.rs:90-124 | A proof reaches the nonce table only within the skew, with a well-formed nonce and a good signature. |
| Auth.AcceptedIff | crates/mpc-server/src/auth.rs:90-124 | For any clock, lifetime and skew: accepted is exactly a proof that verifies, with a nonce of 1 to 128 characters, within the skew on the millisecond clock, whose nonce no earlier acceptance still reserves. |
| Auth.ShippedAcceptance | crates/mpc-server/src/auth.rs:13-14 | The same for the shipped server under a clock that does not run backwards, with every number written out. |
| Auth.AcceptancesStayReserved | crates/mpc-server/src/store.rs:830-855 | Over every run, an accepted nonce stays reserved for its whole lifetime. |
| Auth.LongLifetimeSuffices | crates/mpc-server/src/auth.rs:13-14 | A lifetime that covers the proof's window makes every proof one-use over every run with a clock that does not run backwards. |
| Auth.OneUseIffLifetimeCoversWindow | crates/mpc-server/src/auth.rs:99-122 | Proofs are one-use over all runs if and only if the lifetime is at least twice the skew plus 999 999 ns. |
| Auth.ShippedLifetimeIsShort | crates/mpc-server/src/auth.rs:13-14 | The shipped 600 s are exactly twice the skew, 999 999 ns short, and a replaying run exists. |
| Auth.ShippedReplaysSpanTheWindow | crates/mpc-server/src/auth.rs:99-122 | With the shipped constants a second acceptance needs the first in the first millisecond of the window and the second in the last. |
| ReshareStore.Store.FinishDkg | crates/mpc-server/src/store.rs:861-899 | The session goes and the wallet's share and key are stored, once, or neither happens. |
| ReshareStore.Store.PutSession | crates/mpc-server/src/store.rs:902-929 | A key generation is inserted, or only its state replaced. |
| ReshareStore.Store.TakeSession | crates/mpc-server/src/store.rs:932-954 | A key generation is found by its id alone; an expired one is dropped. |
| ReshareStore.Store.PutReshareSession | crates/mpc-server/src/store.rs:957-985 | A session is inserted, or only its state replaced. |
| ReshareStore.Store.TakeReshareSession | crates/mpc-server/src/store.rs:989-1014 | Another wallet's session reads as absent, an expired one is dropped. |
| ReshareStore.Store.StageReshare | crates/mpc-server/src/store.rs:1020-1063 | The session goes and the staged share replaces an older one. |
| ReshareStore.Store.CommitReshare | crates/mpc-server/src/store.rs:1069-1115 | The staged share of this id, unexpired, becomes live; the public key stays. |
| ReshareStore.Store.AbortReshare | crates/mpc-server/src/store.rs:1118-1139 | Session and staged share of this id go; the live share stays. |
| ReshareStore.Store.SweepExpired | crates/mpc-server/src/store.rs:1243-1265 | Key generations, reshares and staged shares that have expired go, and nothing else. |
| ReshareStore.StepKeepsStaged | crates/mpc-server/src/store.rs:1020-1139 | A staged row is what one recorded staging stored, and nothing has cleared it since. |
| ReshareStore.LiveShareProvenance | crates/mpc-server/src/store.rs:1069-1115 | Over every run: the public key is written once, and the live share changes only by a commit, in time, of the share staged under that id with nothing clearing it in between. |
| ReshareStore.StagingsCommitOnce | crates/mpc-server/src/store.rs:1020-1139 | Over every run: each staging commits at most once, and an aborted id cannot commit until it is staged again. |
| ReshareStore.CommitTakesEffectIff | crates/mpc-server/src/store.rs:1069-1115 | A commit goes through if and only if the wallet has a key and its staged share is of this id and in time; then that share is live and staged no more, and otherwise nothing changes. |
| ReshareStore.AbortTakesEffect | crates/mpc-server/src/store.rs:1118-1139 | An abort ends the wallet's session under the id and drops its staged share of it and nothing else; whatever follows, no commit under the id goes through until it is staged again. |
| ReshareStore.RoundsNeedTheirSession | crates/mpc-server/src/reshare.rs:195-270 | Without an open session of that wallet a round does nothing; one that fails ends the session and what it staged. |
| ReshareStore.RoundsMoveTheirSession | crates/mpc-server/src/reshare.rs:195-270 | A round that works moves the session's party on; the last one closes the session and stages its share. |
| ReshareStore.RoundsStayInTheirSession | crates/mpc-server/src/reshare.rs:195-270 | A round touches no live share, no other session and no other wallet's staged share. |
| ReshareStore.KeygenNeedsItsSession | crates/mpc-server/src/api.rs:248-300 | Key generation stores a share only out of an open session's last round and only for a wallet without one; a failed round changes nothing. |
| ReshareStore.SessionsKeepTheirEnd | crates/mpc-server/src/store.rs:902-985 | A session keeps the wallet and the end it was opened with, however often it is written. |
| ReshareStore.SweepRemovesTheExpired | crates/mpc-server/src/store.rs:1243-1265 | A sweep removes exactly what is past its time, and no live share. |
| ReshareStore.AnswersFit | crates/mpc-core/src/protocol.rs:475-496 | For any messages, the last round answers with a share under the key it names, which is the expected one if there is one. |
| ReshareStore.SharesFitTheKey | crates/mpc-server/src/reshare.rs:195-270 | Over every run in which wallets do not share a reshare id, key generations included and for any messages: the live and the staged share are the server's and fit the wallet's public key. |
| ReshareStore.HonestServerRounds | crates/mpc-server/src/reshare.rs:195-270 | Against two honest peers whose rows are lines, the server's three rounds work and end with its share of the summed line. |
| ReshareStore.KeygenStores | crates/mpc-server/src/api.rs:213-300 | In every state and for every line, a key generation with honest peers stores exactly the server's share of the line and its key. |
| ReshareStore.SharedIdMixesWallets | crates/mpc-server/src/store.rs:957-985 | Why ids must not be shared: for any two wallets, keys and slopes, after both start a reshare under one id and the first drives and commits it, the first's live share is one of the second's key; it fits its own if and only if the keys are equal. |
| ReshareFlow.Background.StartReshare | packages/extension/entrypoints/background.ts:686-699 | A reshare starts only for a restored wallet with none pending or running. |
| ReshareFlow.Background.PasswordChecked | packages/extension/entrypoints/background.ts:701-707 | The run gets a new token and the unlocked share. |
| ReshareFlow.Background.FinishRun | packages/extension/entrypoints/background.ts:738-762 | A run whose token is stale is undone; any other becomes the pending reshare. |
| ReshareFlow.Background.FailRun | packages/extension/entrypoints/background.ts:709-715 | A run that fails is reported, unless its token is stale. |
| ReshareFlow.Background.ReshareProgress | packages/extension/entrypoints/background.ts:772-780 | A failure is reported once and forgotten. |
| ReshareFlow.Background.TakeReshareRecovery | packages/extension/entrypoints/background.ts:783-788 | The new recovery share is handed over once. |
| ReshareFlow.Background.ConfirmReshareSaved | packages/extension/entrypoints/background.ts:797-804 | With nothing pending the call fails; a commit goes out unless it is known to have happened. |
| ReshareFlow.Background.CommitReturned | packages/extension/entrypoints/background.ts:801-804 | The commit is remembered before the vault is written. |
| ReshareFlow.Background.VaultWritten | packages/extension/entrypoints/background.ts:805-817 | The vault gets what the object holds, and nothing is pending any more. |
| ReshareFlow.Background.CancelReshare | packages/extension/entrypoints/background.ts:820-836 | With nothing pending the token is bumped; a known commit refuses; otherwise an abort goes out. |
| ReshareFlow.Background.AbortReturned | packages/extension/entrypoints/background.ts:836-841 | The share is wiped in place and the reshare forgotten, whether or not the server answered. |
| ReshareFlow.AcceptedIsOneEpoch | crates/mpc-core/src/protocol.rs:483-490 | Whatever two shares went in, an accepted run leaves three shares of one line with the wallet's secret. |
| ReshareFlow.StepKeepsInv | packages/extension/entrypoints/background.ts:720-845 | Every step, whoever takes it, keeps: outcomes are epochs, commits are only out for saved files, and the live share is the original or has its file saved. |
| ReshareFlow.NeverLosesTheWallet | packages/extension/entrypoints/background.ts:675-845 | In every reachable state under any interleaving: two shares of different parties that export the secret are in durable places. |
| ReshareFlow.ConfirmedIsHealthy | packages/extension/entrypoints/background.ts:790-817 | A finished confirmation whose share was not wiped and is still the live epoch makes any two of vault, new file and server usable. |
| ReshareFlow.UndisturbedConfirmationHeals | packages/extension/entrypoints/background.ts:797-817 | From any reachable waiting reshare, an undisturbed confirmation ends with a healthy wallet. |
| ReshareFlow.CancelForgetsTheRun | packages/extension/entrypoints/background.ts:745-750 | From every reachable state in which a run works and nothing is pending, a cancel is final, whatever follows: the reshare is never pending, kept, committed or stored, and when its run returns, an abort goes out and nothing else changes. |
| ReshareFlow.UncancelledRunIsAdopted | packages/extension/entrypoints/background.ts:753-765 | A run that nobody cancelled, replaced or crashed becomes the pending reshare when it returns, with its share kept and its file ready. |
| ReshareFlow.OneRunIsWanted | packages/extension/entrypoints/background.ts:702-716 | However many runs were started, of two that return one is undone. |
| ReshareFlow.KnownCommitIsNotRepeated | packages/extension/entrypoints/background.ts:797-817 | A confirmation sends a commit unless one is known to have happened; then it only stores the share. |
| ReshareFlow.RepliedCommitIsRemembered | packages/extension/entrypoints/background.ts:828-832 | Once a commit's reply is back, as long as the worker lives and whatever follows, a cancel of that reshare changes nothing and a confirmation sends nothing. |
| ReshareFlow.CancelOfPending | packages/extension/entrypoints/background.ts:820-840 | A cancel of a pending reshare is refused once the commit is known, and otherwise sends an abort and leaves nothing pending and the share wiped. |
| ReshareFlow.AskCountsIffFree | packages/extension/entrypoints/background.ts:686-693 | Asking counts only for a restored wallet with nothing pending or running. |
| ReshareFlow.ReportedOnce | packages/extension/entrypoints/background.ts:709-788 | A failure is reported only of a wanted run, and once; a file is handed over once. |
| ReshareFlow.ConfirmationStoredIffReplied | packages/extension/entrypoints/background.ts:797-817 | A confirmation that reached the server from any reachable waiting reshare: with its reply the wallet is whole at once; once the reply is lost, no later events whatever let the vault be written. |
| ReshareFlow.WithoutReplyNothingIsStored | packages/extension/entrypoints/background.ts:797-817 | Once the reshare is committed at the server and its one reply is lost, nothing that follows, further confirmations, crashes and other reshares included, stores it here. |
| ReshareFlow.CurrentPairWorksIff | packages/extension/entrypoints/background.ts:819 | While the vault is the restored one, vault and server open the wallet if and only if no commit reached the server or it put back the same line. |
| ReshareFlow.CancelAfterLostReply | packages/extension/entrypoints/background.ts:819-845 | After a commit whose reply was lost, a cancel leaves vault and server usable together if and only if the two lines are the same; the saved file still works. |
| ReshareFlow.ReshareReachesConfirmation | packages/extension/entrypoints/background.ts:686-788 | For every wallet and all slopes the flow reaches a waiting confirmation with the file saved. |
| ReshareFlow.ConfirmingBeforeSavingCanLose | packages/extension/entrypoints/background.ts:790-817 | Confirmed before the file is saved, a dying worker leaves a usable pair if and only if the new line is the old one. |
| ReshareFlow.WipedIsUseless | packages/extension/entrypoints/background.ts:842 | A wiped share opens nothing with any other share. |
| DeviceSlots.DeviceKeys.PromotePendingDeviceKey | packages/extension/src/deviceKey.ts:102-107 | Copies first, deletes second; stopped anywhere, the pair is in some slot. |
| DeviceSlots.Install.BeginRecovery | packages/extension/entrypoints/background.ts:245-268 | The writes of starting a recovery, cut off anywhere, with the clean-up of a caught error. |
| DeviceSlots.Install.RecoveryProgress | packages/extension/entrypoints/background.ts:274-309 | What a progress report writes: nothing, a forgotten recovery, or the end of an ended one. |
| DeviceSlots.Install.FinishRecovery | packages/extension/entrypoints/background.ts:318-358 | Swap, promote, vault, clear, in that order, cut off anywhere. |
| DeviceSlots.Install.AbandonRecovery | packages/extension/entrypoints/background.ts:361-379 | The server is told if it can be reached; the local state goes either way. |
| DeviceSlots.DeviceKeys.StorePendingDeviceKey | packages/extension/src/deviceKey.ts:92-94 | The pending slot is overwritten and the active one kept. |
| DeviceSlots.Install.CreateKey | packages/extension/entrypoints/background.ts:183-207 | A new wallet keeps its device key in memory and is refused only when there is a vault, whatever recovery is going on. |
| DeviceSlots.Install.ConfirmRecoverySaved | packages/extension/entrypoints/background.ts:210-229 | Register, overwrite the active slot whatever it holds, store the vault, in that order, cut off anywhere. |
| DeviceSlots.StepKeepsInv | packages/extension/entrypoints/background.ts:183-379 | Every call, cut off after any number of its writes, keeps the link between the swapped key, the slots and the recovery state, with new wallets made in between. |
| DeviceSlots.KeyLeavesSlotsIff | packages/extension/entrypoints/background.ts:183-379 | In every reachable state, for every next call cut off anywhere: the key the server took leaves both slots if and only if a new wallet's confirmation overwrites the active slot that has the only copy, or an abandon drops the pending one that has it. |
| DeviceSlots.SwappedKeyIsKept | packages/extension/entrypoints/background.ts:183-379 | Over every run, from the swap on, at every stopping point and through every retry: the key the server took is in the pending or the active slot if and only if no such confirmation and no such abandon happened since. |
| DeviceSlots.NewWalletCanLoseTheKey | packages/extension/entrypoints/background.ts:183-229 | Runs without any abandon: a finish stopped before the vault and then a new wallet lose the key; so does a wallet made before a whole finish and confirmed after it; a finish stopped before it promotes does not. |
| DeviceSlots.FinishStoresIffKeyIsPending | packages/extension/entrypoints/background.ts:311-358 | In every reachable state with no vault and a recovery that is ready or completed: a finish stores the vault, under the key the server takes, if and only if the pending slot holds a key. |
| DeviceSlots.TriesStoreIffKeyIsPending | packages/extension/entrypoints/background.ts:311-358 | Over every series of tries cut off anywhere: the vault is stored, or a next whole try stores it if and only if the pending slot still holds a key; without one no try does anything. |
| DeviceSlots.BeginsOnlyWhenFree | packages/extension/entrypoints/background.ts:245-268 | A recovery begins only with neither vault nor recovery here; what it leaves when it runs through, and nothing when it fails and cleans up. |
| DeviceSlots.AbandonEndsTheRecovery | packages/extension/entrypoints/background.ts:361-379 | An abandon leaves no recovery and no key aside, and ends the request on a server it reached, and no other. |
| DeviceSlots.OnlyEndsAreForgotten | packages/extension/entrypoints/background.ts:274-347 | Asked about an ended request, report and finish forget it; about a waiting one neither writes anything. |
| DeviceSlots.SwapEndsTheOthers | packages/extension/entrypoints/background.ts:348-350 | The swap registers the key kept aside, completes its request and ends every other open one. |
| DeviceSlots.NewWalletWrites | packages/extension/entrypoints/background.ts:183-229 | A new wallet is kept only while there is no vault; its confirmation registers, activates and stores, once, in this order. |
| DeviceSlots.RetryWorksExceptBeforeVault | packages/extension/entrypoints/background.ts:311-317 | How a first stop gets there: a finish stopped after n of its five writes can be retried to the end if and only if n is not 3; there the key is active, and the next progress report forgets the recovery. |
| DeviceSlots.ReadyIsReached | packages/extension/entrypoints/background.ts:245-309 | An approved and awaited recovery reaches the state the retry result is about. |
| Onboarding.Background.CreateKey | packages/extension/entrypoints/background.ts:183-207 | Key creation keeps everything in memory; a short password, a wallet already here or a failed generation refuse it, in that order. |
| Onboarding.Background.CancelOnboarding | packages/extension/entrypoints/background.ts:232-235 | Everything created is dropped and nothing durable changes. |
| Onboarding.Background.ConfirmRecoverySaved | packages/extension/entrypoints/background.ts:210-229 | Register, store the device key, store the vault, in that order, cut off anywhere; a refused registration ends it. |
| Onboarding.ConfirmationIsNotRetryable | packages/extension/entrypoints/background.ts:210-229 | Over every series of tries the wallet ends up stored if and only if the first try that reached the server went through to the end. |
| Onboarding.FirstTryDecides | packages/extension/entrypoints/background.ts:210-229 | The first try that reaches the server decides for good what there will be: registered key, active key, vault. |
| Onboarding.NothingBeforeConfirmation | packages/extension/entrypoints/background.ts:85-92 | Until a confirmation reaches the server nothing durable has changed. |

## Left out

- Upstream internals: oblivious transfer, multiplication, zero shares and proofs of DKLs23, and ECDSA itself; they are library code behind the contracts above.
- Secrecy claims, such as that one share reveals nothing; only what is computed is modelled.
- `backend::sign` and `verify`, the one-process signing of the upstream session type; `Signing.SignLocally` covers the same exchange over `SignParty`.
- Encryption of the vault and of stored sessions, password derivation, WebAuthn verification, SHA-256 and Base64, JSON and hex codecs.
- HTTP routing, cookies, OpenAPI, tracing, the management page beyond its cancel, the React interface, content scripts and the SDK.
- Browser ceremonies and hand-off tokens, signature counters and credential storage; an assertion is a challenge claimed with a verdict.
- Operation ids as text: the upper and lower case spellings of one id are one id here.
- Races inside one handler between reading a session row and writing it back.
- Two calls of the recovery flow at once, for instance a stale progress report during a finish.
- Recovery rows from before the key column existed, which every query filters out.
- Rollback of a party's in-memory state after a body that does not decode: the code keeps what came before it, and so does the model.
- RecoveryStore.Store.CreateRecoveryRequest: a colliding request id is an error that changes nothing; that ids are random is not used.
- RecoveryRuns.GrantsAreOneUse: a grant that was consumed by a handler that then died stays consumed; that every grant leads to something is not claimed.
- ReshareStore.SharesFitTheKey: says that a live share fits the wallet's key, not that the peers were honest; that honest peers leave one line is `Ceremony.ReshareKeepsTheKey`.
- ReshareStore.Store.SweepExpired: signing sessions are not in these tables; a signing row that is swept is one that is gone, which `Sign` allows at every request.
- Onboarding.Background.CreateKey: takes what the key generation gives as a parameter; the generation is `Runner` and `ReshareStore.KeygenStores`.
- DeviceSlots.Install.FinishRecovery: the password and the file are taken to pass the first checks, which refuse before anything is written.
- Renewal.Refresh: a list with a repeated index counts as refused by the upstream phases.
