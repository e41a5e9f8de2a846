# Verified model of the PiWork App platform

This project models the parts of PiWork whose correctness rests on protocols rather than on single
functions, and proves what those protocols promise:

- **App deployment** (`App*.dfy`, `ReceiptFencing.dfy`, `ControlPlane.dfy`, `AccountService.dfy`). Workers, UI calls, OAuth callbacks
  and an expiry sweeper share the tables `apps`, `app_deployments`, `app_leases`, `app_operation_outbox`,
  `app_resource_receipts`, `cloudflare_oauth_states` and `cloudflare_temporary_previews`. Each transaction, and each UPDATE that commits
  alone, is one step over one database value; a run is any sequence of steps of any number of actors with a clock
  that never goes back, so pauses, replays and races of any kind are runs. The service methods are imperative and
  are proved to commit exactly their step or to leave the tables alone, to keep the invariants of all runs, and to
  mean to their caller what `AppEffects.dfy` and `AccountEffects.dfy` say. The theorems in `AppSafety.dfy`, `AppFencing.dfy` and
  `ReceiptFencing.dfy` hold of every state of every run.
- **Connection credentials** (`Credentials.dfy`). Overlapping refreshes and revokes, decided by compare-and-swap.
- **The outbox worker** (`OutboxWorker.dfy`). What a payload means, and what one poll does with its batch.
- **Cloud resource provisioning** (`Provisioning.dfy`). Creates may succeed and lose their response, receipt writes
  may be refused or lost, the signal may abort at any point.
- **The crash-safe JSON store** (`Disks.dfy`, `AtomicStore.dfy`) and **browser control** on top of such a file
  (`BrowserControl.dfy`, `BrowserSessions.dfy`).
- **Sequential algorithms**: worker module globs (`Regexes.dfy`, `Globs.dfy`), hash preimages (`Digests.dfy`), source
  snapshots (`Snapshots.dfy`, `SnapshotOrder.dfy`, `SnapshotTies.dfy`), the preview abuse guard (`AbuseGuard.dfy`), tail truncation (`TailTruncation.dfy`) and
  the bounded message buffer (`MessageBuffer.dfy`).

## Where a promise does not hold as one would expect

Each of these is stated with the exact condition under which the code does meet the promise.

- Lease-guarded writes and the App's generation: `transitionDeploymentPhase` and `failOutboxByKey` compare the lease
  and the row, not the App. They write at the App's present generation exactly when no step has raised it since their
  token was granted (`AppFencing.CurrentIffNotRaisedSinceGranted`); `AppFencing.StaleTransitionTakesEffect` is a run in
  which a stale one takes effect, and `AppFencing.StaleWritesEndWithTheLease` bounds how late one can come.
- Receipts: `recordResourceReceipt` checks lease and generation in one statement and stores the receipt in another, so
  a paused runner may store a receipt it no longer has a right to (`ReceiptFencing.LateReceiptIsStored`). The write is
  fenced exactly when nothing took that right away since the check
  (`ReceiptFencing.StoredReceiptIsFencedIffUndisturbed`).
- Status `ready`: the transition table admits a step from deploying to temporary_ready, which serves a preview without
  making it current. In runs without it `ready` is truthful (`AppSafety.ReadyIsTruthful`); with it alone it is not
  (`AppBypass.BypassReportsReadyFalsely`). The deployment coordinator never requests it.
- Resource names: receipts are fed back within one deployment and from the current one, so publishing again after a
  deployment that failed creates the same KV or D1 name twice. `Provisioning.PublishAgain` says exactly when.
- Legacy backup: a `.bak-v0` file torn by a stop during the copy is never repaired, and the next commit replaces the
  only whole copy. The old bytes stay recoverable if and only if a backup that is already there is whole
  (`AtomicStore.PreparedWrite.Commit`).
- Browser control: a handoff time that is not a finite number is lost when the state is written and read back
  (`BrowserControl.ReadsReturnWhatWasWritten`).
- Source snapshots: names in one directory that compare equal are listed in the order the file system returns them, so
  a snapshot may be refused when it is restored (`SnapshotTies.TiedNamesAreRefused`). It is accepted from every copy
  exactly when no two siblings on the way to two kept files compare equal (`SnapshotTies.RestoresIffTieFree`). A
  `.gitkeep` in the workspace stops a restore exactly when a kept file has to be created at, through or above it
  (`Snapshots.RestoreSnapshot`).
- Message buffer: an `undefined` item that is taken out stays in the byte counter (`MessageBuffer.BoundedMessageBuffer.Shift`,
  `MessageBuffer.UndefinedStaysInTheCount`).
- Tail truncation: output of exactly 50 KiB followed by a newline counts as truncated by lines although every line is
  kept; `TailTruncation.TruncatePiBashTail` says when each reason is reported.
- Abuse guard: an attempt refused because its App already has an active preview is still charged to the user and the
  address (`AbuseGuard.TemporaryPreviewAbuseGuard.Acquire`).

## Model

| member | source | states |
|---|---|---|
| AppSafety.RunKeepsInv | web/server/apps-control-plane.ts:519-1561 | every state of every interleaving satisfies the joint invariant of Apps, deployments, leases, outbox rows, OAuth attempts and previews |
| AppSafety.ServedVersionNeverGoesBack | web/server/apps-control-plane.ts:777-862 | over any stretch of any run, an App's generation and the version of its current deployment never decrease, whatever stale workers do |
| AppSafety.OneDeploymentPerGeneration | web/server/apps-control-plane.ts:519-686 | in every reachable state an (App, generation) and an (App, idempotency key) name one deployment, versions are ordered as generations, no deployment is ahead of its App |
| AppSafety.PhasesNeverGoBack | web/server/apps-cloudflare-account-service.ts:2145-2179 | under one fixed rank no step of either service lowers a deployment's phase, and ready, expired, failed and cancelled are final, over any stretch of a run |
| AppSafety.ServedAtMostOnce | web/server/apps-control-plane.ts:792-831 | a deployment leaves `deploying` into ready or temporary_ready at one step of a run at most |
| AppSafety.ReadyIsTruthful | web/server/apps-control-plane.ts:832-845 | status `ready` implies a current deployment of that App in phase ready, in every run in which no transition moves a deployment from deploying to temporary_ready; the coordinator requests only the edge from queued to provisioning |
| AppSafety.ClaimFailureNeverReportsReady | web/server/apps-cloudflare-account-service.ts:1218-1271 | in the same runs, while a claim attempt's generation is current its deployment is the current one, so the `else 'ready'` arm cannot be taken |
| AppBypass.BypassReportsReadyFalsely | web/server/apps-cloudflare-account-service.ts:2145-2158 | with that one transition the promise fails: a run of seventeen steps, all others as the services make them, after which the App reports ready and serves a deployment that is not |
| AppSafety.ExchangedAtMostOnce | web/server/apps-cloudflare-account-service.ts:1280-1333 | across finish, cancel and cleanup in any order an OAuth state enters code exchange at one step at most (section 10.12 of RFC 6749) |
| AppSafety.SecretsExactlyWhileUsable | web/server/apps-cloudflare-account-service.ts:2607-2675 | in every reachable state a PKCE verifier is stored iff its attempt is pending (section 4 of RFC 7636), preview secrets iff the preview is ready or claiming |
| AppSafety.NeverTwoOpenPreviews | web/server/apps-cloudflare-account-service.ts:717-905 | in every reachable state an App has at most one preview that is provisioning, ready or claiming |
| AppSafety.SettledRowsStaySettled | web/server/apps-cloudflare-account-service.ts:594-627 | completed and failed outbox rows never change state again, re-enqueueing included, and a row always names the deployment and generation it was enqueued for |
| AppSafety.CompletesOnlyWhenCurrent | web/server/apps-control-plane.ts:1479-1518 | an outbox row becomes completed only in a state where its generation is its App's |
| AppSafety.ReturnsToPendingAtMostNineTimes | web/server/apps-control-plane.ts:1552-1561 | counted over a whole run, a row goes from leased back to pending at most nine times |
| AppFencing.OneLiveToken | web/server/apps-control-plane.ts:1361-1392 | at any time an App has at most one live lease token and a live token belongs to one App |
| AppFencing.DeadTokensStayDead | web/server/apps-control-plane.ts:1394-1418 | a token that was replaced, released or ran out is never live again in any later state, renewals included |
| AppFencing.GuardedStepsHoldTheLease | web/server/apps-control-plane.ts:321-335 | every write that checks the lease in its own statement or transaction and takes effect holds the App's live lease at the generation it names; the receipt write, which checks in a statement of its own, is ReceiptFencing.StoredReceiptIsFencedIffUndisturbed |
| AppFencing.SupersededWritersAreFencedOff | web/server/apps-runtime-coordinator.ts:411-460 | once another token has written for an App, an earlier writer's token never writes for it again |
| AppFencing.CurrentIffNotRaisedSinceGranted | web/server/apps-cloudflare-account-service.ts:2163-2179 | over any run, a lease-guarded write takes effect at its App's present generation if and only if no step has raised the generation since the write's token was granted |
| AppFencing.GuardedWritesWereGranted | web/server/apps-control-plane.ts:1361-1392 | the grant of which that equivalence speaks exists for every guarded write of every run |
| AppFencing.CheckedWritesAreNeverStale | web/server/apps-control-plane.ts:736-831 | publishing, completing, failing and completing by key never come after a step that raised the generation since the grant |
| AppFencing.StaleWritesEndWithTheLease | web/server/apps-control-plane.ts:1402-1418 | a guarded write of a generation the App has left comes less than the longest lease after the step that left it, renewals included |
| AppFencing.StaleTransitionTakesEffect | web/server/apps-cloudflare-account-service.ts:2121-2181 | a run of five steps in which a phase transition takes effect for a generation the App has left |
| ReceiptFencing.StoredReceiptIsFencedIffUndisturbed | web/server/apps-cloudflare-account-service.ts:2233-2301 | a receipt is stored by the holder of the live lease at the current generation if and only if, since the call's check, the App's lease was neither granted anew nor released, did not run out, and the generation was not raised |
| ReceiptFencing.CallsWereChecked | web/server/apps-cloudflare-account-service.ts:2233-2301 | every receipt call of every run goes back to one check, for the same row |
| ReceiptFencing.LateReceiptIsStored | web/server/apps-cloudflare-account-service.ts:2233-2301 | a run of seven steps in which a receipt is stored for a generation the App has left |
| ReceiptFencing.ReceiptsKeepTheirOwner | web/server/apps-cloudflare-account-service.ts:2263-2301 | over any stretch of any run no receipt is lost and none changes its owner |
| AppCore.StepsKeepCore | web/server/apps-control-plane.ts:944-1039 | every step keeps versions, generations and keys in order, every current deployment its App's own, and evolves rows only upwards |
| AppClaims.StepsKeepClaims | web/server/apps-cloudflare-account-service.ts:1003-1022 | every step but the transition from deploying to temporary_ready keeps the link between claim attempts, the current deployment and the status columns |
| AppClaims.StatusOfFailedClaim | web/server/apps-cloudflare-account-service.ts:1232-1261 | the status a failing claim writes agrees with the phases, given that the claim holds |
| AppLeases.StepsKeepLeases | web/server/apps-control-plane.ts:1361-1418 | every step keeps tokens unique and drawn, lease generations at most the App's, and dead tokens dead |
| AppOutbox.StepsKeepOutbox | web/server/apps-control-plane.ts:1420-1561 | every step keeps outbox rows tied to their deployment, one per key, with attempts that pay for each return to pending |
| AppAttempts.StepsKeepAttempts | web/server/apps-cloudflare-account-service.ts:1273-1660 | every step keeps verifiers with pending attempts only and moves attempts forward only |
| AppAttempts.StepsKeepSecrets | web/server/apps-cloudflare-account-service.ts:832-876 | every step keeps preview secrets exactly with ready and claiming previews |
| AppAttempts.StepsKeepOneOpen | web/server/apps-cloudflare-account-service.ts:717-977 | every step keeps an App at one open preview at most |
| AppReceipts.StepsKeepReceipts | web/server/apps-cloudflare-account-service.ts:2233-2301 | every step keeps receipts and calls tied to deployments and issued tokens, and moves them forward only |
| ControlPlane.Tables.VersionAfterMax | web/server/apps-control-plane.ts:635-639 | the loop finds one more than the largest version of the App's deployments |
| ControlPlane.AppsControlPlane.BeginDeployment | web/server/apps-control-plane.ts:519-686 | accepted exactly as stated and keeps all invariants; one deployment has the key: the one that had it, or a new one, next in version and newer than all others of the App, waiting for a target; the App needs action, keeps what it serves, and none of the others can be completed or failed any more |
| ControlPlane.AppsControlPlane.MarkDeploymentDeploying | web/server/apps-control-plane.ts:736-775 | accepted exactly as stated and keeps all invariants; deployment and App are deploying, nothing else changes, the caller stays fenced and may complete at once |
| ControlPlane.AppsControlPlane.CompleteDeployment | web/server/apps-control-plane.ts:777-862 | accepted exactly as stated and keeps all invariants; the caller is fenced; the newest deployment of the App is served from then on with its artifact and version, the App reports ready for a lasting and preview for a temporary one, the version served does not go back, and repeating the call changes nothing |
| AppEffects.CompleteCompletes | web/server/apps-control-plane.ts:792-845 | what completion does to every row, the App status included |
| ControlPlane.AppsControlPlane.FailDeployment | web/server/apps-control-plane.ts:864-942 | accepted exactly as stated and keeps all invariants; the deployment is failed, what was served stays served, and the App reports ready if that is ready, preview if it is something else and failed if nothing is served; repeating the call changes nothing |
| ControlPlane.AppsControlPlane.RollBack | web/server/apps-control-plane.ts:944-1039 | accepted exactly as stated and keeps all invariants; the same for a deployment with the artifact and source of a ready one |
| ControlPlane.AppsControlPlane.Archive | web/server/apps-control-plane.ts:1181-1208 | accepted exactly as stated and keeps all invariants; the App is archived without a target at the next generation, keeps what is current, and no earlier deployment can be completed or failed any more; archiving again changes nothing |
| ControlPlane.AppsControlPlane.Restore | web/server/apps-control-plane.ts:1210-1234 | accepted exactly as stated and keeps all invariants; an archived App needs action, without a target, at the next generation, with the same effect on earlier deployments |
| ControlPlane.AppsControlPlane.AcquireLease | web/server/apps-control-plane.ts:1361-1392 | accepted exactly as stated and keeps all invariants; the new token is the only live one of the App and runs out when asked, but not within a second and not after five minutes; a live lease gives way only to its own holder |
| ControlPlane.AppsControlPlane.ReleaseLease | web/server/apps-control-plane.ts:1394-1400 | accepted exactly as stated and keeps all invariants; no token of the App is live, anyone may acquire the lease, and no other lease is touched |
| ControlPlane.AppsControlPlane.RenewLease | web/server/apps-control-plane.ts:1402-1418 | accepted exactly as stated and keeps all invariants; a live token at the App's generation runs out when asked, within the same bounds, and nothing else changes |
| ControlPlane.AppsControlPlane.ClaimOutbox | web/server/apps-control-plane.ts:1420-1442 | keeps all invariants; the worker has due rows up to the clamped limit, all of them if there are fewer, each with one attempt more and a lease of the clamped length, and no other row changes |
| ControlPlane.AppsControlPlane.CompleteOutbox | web/server/apps-control-plane.ts:1479-1496 | keeps all invariants; a row its worker has claimed is settled for good, completed exactly if it is current, and any other row is left alone |
| ControlPlane.AppsControlPlane.SettleOutboxByKey | web/server/apps-control-plane.ts:1498-1540 | accepted exactly as stated and keeps all invariants; the one open row with the key is settled for good under the lease, completed only if it is current, and no other row changes |
| ControlPlane.AppsControlPlane.FailClaimedOutbox | web/server/apps-control-plane.ts:1542-1550 | accepted exactly as stated and keeps all invariants; the claimed row is settled for good and nothing else changes |
| ControlPlane.AppsControlPlane.RetryOutbox | web/server/apps-control-plane.ts:1552-1561 | accepted exactly as stated and keeps all invariants; before the tenth attempt the row is pending again after one, two, four and so on up to 256 seconds; at the tenth it fails |
| AppEffects.WaitsAsListed | web/server/apps-control-plane.ts:1552-1561 | the backoff is the listed number of seconds for every number of attempts |
| AccountService.CloudflareAccountService.InsertPreview | web/server/apps-cloudflare-account-service.ts:717-800 | accepted exactly as stated and keeps all invariants; the new preview is being provisioned and is the one open preview of its App |
| AccountService.CloudflareAccountService.SettlePreview | web/server/apps-cloudflare-account-service.ts:832-905 | accepted exactly as stated and keeps all invariants; an answered preview has its account and secrets and is usable until it runs out; a failed one is closed, without secrets, and another may be opened |
| AccountService.CloudflareAccountService.ReleaseUnassignedTemporaryAccount | web/server/apps-cloudflare-account-service.ts:907-977 | accepted exactly as stated and keeps all invariants; a preview that nothing refers to is closed, without secrets, and another may be opened |
| AccountService.CloudflareAccountService.GetTemporaryClaimUrl | web/server/apps-cloudflare-account-service.ts:979-1052 | sweeps a preview past use; otherwise opens its newest current deployment for claiming, and refuses only if there is none to claim |
| AccountService.CloudflareAccountService.BeginAttempt | web/server/apps-cloudflare-account-service.ts:1073-1183 | accepted exactly as stated and keeps all invariants; the phase update of startOAuth, which commits by itself: the deployment waits for the user and the insert is due |
| AccountService.CloudflareAccountService.InsertAttempt | web/server/apps-cloudflare-account-service.ts:1184-1214 | accepted exactly as stated and keeps all invariants; whatever came in between, the attempt is pending with its verifier for ten minutes |
| AccountService.CloudflareAccountService.FailAttempt | web/server/apps-cloudflare-account-service.ts:1218-1271 | accepted exactly as stated and keeps all invariants; the attempt is over; a claim fails the deployment it still holds and its App at that generation, which in a reachable state is never reported ready |
| AccountService.CloudflareAccountService.ConsumeAttempt | web/server/apps-cloudflare-account-service.ts:1280-1333 | hands out the verifier exactly for a pending unexpired attempt, which is then in exchange; a late one is expired; both lose the verifier and nothing else changes |
| AccountService.CloudflareAccountService.ExchangeRejected | web/server/apps-cloudflare-account-service.ts:1336-1352 | accepted exactly as stated and keeps all invariants; the attempt is failed without a verifier and nothing else changes |
| AccountService.CloudflareAccountService.FinalizeDirectAttempt | web/server/apps-cloudflare-account-service.ts:1529-1565 | accepted exactly as stated and keeps all invariants; the attempt is completed, deployment and App are on the new connection, the deployment is queued, and exactly one outbox row says so |
| AccountService.CloudflareAccountService.FinalizeClaimAttempt | web/server/apps-cloudflare-account-service.ts:1376-1527 | accepted exactly as stated and keeps all invariants; with the preview's account the claimed deployment is the newest, ready and served on the new connection and the secrets are gone; with another the attempt is over, nothing is served differently and the claim stays open |
| AccountService.CloudflareAccountService.CancelAttempt | web/server/apps-cloudflare-account-service.ts:1596-1685 | accepted exactly as stated and keeps all invariants; the attempt is failed, the App needs action, and another attempt can be started at once |
| AccountService.CloudflareAccountService.SelectDeploymentTarget | web/server/apps-cloudflare-account-service.ts:1979-2119 | accepted exactly as stated and keeps all invariants; a deployment that waited is queued on the target with its App, later choices must be the same, a rollback takes no preview, and while it is under way exactly one outbox row says so |
| AccountEffects.SelectMeans | web/server/apps-cloudflare-account-service.ts:1979-2119 | what choosing a target does to every row |
| AccountService.CloudflareAccountService.TransitionDeploymentPhase | web/server/apps-cloudflare-account-service.ts:2121-2181 | accepted exactly as stated and keeps all invariants; the holder of the live lease moved the phase forward to one that may follow it, and nothing else changed |
| AccountService.CloudflareAccountService.UnlinkRevokedConnection | web/server/apps-cloudflare-account-service.ts:1931-1954 | keeps all invariants; exactly the Apps on the connection lose their target |
| AccountService.CloudflareAccountService.EnqueueDeployment | web/server/apps-cloudflare-account-service.ts:594-627 | the row with the key, which it finds, names deployment, target and generation and keeps its state; without one, a new row is pending and due |
| AccountService.CloudflareAccountService.ExpireAttempts | web/server/apps-cloudflare-account-service.ts:2607-2621 | keeps all invariants; exactly the overdue pending attempts are expired and lose their verifier |
| AccountService.CloudflareAccountService.ExpireTemporaryPreviews | web/server/apps-cloudflare-account-service.ts:2638-2675 | keeps all invariants; picked ready or claiming previews are expired without secrets, provisioning ones older than ten minutes failed, deployments under way or served on a lost preview expired, Apps on it in need of action without a target, and every other row is unchanged |
| AccountEffects.ExpireSweeps | web/server/apps-cloudflare-account-service.ts:2638-2675 | what the sweep does to every preview, deployment and App row, told without the statement |
| AccountService.CloudflareAccountService.CheckReceipt | web/server/apps-cloudflare-account-service.ts:2233-2256 | accepted exactly as stated and keeps all invariants; the SELECT of recordResourceReceipt: it demands a fenced caller and changes no receipt |
| AccountService.CloudflareAccountService.StoreReceipt | web/server/apps-cloudflare-account-service.ts:2263-2301 | accepted exactly as stated and keeps all invariants; its upsert: the row is stored as written, or refused and kept if its owner differs |
| Credentials.RefreshReplacesWhatItRead | web/server/apps-cloudflare-account-service.ts:1791-1908 | a refresh takes effect only if the envelope it read stayed stored, unrevoked, from its read to its write |
| Credentials.RefreshNeverOutlivesRevoke | web/server/apps-cloudflare-account-service.ts:1910-1954 | a refresh under way when its connection is revoked never takes effect afterwards |
| Credentials.RevokedUntilGranted | web/server/apps-cloudflare-account-service.ts:1910-1954 | over any run a revoked connection stays revoked and without a credential until it is granted anew |
| Credentials.OneRotationPerEnvelope | web/server/apps-cloudflare-account-service.ts:1766-1789 | of all refreshes that read one envelope at most one installs a credential |
| Credentials.NeverStoredAgain | web/server/apps-cloudflare-account-service.ts:1687-1751 | an envelope that was replaced is never stored for that connection again |
| Credentials.ConnectionTable.Settle | web/server/apps-cloudflare-account-service.ts:1819-1885 | takes effect exactly if the envelope read is still stored and unrevoked; installs the new one, after which no refresh that read the old one can take effect, or marks it; nothing else changes |
| Credentials.ConnectionTable.Read | web/server/apps-cloudflare-account-service.ts:1766-1789 | exactly for a stored unrevoked envelope: the refresh begins with it and no connection changes |
| Credentials.ConnectionTable.UpsertConnection | web/server/apps-cloudflare-account-service.ts:1687-1751 | the connection is active with the new envelope, nothing else changes, and no refresh that read an earlier one can take effect |
| Credentials.ConnectionTable.RevokeConnection | web/server/apps-cloudflare-account-service.ts:1910-1954 | the connection is revoked without an envelope, nothing else changes, and no refresh under way can take effect |
| OutboxWorker.EnqueuedRowsParseBack | web/server/apps-outbox-worker.ts:69-133 | an enqueued row parses back to the same target and ids exactly when its ids are trimmed and non-empty and its generation is a positive safe integer, and is rejected otherwise |
| OutboxWorker.ParsedRowsWereEnqueued | web/server/apps-outbox-worker.ts:69-133 | a row that parses is one the enqueuer writes for what it parses to |
| Texts.TrimRemovesSpaceOnly | web/server/apps-outbox-worker.ts:57-62 | trimming leaves a stretch of the text with nothing but white space around it (section 22.1.3.32 of ECMA-262) |
| OutboxWorker.AppsOutboxWorker.DoPoll | web/server/apps-outbox-worker.ts:209-225 | processes a prefix of the batch in order up to the first abort and gives back exactly the rest |
| OutboxWorker.AppsOutboxWorker.Process | web/server/apps-outbox-worker.ts:227-254 | every record is settled by exactly one last call, runs once and only if it can be read, and is completed only if it ran |
| OutboxWorker.PollSplitsTheBatch | web/server/apps-outbox-worker.ts:209-254 | a processed row is rejected once if it cannot be read, and otherwise run once, completed once unless the run failed and retried once unless all went well; a row after the abort is given back once and nothing else is done with it |
| Provisioning.World.Create | web/server/app-runtime-driver.ts:986-1018 | may take effect without answering; a create demands that a receipt owning the resource is already stored |
| Provisioning.World.OnReceipt | web/server/apps-cloudflare-account-service.ts:2263-2301 | a receipt write never changes an owner and may be lost before or after it is stored; the lease check in front of it is ReceiptFencing.StoredReceiptIsFencedIffUndisturbed |
| Provisioning.Preparation.Provision | web/server/app-runtime-driver.ts:959-1058 | creates a name only when a lookup found nothing or no receipt owns it, keeps the invariant of the run on every path, and records a failure as a failed receipt of what was asked for unless another owner has the row |
| Provisioning.Preparation.MarkTouchedCreatedForCleanup | web/server/app-runtime-driver.ts:946-957 | marks everything touched unless a write is lost; a refusal can only concern the last touched name, which is not ours |
| Provisioning.Preparation.PrepareResources | web/server/app-runtime-driver.ts:928-1115 | a run that succeeds delivers, in order, a stored ready receipt for every binding with id, name and jurisdiction of a resource that is what was asked for and in the account; everything made has a stored owning receipt; a failed run whose cleanup writes arrive leaves all of it marked by name; no adopted receipt is marked and no name gains a second resource; unless it is aborted or loses a write, a run leaves no row it wrote in progress |
| Provisioning.Retry | web/server/apps-runtime-coordinator.ts:574-604 | over any number of tries with any bindings, fed back with the stored receipts, no name is created twice, and after failing tries everything made is marked |
| Provisioning.PublishAgain | web/server/apps-runtime-coordinator.ts:551-572 | publishing again creates a taken KV or D1 name a second time exactly when neither this deployment's receipts nor the current one's own it |
| Disks.UseWithout | web/server/atomic-json-store.ts:259-272 | disk use is the sum of file sizes in whatever order it is taken |
| AtomicStore.PreparedWrite.BackupLegacyFile | web/server/atomic-json-store.ts:141-162 | every state on the way only adds a copy that counts as complete once synced |
| AtomicStore.PreparedWrite.WriteEnvelope | web/server/atomic-json-store.ts:303-337 | until the rename only the temporary file changes; after it the destination holds the synced new bytes |
| AtomicStore.PreparedWrite.Commit | web/server/atomic-json-store.ts:239-274 | a stop at any point leaves exactly the old or exactly the new bytes, disk use stays within the reservation, failure leaves the destination alone, and legacy bytes stay recoverable iff an existing backup is whole |
| AtomicStore.TornBackupLosesTheFile | web/server/atomic-json-store.ts:141-162 | a backup that is not whole is kept, and the commit then loses the old bytes |
| AtomicStore.AtomicJsonStore.Read | web/server/atomic-json-store.ts:190-218 | an envelope gives its normalized data and revision, bare JSON a legacy value, anything else the default; only a file that cannot be read is moved aside, and exactly then a store set to do so tries |
| AtomicStore.AtomicJsonStore.PrepareWrite | web/server/atomic-json-store.ts:239-274 | conflicts exactly when the expected revision differs, otherwise fixes envelope, bytes, reservation and whether a legacy backup is due |
| AtomicStore.AtomicJsonStore.Write | web/server/atomic-json-store.ts:276-278 | after a stop at any point the file means the old value or the new one; over a legacy file it also leaves the first backup whole |
| AtomicStore.AtomicJsonStore.Update | web/server/atomic-json-store.ts:280-287 | never conflicts when nothing overlaps and moves to the normalized mutation with the next revision, or not at all |
| AtomicStore.AtomicJsonStore.UpdateAll | web/server/atomic-json-store.ts:280-287 | n updates in a row hold the fold of the mutators that went through, revision advanced by their number |
| BrowserControl.NormalizeIsIdempotent | web/server/browser-control-session.ts:45-88 | normalizing any JSON value again, at any later time, changes nothing |
| BrowserControl.NormalizedFields | web/server/browser-control-session.ts:45-88 | every field that normalization makes of any value, valid or not |
| BrowserControl.NormalizedHandoff | web/server/browser-control-session.ts:74-86 | a handoff of the right types is kept, its summary cut at 2000 characters |
| BrowserControl.ReadsReturnWhatWasWritten | web/server/browser-control-session.ts:258-271 | a written state is read back unchanged if and only if its handoff time is finite; otherwise only the handoff is lost |
| BrowserSessions.EpochsNeverDecrease | web/server/browser-control-session.ts:137-252 | over every run with a stop after any write epochs never decrease |
| BrowserSessions.AgentEpochsAreNew | web/server/browser-control-session.ts:169-216 | the agent gets control only from `resuming`, under an epoch above every earlier state but that one |
| BrowserSessions.SupersededEpochsNeverDispatch | web/server/browser-control-session.ts:132-167 | an epoch known before a takeover or stop, or held by an agent before any later write, never passes canDispatch again |
| BrowserSessions.StoppedIsAbsorbing | web/server/browser-control-session.ts:218-252 | nothing is written after `stopped` |
| BrowserSessions.DispatchIdentifiesTheWrite | web/server/browser-control-session.ts:132-135 | an epoch passes canDispatch for one write of the run only |
| BrowserSessions.BrowserControlCoordinator.Get | web/server/browser-control-session.ts:125-130 | returns the last written state, creating the first one when there is no file |
| BrowserSessions.BrowserControlCoordinator.MayDispatch | web/server/browser-control-session.ts:132-135 | answers for the last written state, creating the first one when there is no file |
| BrowserSessions.BrowserControlCoordinator.TakeOver | web/server/browser-control-session.ts:137-167 | writes a prefix of its two states, through the JSON file, and keeps the history a run |
| BrowserSessions.TakeOverMeans | web/server/browser-control-session.ts:137-167 | the two states a takeover writes, field by field, and when it writes none |
| BrowserSessions.BrowserControlCoordinator.Resume | web/server/browser-control-session.ts:169-216 | the same for resuming, with the summary checks before anything is read |
| BrowserSessions.ResumeMeans | web/server/browser-control-session.ts:169-216 | the same for resuming |
| BrowserSessions.BrowserControlCoordinator.Stop | web/server/browser-control-session.ts:218-252 | the same for stopping; an answer means the session is stopped |
| BrowserSessions.StopMeans | web/server/browser-control-session.ts:218-252 | the same for stopping |
| Globs.GlobPattern | web/server/app-build.ts:352-377 | refuses exactly the globs that are empty, absolute, hold a NUL or climb, and otherwise emits the anchored text of the tokens |
| Globs.EmittedTextParses | web/server/app-build.ts:362-376 | the emitted text parses under the `u` flag to the intended expression (section 22.2.1 of ECMA-262) |
| Globs.CompiledGlobMatchesExactly | web/server/app-build.ts:519-522 | for every glob and every path the compiled expression accepts exactly what a direct recursive matcher accepts |
| Globs.PlainOnOneLine | web/server/app-build.ts:519-522 | on paths without line terminators that matcher is the plain reading of `**/`, `**`, `*`, `?` and literals |
| Globs.SplitFindsSegments | web/server/app-build.ts:353-360 | the refused `..` segments are exactly the stretches between slashes |
| Digests.SourceStreamIsInjective | web/server/app-build.ts:317-336 | two file lists with NUL-free names and the same hash input are equal |
| Digests.StreamReadsBack | web/server/app-source-snapshot.ts:96-109 | a decoder reads every file list back from its hash input |
| Digests.ArtifactStreamIsInjective | web/server/app-build.ts:122-148 | header, modules and assets are determined by the hash input for NUL-free headers and names |
| Digests.SourcePreimage | web/server/app-build.ts:314-336 | the loop feeds exactly the framed list and succeeds iff the total is within the limit when sizes are accurate |
| Digests.ArtifactPreimage | web/server/app-build.ts:122-148 | the loops feed exactly header, tagged modules and tagged assets |
| Snapshots.SourceWalk.Walk | web/server/app-source-snapshot.ts:57-94 | succeeds iff everything visited is a file or directory and both limits hold, and lists exactly the files to keep in walk order |
| Snapshots.SourceDigest | web/server/app-source-snapshot.ts:96-109 | feeds exactly the framed listing |
| Snapshots.Volume.CopyFiles | web/server/app-source-snapshot.ts:122-130 | succeeds iff nothing is in the way of any file and then adds exactly the listed files; otherwise exactly those before the first that cannot be created |
| Snapshots.CreateSnapshot | web/server/app-source-snapshot.ts:132-201 | for every tree with distinct sibling names: succeeds iff the walk does and the digest is the expected one; the copy holds exactly the listing |
| Snapshots.RestoreSnapshot | web/server/app-source-snapshot.ts:203-255 | succeeds iff marker, workspace (empty directories included), walk, digest and free paths are in order, and then adds exactly the listing; a restore that fails halfway has written only the files before the one in the way |
| Snapshots.ListingLists | web/server/app-source-snapshot.ts:61-90 | a file is listed if and only if it is in the tree and worth keeping |
| SnapshotTies.RestoresIffTieFree | web/server/app-source-snapshot.ts:57-94 | every sorted copy that the file system may present of a snapshot is restorable into an empty workspace if and only if no two siblings on the way to two kept files compare equal |
| SnapshotTies.RestorableIffListedAlike | web/server/app-source-snapshot.ts:203-255 | restoring asks of a sorted copy exactly that it is listed like its source, for a hash without collisions |
| SnapshotTies.RestoredIsExactlyTheKept | web/server/app-source-snapshot.ts:217-254 | what is restored is exactly the files outside ignored directories and apart from the marker, ties or not |
| SnapshotTies.TiedNamesAreRefused | web/server/app-source-snapshot.ts:61-62 | for any two tied names: the snapshot of the two files is created and some sorted copy of it is refused |
| SnapshotTies.TiesReorderACopy | web/server/app-source-snapshot.ts:61-62 | from every source with a tie between kept files a sorted copy can be built that is walked in another order |
| SnapshotOrder.CopyListsTheSame | web/server/app-source-snapshot.ts:173-200 | without such ties the walk over a copy meets the same files in the same order, so the same limits, as the walk over its source |
| SnapshotTies.PreimageIsInjective | web/server/app-source-snapshot.ts:96-109 | two listings with the same hash input are the same listing, paths included |
| AbuseGuard.CountersAreRight | web/server/apps-cloudflare-abuse.ts:83-95 | with a clock that does not go back the two counters equal the counts over the full log in the current hour and day |
| AbuseGuard.ChargingKeepsLimits | web/server/apps-cloudflare-abuse.ts:96-104 | charging with room keeps every aligned hour and day of the log within its limit |
| AbuseGuard.TemporaryPreviewAbuseGuard.Consume | web/server/apps-cloudflare-abuse.ts:83-105 | charges iff the log has room, and a refusal's wait is the fewest seconds, at least one, that reach the end of the full window |
| AbuseGuard.TemporaryPreviewAbuseGuard.Acquire | web/server/apps-cloudflare-abuse.ts:107-144 | charges both identities or neither; a refusal by the address leaves every count as it was from then on; active counts equal the leases held |
| AbuseGuard.TemporaryPreviewAbuseGuard.Release | web/server/apps-cloudflare-abuse.ts:133-142 | releasing twice is releasing once, and counts keep matching the leases held |
| TailTruncation.TruncatePiBashTail | web/bin/user-space.ts:176-231 | at most 2000 lines and 51200 bytes, a suffix of the text less a final newline, no further whole line could be added, and when each reason is reported |
| TailTruncation.PartialStart | web/bin/user-space.ts:211-217 | the longest suffix in budget that does not begin with a continuation byte |
| TailTruncation.PartialLineKeepsWholeCharacters | web/bin/user-space.ts:211-217 | that suffix is the longest run of whole characters at the end of the line that fits (section 3 of RFC 3629) |
| TailTruncation.KeptLines | web/bin/user-space.ts:223-230 | the joined output splits into no more lines than were put in |
| TailTruncation.JoinSplit | web/bin/user-space.ts:186-190 | joining the lines gives the text back |
| MessageBuffer.BoundedMessageBuffer.Trim | web/server/bounded-message-buffer.ts:94-103 | dropped followed by kept is the old content, the kept part is the longest suffix within both budgets, and what an `undefined` changes |
| MessageBuffer.BoundedMessageBuffer.Append | web/server/bounded-message-buffer.ts:46-58 | refuses exactly the oversized item; an accepted one is never dropped by its own append; counter and budgets hold |
| MessageBuffer.BoundedMessageBuffer.Shift | web/server/bounded-message-buffer.ts:60-64 | removes the oldest item; the counter stays right iff the item is not `undefined` or has size zero |
| MessageBuffer.BoundedMessageBuffer.RemoveAt | web/server/bounded-message-buffer.ts:66-71 | removes exactly the item at a valid index, the counter as for the oldest one |
| MessageBuffer.BoundedMessageBuffer.Replace | web/server/bounded-message-buffer.ts:79-84 | keeps the longest suffix of the new values within both budgets |
| MessageBuffer.BoundedMessageBuffer.TakeAll | web/server/bounded-message-buffer.ts:73-77 | hands out everything and the counter is right whatever was in the buffer |
| MessageBuffer.BoundedMessageBuffer.Make | web/server/bounded-message-buffer.ts:33-44 | refuses limits below one; otherwise the longest suffix of the items within both budgets is kept |
| MessageBuffer.LongestSuffixIsUnique | web/server/bounded-message-buffer.ts:94-103 | the longest suffix within both budgets is one and the same however it is found |
| MessageBuffer.UndefinedStaysInTheCount | web/server/bounded-message-buffer.ts:94-103 | two appends after which the counter is larger than the content |

## Left out

- Permissions, memberships, tenancy, row-level security, slugs and audit rows: every step is taken to be authorized.
- `setAppTarget`, `rename`, `continueDevelopment`, `setSourceSnapshotKey` and custom domains: outside the deployment flow; `setAppTarget` has no generation guard and would only weaken the App invariants.
- Clocks: the database clock and the process clock are one clock that never goes back.
- Identifiers, tokens, idempotency keys and envelopes are numbers; random ones are drawn fresh. Encryption and SHA-256 are not modelled: injectivity is proved of what is hashed.
- AppSafety.ReadyIsTruthful: leaves out the transition from deploying to temporary_ready, with which it is false (AppBypass.BypassReportsReadyFalsely).
- AppSafety.ClaimFailureNeverReportsReady: leaves out the same transition.
- AppClaims.StepsKeepClaims: leaves out the same transition.
- AppFencing.GuardedStepsHoldTheLease: speaks of the writes that check the lease where they write; the receipt write checks it earlier and has its own condition, ReceiptFencing.StoredReceiptIsFencedIffUndisturbed.
- AppFencing.SupersededWritersAreFencedOff: speaks of the same writes; a receipt may be stored late (ReceiptFencing.LateReceiptIsStored).
- The order in which `claimOutbox` hands out rows, and `claimDeploymentOutboxForPrincipal`: any set of claimable rows may be claimed.
- The index of open previews per owner and the one on provider accounts are not modelled.
- The connection table is a machine of its own: a connection named by a target is taken to be usable when it is chosen. Sharing one refresh among callers (`refreshFlights`) only removes runs.
- The control flow of `handleDeploymentTargetQueued` beyond the steps it commits and the provisioning it drives; the timers, start and stop of the outbox worker.
- Provisioning.Retry: generated resource names are taken to differ for different keys; a resource deleted by a user between tries is not modelled; Durable Object bindings are planned receipts only, migration tags are not modelled; metadata validation of receipts is part of a write that may fail.
- AtomicStore.AtomicJsonStore.UpdateAll: assumes that normalized values survive printing and parsing (BrowserControl.ReadsReturnWhatWasWritten says when that is so for browser control) and that nothing else writes the file; `normalize` is a function of its argument.
- File modes, directory syncs that fail silently, and `reconcile` beyond the quarantine it shares with `read`.
- BrowserSessions.EpochsNeverDecrease: calls on one session do not overlap, `forget` is left out, and epochs are unbounded integers rather than doubles; a state file altered by someone else is covered only by BrowserControl.NormalizeIsIdempotent.
- Globs.CompiledGlobMatchesExactly: characters are code points; unpaired surrogates are not modelled.
- Digests.ArtifactPreimage: the JSON header is given as bytes; names are UTF-8 bytes.
- SnapshotTies.RestoresIffTieFree: the comparison is a strict weak order, as a sort needs; names hold no NUL and no slash; the hash has no collisions; path containment checks are implied by paths being lists of names; key and segment syntax checks are not modelled.
- Snapshots.CreateSnapshot: the staging directory's rename and removal are not modelled.
- `beginProofOfWork`: the same counter pattern as the leases, without keys.
- MessageBuffer.BoundedMessageBuffer.Append: item sizes are natural numbers that do not change while the item is in the buffer.
- Manifest and OAuth scope checks, Turnstile, proof of work, readiness probes, HTTP clients, UI, process control and the service worker.
