/**
 What one committed transaction, or one guarded UPDATE, of the App services does to
 the tables.  Each function returns `None` where the service throws and rolls back.
 `Step` lists every such transaction and `Apply` runs one, so a sequence of steps is
 one interleaving of any number of workers, UI calls, OAuth callbacks and sweepers.
 */
module AppSteps {
  import opened Options
  import opened AppTables

  // ----- app_deployments and apps: control plane -----

  ghost function MaxOf(s: set<nat>): (m: nat)
    ensures forall x | x in s :: x <= m
    ensures s == {} ==> m == 0
    ensures s != {} ==> m in s
  {
    if s == {} then 0
    else
      var x :| x in s;
      assert forall y | y in s :: y == x || y in s - {x};
      var rest := MaxOf(s - {x});
      if x < rest then rest else x
  }

  ghost function VersionsOf(db: Database, a: Id): set<nat> {
    set d | d in db.deployments && db.deployments[d].app == a :: db.deployments[d].version
  }

  ghost function NextVersion(db: Database, a: Id): nat {
    MaxOf(VersionsOf(db, a)) + 1
  }

  predicate KeyUsed(db: Database, a: Id, key: Id) {
    exists d | d in db.deployments :: db.deployments[d].app == a && db.deployments[d].key == key
  }

  datatype Publish = Publish(
    app: Id, isNew: bool, deployment: Id, key: Id, session: Id, sessionGeneration: nat,
    artifact: Option<Id>, rollbackOf: Option<Id>)

  /** beginDeployment; `None` covers the errors, and a repeated key changes nothing. */
  ghost function Begin(db: Database, p: Publish): Option<Database> {
    if p.deployment in db.deployments || p.isNew == (p.app in db.apps) then None
    else if KeyUsed(db, p.app, p.key) then Some(db)
    else if !p.isNew && db.apps[p.app].status.Archived? then None
    else if !p.isNew && db.apps[p.app].session == p.session
            && p.sessionGeneration < db.apps[p.app].sessionGeneration then None
    else
      var g := if p.isNew then 1 else db.apps[p.app].generation + 1;
      var app :=
        if p.isNew then App(1, NeedsAction, None, Unassigned, p.session, p.sessionGeneration)
        else db.apps[p.app].(generation := g, status := NeedsAction,
                             session := p.session, sessionGeneration := p.sessionGeneration);
      var row := Deployment(p.app, NextVersion(db, p.app), g, p.key, p.rollbackOf, p.session, p.sessionGeneration,
                            AwaitingTarget, Unassigned, p.artifact, None);
      Some(db.(apps := db.apps[p.app := app], deployments := db.deployments[p.deployment := row]))
  }

  ghost function RollBack(db: Database, a: Id, to: Id, key: Id, newId: Id): Option<Database> {
    if a !in db.apps || newId in db.deployments then None
    else
      var app := db.apps[a];
      if app.status.Archived? || app.status.StatusBuilding? || app.status.StatusDeploying? then None
      else if KeyUsed(db, a, key) then Some(db)
      else if to !in db.deployments || db.deployments[to].app != a || !db.deployments[to].phase.Ready?
              || db.deployments[to].providerVersion.None? then None
      else
        var g := app.generation + 1;
        var source := db.deployments[to];
        var row := Deployment(a, NextVersion(db, a), g, key, Some(to), source.session, source.sessionGeneration,
                              AwaitingTarget, Unassigned, source.artifact, None);
        Some(db.(apps := db.apps[a := app.(generation := g, status := NeedsAction,
                                           session := source.session, sessionGeneration := source.sessionGeneration)],
                 deployments := db.deployments[newId := row]))
  }

  ghost function Archive(db: Database, a: Id): Option<Database> {
    if a !in db.apps then None
    else if db.apps[a].status.Archived? then Some(db)
    else Some(db.(apps := db.apps[a := db.apps[a].(status := Archived, target := Unassigned,
                                                   generation := db.apps[a].generation + 1)]))
  }

  ghost function Restore(db: Database, a: Id): Option<Database> {
    if a !in db.apps || !db.apps[a].status.Archived? then None
    else Some(db.(apps := db.apps[a := db.apps[a].(status := NeedsAction, target := Unassigned,
                                                   generation := db.apps[a].generation + 1)]))
  }

  /** The App row is at generation `g` and `d` is one of its deployments of that generation. */
  predicate AtGeneration(db: Database, a: Id, d: Id, g: nat) {
    && a in db.apps && db.apps[a].generation == g
    && d in db.deployments && db.deployments[d].app == a && db.deployments[d].generation == g
  }

  ghost function WithPhase(ds: map<Id, Deployment>, d: Id, p: Phase): map<Id, Deployment>
    requires d in ds
  {
    ds[d := ds[d].(phase := p)]
  }

  ghost function WithStatus(apps: map<Id, App>, a: Id, s: Status): map<Id, App>
    requires a in apps
  {
    apps[a := apps[a].(status := s)]
  }

  ghost function MarkDeploying(db: Database, a: Id, d: Id, g: nat, t: Token): Option<Database> {
    if !HoldsLease(db, a, g, t) || !AtGeneration(db, a, d, g) then None
    else
      var p := db.deployments[d].phase;
      if !p.Queued? && !p.Provisioning? && !p.Deploying? then None
      else Some(db.(deployments := WithPhase(db.deployments, d, Deploying),
                    apps := WithStatus(db.apps, a, StatusDeploying)))
  }

  /** `temporary` selects the phase temporary_ready; otherwise the deployment becomes ready. */
  ghost function Complete(db: Database, a: Id, d: Id, g: nat, t: Token, temporary: bool,
                          artifact: Id, providerVersion: Id): Option<Database> {
    if !HoldsLease(db, a, g, t) || !AtGeneration(db, a, d, g) then None
    else
      var row := db.deployments[d];
      var phase := if temporary then TemporaryReady else Ready;
      if row.phase == phase then
        if row.providerVersion == Some(providerVersion) && row.artifact == Some(artifact) then Some(db) else None
      else if !row.phase.Deploying? then None
      else
        Some(db.(
          deployments := db.deployments[d := row.(phase := phase, artifact := Some(artifact),
                                                  providerVersion := Some(providerVersion))],
          apps := db.apps[a := db.apps[a].(status := if temporary then Preview else StatusReady,
                                           current := Some(d))]))
  }

  /** The CASE expression of failDeployment, evaluated after the deployment row was failed. */
  ghost function StatusAfterFailure(app: App, ds: map<Id, Deployment>): Status {
    match app.current
    case None => StatusFailed
    case Some(c) => if c in ds && ds[c].phase.Ready? then StatusReady else Preview
  }

  /** failDeployment; the lease is checked only when the caller passes a token. */
  ghost function Fail(db: Database, a: Id, d: Id, g: nat, t: Option<Token>): Option<Database> {
    if (t.Some? && !HoldsLease(db, a, g, t.value)) || !AtGeneration(db, a, d, g) then None
    else if db.deployments[d].phase.Failed? then Some(db)
    else if Terminal(db.deployments[d].phase) then None
    else
      var failed := WithPhase(db.deployments, d, Failed);
      Some(db.(deployments := failed, apps := WithStatus(db.apps, a, StatusAfterFailure(db.apps[a], failed))))
  }

  // ----- app_leases -----

  function ClampTtl(ttl: int): Time {
    if ttl < MIN_LEASE_MS then MIN_LEASE_MS else if ttl > MAX_LEASE_MS then MAX_LEASE_MS else ttl
  }

  /** acquireLease with a token drawn now; `None` when no row is returned. */
  ghost function AcquireLease(db: Database, a: Id, holder: Id, g: nat, ttl: int, t: Token): Option<Database> {
    if t in db.issued || a !in db.apps || db.apps[a].generation != g || db.apps[a].status.Archived? then None
    else if a in db.leases && db.leases[a].expiresAt > db.now && db.leases[a].holder != holder then None
    else Some(db.(leases := db.leases[a := Lease(t, holder, g, db.now + ClampTtl(ttl))], issued := db.issued + {t}))
  }

  ghost function RenewLease(db: Database, a: Id, t: Token, g: nat, ttl: int): Option<Database> {
    if !HoldsLease(db, a, g, t) || a !in db.apps || db.apps[a].generation != g then None
    else Some(db.(leases := db.leases[a := db.leases[a].(expiresAt := db.now + ClampTtl(ttl))]))
  }

  ghost function ReleaseLease(db: Database, a: Id, t: Token): Option<Database> {
    if a !in db.leases || db.leases[a].token != t then None
    else Some(db.(leases := db.leases - {a}))
  }

  // ----- app_operation_outbox -----

  predicate SameKey(r: OutboxRow, a: Id, op: Operation, key: Id) {
    r.app == a && r.operation == op && r.key == key
  }

  function OperationOf(row: Deployment): Operation {
    if row.rollbackOf.Some? then Rollback else Deploy
  }

  /** enqueueDeploymentOutbox: insert, or refresh payload and generation of the row with this key. */
  ghost function Enqueue(db: Database, d: Id, target: Target, newId: Id): map<Id, OutboxRow>
    requires d in db.deployments && newId !in db.outbox
  {
    var row := db.deployments[d];
    var op := OperationOf(row);
    if exists o | o in db.outbox :: SameKey(db.outbox[o], row.app, op, row.key) then
      map o | o in db.outbox ::
        if SameKey(db.outbox[o], row.app, op, row.key)
        then db.outbox[o].(deployment := d, target := target, generation := row.generation)
        else db.outbox[o]
    else
      db.outbox[newId := OutboxRow(row.app, op, row.key, row.generation, d, target, Pending, 0, db.now)]
  }

  predicate Claimable(db: Database, r: OutboxRow) {
    && (r.state.Pending? || (r.state.Leased? && r.state.until <= db.now))
    && r.availableAt <= db.now
  }

  /** claimOutbox takes some set of claimable rows: rows locked elsewhere are skipped. */
  ghost function ClaimOutbox(db: Database, rows: set<Id>, worker: Id, ttl: int): Option<Database> {
    if exists o | o in rows :: o !in db.outbox || !Claimable(db, db.outbox[o]) then None
    else Some(db.(outbox := map o | o in db.outbox ::
      if o in rows
      then db.outbox[o].(state := Leased(worker, db.now + ClampTtl(ttl)), attempts := db.outbox[o].attempts + 1)
      else db.outbox[o]))
  }

  predicate LeasedBy(db: Database, o: Id, worker: Id) {
    o in db.outbox && db.outbox[o].state.Leased? && db.outbox[o].state.owner == worker
  }

  predicate RowIsCurrent(db: Database, r: OutboxRow) {
    r.app in db.apps && db.apps[r.app].generation == r.generation
  }

  ghost function WithOutboxState(db: Database, o: Id, s: OutboxState): Database
    requires o in db.outbox
  {
    db.(outbox := db.outbox[o := db.outbox[o].(state := s)])
  }

  ghost function CompleteOutbox(db: Database, o: Id, worker: Id): Option<Database> {
    if !LeasedBy(db, o, worker) || !RowIsCurrent(db, db.outbox[o]) then None
    else Some(WithOutboxState(db, o, Completed))
  }

  ghost function FailClaimedOutbox(db: Database, o: Id, worker: Id): Option<Database> {
    if !LeasedBy(db, o, worker) then None else Some(WithOutboxState(db, o, OutboxFailed))
  }

  predicate OpenWithKey(db: Database, o: Id, a: Id, op: Operation, key: Id, g: nat) {
    && o in db.outbox && SameKey(db.outbox[o], a, op, key) && db.outbox[o].generation == g
    && (db.outbox[o].state.Pending? || db.outbox[o].state.Leased?)
  }

  /** completeOutboxByKey on the row `o` that the key selects. */
  ghost function CompleteOutboxByKey(
    db: Database, o: Id, a: Id, op: Operation, key: Id, g: nat, t: Token): Option<Database>
  {
    if !OpenWithKey(db, o, a, op, key, g) || !RowIsCurrent(db, db.outbox[o]) || !HoldsLease(db, a, g, t) then None
    else Some(WithOutboxState(db, o, Completed))
  }

  /** failOutboxByKey: unlike completion, it does not look at the App's generation. */
  ghost function FailOutboxByKey(
    db: Database, o: Id, a: Id, op: Operation, key: Id, g: nat, t: Token): Option<Database>
  {
    if !OpenWithKey(db, o, a, op, key, g) || !HoldsLease(db, a, g, t) then None
    else Some(WithOutboxState(db, o, OutboxFailed))
  }

  const MAX_ATTEMPTS := 10

  function Pow2(n: nat): nat {
    if n == 0 then 1 else 2 * Pow2(n - 1)
  }

  /** least(300, 2^least(attempts, 8)) seconds, in milliseconds. */
  function Backoff(attempts: nat): Time {
    var p := Pow2(if attempts < 8 then attempts else 8);
    1_000 * (if p < 300 then p else 300)
  }

  ghost function RetryOutbox(db: Database, o: Id, worker: Id): Option<Database> {
    if !LeasedBy(db, o, worker) then None
    else
      var r := db.outbox[o];
      Some(db.(outbox := db.outbox[o :=
        r.(state := if r.attempts >= MAX_ATTEMPTS then OutboxFailed else Pending,
           availableAt := db.now + Backoff(r.attempts))]))
  }

  // ----- cloudflare_temporary_previews -----

  /** Partial unique index: one provisioning, ready or claiming preview per App. */
  predicate OtherOpenPreview(db: Database, a: Id, except: Id) {
    exists p | p in db.previews :: p != except && db.previews[p].app == a
      && (db.previews[p].status.PreviewProvisioning? || ActivePreview(db.previews[p]))
  }

  ghost function InsertPreview(db: Database, p: Id, a: Id): Option<Database> {
    if p in db.previews || a !in db.apps || OtherOpenPreview(db, a, p) then None
    else Some(db.(previews := db.previews[p := PreviewRow(a, PreviewProvisioning, None, None, db.now, None)]))
  }

  /** The provider answered; the UPDATE has no guard on the row's status. */
  ghost function PreviewProvisioned(db: Database, p: Id, account: Id, secrets: Id, expiresAt: Time): Option<Database> {
    if p !in db.previews || OtherOpenPreview(db, db.previews[p].app, p) then None
    else Some(db.(previews := db.previews[p := db.previews[p].(
      status := PreviewReady, account := Some(account), secrets := Some(secrets), expiresAt := Some(expiresAt))]))
  }

  ghost function PreviewAborted(db: Database, p: Id): Option<Database> {
    if p !in db.previews || !db.previews[p].status.PreviewProvisioning? then None
    else Some(db.(previews := db.previews[p := db.previews[p].(status := PreviewFailed, secrets := None)]))
  }

  predicate PreviewReferenced(db: Database, p: Id) {
    || (exists d | d in db.deployments :: db.deployments[d].target == Temporary(p))
    || (exists a | a in db.apps :: db.apps[a].target == Temporary(p))
  }

  ghost function ReleasePreview(db: Database, p: Id, d: Id): Option<Database> {
    if p !in db.previews || d !in db.deployments || db.deployments[d].app != db.previews[p].app
       || !AtGeneration(db, db.deployments[d].app, d, db.deployments[d].generation)
       || !ActivePreview(db.previews[p]) || PreviewReferenced(db, p) then None
    else Some(db.(previews := db.previews[p := db.previews[p].(status := PreviewFailed, secrets := None)]))
  }

  const ABANDON_AFTER_MS := 600_000

  /** The sweep predicate: the listed rows, or every row past its expiry. */
  predicate Selected(db: Database, only: Option<Id>, p: Id)
    requires p in db.previews
  {
    match only
    case Some(q) => p == q
    case None => db.previews[p].expiresAt.Some? && db.previews[p].expiresAt.value <= db.now
  }

  /** Previews whose deployments and Apps the sweep detaches: newly or already expired. */
  predicate SweptPreview(db: Database, only: Option<Id>, p: Id) {
    && p in db.previews && Selected(db, only, p)
    && (ActivePreview(db.previews[p]) || db.previews[p].status.PreviewExpired?)
  }

  predicate BeforeReady(p: Phase) {
    p.Queued? || p.Provisioning? || p.Deploying? || p.TemporaryReady? || p.ClaimPending? || p.VerifyingClaim?
  }

  function SweepPreviewRow(db: Database, only: Option<Id>, p: Id): PreviewRow
    requires p in db.previews
  {
    var row := db.previews[p];
    if row.status.PreviewProvisioning? && row.createdAt + ABANDON_AFTER_MS <= db.now then row.(status := PreviewFailed)
    else if ActivePreview(row) && Selected(db, only, p) then row.(status := PreviewExpired, secrets := None)
    else row
  }

  predicate SweptDeployment(db: Database, only: Option<Id>, row: Deployment) {
    && row.target.Temporary? && SweptPreview(db, only, row.target.preview)
    && db.previews[row.target.preview].app == row.app && BeforeReady(row.phase)
  }

  predicate SweptApp(db: Database, only: Option<Id>, a: Id)
    requires a in db.apps
  {
    && db.apps[a].target.Temporary? && SweptPreview(db, only, db.apps[a].target.preview)
    && db.previews[db.apps[a].target.preview].app == a
  }

  /** expireTemporaryPreviews: one statement, every part reading the same snapshot. */
  ghost function ExpirePreviews(db: Database, only: Option<Id>): Database {
    db.(
      previews := map p | p in db.previews :: SweepPreviewRow(db, only, p),
      deployments := map d | d in db.deployments ::
        if SweptDeployment(db, only, db.deployments[d])
        then db.deployments[d].(phase := Expired) else db.deployments[d],
      apps := map a | a in db.apps ::
        if SweptApp(db, only, a) then db.apps[a].(status := NeedsAction, target := Unassigned) else db.apps[a])
  }

  /** The deployment a claim opens: the newest of this preview at its App's generation. */
  predicate ClaimRow(db: Database, p: Id, d: Id) {
    && ClaimCandidate(db, p, d)
    && forall e | e in db.deployments && ClaimCandidate(db, p, e) ::
         db.deployments[e].version <= db.deployments[d].version
  }

  predicate ClaimCandidate(db: Database, p: Id, d: Id) {
    && p in db.previews && d in db.deployments && db.deployments[d].target == Temporary(p)
    && db.deployments[d].app == db.previews[p].app
    && AtGeneration(db, db.deployments[d].app, d, db.deployments[d].generation)
  }

  predicate PreviewUsable(db: Database, p: Id) {
    p in db.previews && ActivePreview(db.previews[p])
    && db.previews[p].expiresAt.Some? && db.previews[p].expiresAt.value > db.now
  }

  /** getTemporaryClaimUrl on a usable preview whose claim row is `d`. */
  ghost function OpenClaim(db: Database, p: Id, d: Id): Option<Database> {
    if !PreviewUsable(db, p) || !ClaimRow(db, p, d) then None
    else
      var phase := db.deployments[d].phase;
      if !phase.TemporaryReady? && !phase.ClaimPending? && !phase.VerifyingClaim? then None
      else
        Some(db.(
          deployments := if phase.TemporaryReady? then WithPhase(db.deployments, d, ClaimPending) else db.deployments,
          previews := db.previews[p := db.previews[p].(status := Claiming)]))
  }

  // ----- cloudflare_oauth_states -----

  const OAUTH_LIFETIME_MS := 600_000

  /** The phase update of startOAuth; the row itself is inserted by a later statement. */
  ghost function AwaitOAuth(db: Database, w: OAuthDraft): Option<Database> {
    if !AtGeneration(db, w.app, w.deployment, w.generation) then None
    else
      var phase := db.deployments[w.deployment].phase;
      if w.preview.Some? then
        if phase.ClaimPending? then Some(db.(drafts := db.drafts + {w})) else None
      else if phase.AwaitingTarget? || phase.AwaitingOAuth? then
        Some(db.(deployments := WithPhase(db.deployments, w.deployment, AwaitingOAuth), drafts := db.drafts + {w}))
      else None
  }

  ghost function InsertOAuth(db: Database, w: OAuthDraft, o: Id, verifier: Id): Option<Database> {
    if w !in db.drafts || o in db.oauth then None
    else Some(db.(drafts := db.drafts - {w}, oauth := db.oauth[o :=
      OAuthRow(w.app, w.deployment, w.generation, w.preview, OAuthPending, Some(verifier),
          db.now + OAUTH_LIFETIME_MS)]))
  }

  /** Leaving `pending` clears the verifier; the later updates find it cleared already. */
  ghost function Settle(oauth: map<Id, OAuthRow>, o: Id, s: OAuthStatus): map<Id, OAuthRow>
    requires o in oauth
  {
    oauth[o := oauth[o].(status := s, verifier := None)]
  }

  /** First transaction of finishOAuth: the verifier leaves the table, for exchange or for good. */
  ghost function ConsumeOAuth(db: Database, o: Id): Option<Database> {
    if o !in db.oauth || !db.oauth[o].status.OAuthPending? then None
    else if db.oauth[o].expiresAt <= db.now then Some(db.(oauth := Settle(db.oauth, o, OAuthExpired)))
    else Some(db.(oauth := Settle(db.oauth, o, Exchanging)))
  }

  ghost function ExchangeFailed(db: Database, o: Id): Option<Database> {
    if o !in db.oauth || !db.oauth[o].status.Exchanging? then None
    else Some(db.(oauth := Settle(db.oauth, o, OAuthFailed)))
  }

  /** Finalizing a direct connection: the deployment is queued on the new connection. */
  ghost function FinalizeDirect(db: Database, o: Id, connection: Id, outboxId: Id): Option<Database> {
    if o !in db.oauth || outboxId in db.outbox then None
    else
      var w := db.oauth[o];
      if w.preview.Some? || !AtGeneration(db, w.app, w.deployment, w.generation)
         || !db.deployments[w.deployment].phase.AwaitingOAuth? || !w.status.Exchanging? then None
      else
        var queued := db.(
          deployments := db.deployments[w.deployment :=
            db.deployments[w.deployment].(phase := Queued, target := Byoc(connection))],
          apps := db.apps[w.app := db.apps[w.app].(target := Byoc(connection), status := NeedsAction)],
          oauth := Settle(db.oauth, o, OAuthCompleted));
        Some(queued.(outbox := Enqueue(queued, w.deployment, Byoc(connection), outboxId)))
  }

  predicate AccountMatches(db: Database, w: OAuthRow, account: Id)
    requires w.preview.Some?
  {
    && w.preview.value in db.previews && db.previews[w.preview.value].app == w.app
    && db.previews[w.preview.value].account == Some(account)
  }

  predicate BeingClaimed(p: Phase) {
    p.ClaimPending? || p.VerifyingClaim?
  }

  /** Finalizing a claim with a foreign account: the attempt fails, the claim stays open. */
  ghost function ReportMismatch(db: Database, o: Id, w: OAuthRow): Database
    requires o in db.oauth && w.preview.Some? && w.deployment in db.deployments && w.app in db.apps
  {
    db.(
      oauth := if w.status.Exchanging? then Settle(db.oauth, o, OAuthFailed) else db.oauth,
      deployments := if BeingClaimed(db.deployments[w.deployment].phase)
        then WithPhase(db.deployments, w.deployment, ClaimPending) else db.deployments,
      apps := if db.apps[w.app].target == Temporary(w.preview.value)
        then WithStatus(db.apps, w.app, NeedsAction) else db.apps)
  }

  /** Finalizing a claim with the preview's account: the deployment is ready on the new connection. */
  ghost function FinishClaim(db: Database, o: Id, w: OAuthRow, p: Id, connection: Id): Database
    requires o in db.oauth && w.deployment in db.deployments && w.app in db.apps && p in db.previews
  {
    db.(
      oauth := Settle(db.oauth, o, OAuthCompleted),
      previews := db.previews[p := db.previews[p].(status := Claimed, secrets := None)],
      deployments := db.deployments[w.deployment :=
        db.deployments[w.deployment].(phase := Ready, target := Byoc(connection))],
      apps := db.apps[w.app := db.apps[w.app].(
        target := Byoc(connection), status := StatusReady, current := Some(w.deployment))])
  }

  ghost function FinalizeClaim(db: Database, o: Id, account: Id, connection: Id): Option<Database> {
    if o !in db.oauth then None
    else
      var w := db.oauth[o];
      if w.preview.None? || !AtGeneration(db, w.app, w.deployment, w.generation) then None
      else if !AccountMatches(db, w, account) then Some(ReportMismatch(db, o, w))
      else if !BeingClaimed(db.deployments[w.deployment].phase) || !db.previews[w.preview.value].status.Claiming?
              || db.apps[w.app].target != Temporary(w.preview.value) || !w.status.Exchanging? then None
      else Some(FinishClaim(db, o, w, w.preview.value, connection))
  }

  /** The app_deployments UPDATE of failOAuthAttempt. */
  ghost function FailClaimRow(ds: map<Id, Deployment>, w: OAuthRow): map<Id, Deployment> {
    if w.deployment in ds && ds[w.deployment].app == w.app && ds[w.deployment].generation == w.generation
       && BeingClaimed(ds[w.deployment].phase)
    then WithPhase(ds, w.deployment, Failed) else ds
  }

  /** The apps UPDATE of failOAuthAttempt, including its `else 'ready'` arm. */
  function StatusAfterOAuthFailure(app: App, deployment: Id): Status {
    if app.current.None? || app.current == Some(deployment) then StatusFailed else StatusReady
  }

  ghost function FailClaimApp(apps: map<Id, App>, w: OAuthRow): map<Id, App> {
    if w.app in apps && apps[w.app].generation == w.generation
    then WithStatus(apps, w.app, StatusAfterOAuthFailure(apps[w.app], w.deployment)) else apps
  }

  /** failOAuthAttempt runs for a consumed attempt; only its first UPDATE looks at the attempt's status. */
  ghost function FailOAuthAttempt(db: Database, o: Id): Option<Database> {
    if o !in db.oauth || db.oauth[o].status.OAuthPending? then None
    else
      var w := db.oauth[o];
      var oauth := if w.status.Exchanging? then Settle(db.oauth, o, OAuthFailed) else db.oauth;
      if w.preview.None? then Some(db.(oauth := oauth))
      else Some(db.(oauth := oauth, deployments := FailClaimRow(db.deployments, w), apps := FailClaimApp(db.apps, w)))
  }

  ghost function CancelOAuth(db: Database, o: Id): Option<Database> {
    if o !in db.oauth || !db.oauth[o].status.OAuthPending? then None
    else
      var w := db.oauth[o];
      if !AtGeneration(db, w.app, w.deployment, w.generation) then None
      else
        var row := db.deployments[w.deployment];
        var allowed := if w.preview.Some? then row.phase.ClaimPending? && row.target == Temporary(w.preview.value)
                       else row.phase.AwaitingOAuth? || row.phase.AwaitingTarget?;
        if !allowed then None
        else
          var retry := if w.preview.Some? then ClaimPending else AwaitingOAuth;
          Some(db.(deployments := WithPhase(db.deployments, w.deployment, retry),
                   apps := WithStatus(db.apps, w.app, NeedsAction),
                   oauth := Settle(db.oauth, o, OAuthFailed)))
  }

  predicate OverdueOAuth(db: Database, w: OAuthRow) {
    w.status.OAuthPending? && w.expiresAt <= db.now
  }

  ghost function ExpireOAuth(db: Database): Database {
    db.(oauth := map o | o in db.oauth ::
      if OverdueOAuth(db, db.oauth[o]) then db.oauth[o].(status := OAuthExpired, verifier := None) else db.oauth[o])
  }

  // ----- target selection and trusted transitions -----

  /** A connection is usable when the caller's lookup of it succeeded; a preview must be open, unexpired and of this
      App. */
  predicate UsableTarget(db: Database, a: Id, target: Target) {
    target.Byoc? || (target.Temporary? && PreviewUsable(db, target.preview) && db.previews[target.preview].app == a)
  }

  ghost function SelectTarget(db: Database, d: Id, target: Target, outboxId: Id): Option<Database> {
    if d !in db.deployments || outboxId in db.outbox || target.Unassigned? then None
    else
      var row := db.deployments[d];
      if !AtGeneration(db, row.app, d, row.generation) || (target.Temporary? && row.rollbackOf.Some?) then None
      else if !row.phase.AwaitingTarget? then
        if row.target != target then None
        else if row.phase.Queued? || row.phase.Provisioning? || row.phase.Deploying?
        then Some(db.(outbox := Enqueue(db, d, target, outboxId)))
        else Some(db)
      else if !UsableTarget(db, row.app, target) then None
      else
        var queued := db.(
          deployments := db.deployments[d := row.(phase := Queued, target := target)],
          apps := db.apps[row.app := db.apps[row.app].(target := target)]);
        Some(queued.(outbox := Enqueue(queued, d, target, outboxId)))
  }

  /** The table of transitionDeploymentPhase. */
  predicate AllowedTransition(from: Phase, to: Phase) {
    || (from.Queued? && to.Provisioning?)
    || (from.Provisioning? && (to.Deploying? || to.Failed?))
    || (from.Deploying? && (to.TemporaryReady? || to.Ready? || to.Failed?))
    || (from.TemporaryReady? && (to.ClaimPending? || to.Expired?))
    || (from.ClaimPending? && (to.VerifyingClaim? || to.Expired?))
    || (from.VerifyingClaim? && (to.Ready? || to.Failed?))
  }

  /** transitionDeploymentPhase: it checks the deployment's generation, not the App's. */
  ghost function Transition(db: Database, d: Id, g: nat, t: Token, from: Phase, to: Phase): Option<Database> {
    if !AllowedTransition(from, to) || d !in db.deployments then None
    else
      var row := db.deployments[d];
      if row.app !in db.apps || row.generation != g || row.phase != from || !HoldsLease(db, row.app, g, t) then None
      else Some(db.(deployments := WithPhase(db.deployments, d, to)))
  }

  /** The apps UPDATE of revokeConnection. */
  ghost function UnlinkConnection(db: Database, c: Id): Database {
    db.(apps := map a | a in db.apps ::
      if db.apps[a].target == Byoc(c) then db.apps[a].(target := Unassigned) else db.apps[a])
  }

  // ----- app_resource_receipts -----

  predicate TakesReceipts(p: Phase) {
    || p.Provisioning? || p.Deploying? || p.TemporaryReady? || p.ClaimPending? || p.VerifyingClaim?
    || p.Ready? || p.Failed?
  }

  /** The caller holds the App's lease at the generation of both the App and the deployment. */
  predicate Fenced(db: Database, a: Id, d: Id, g: nat, t: Token) {
    HoldsLease(db, a, g, t) && AtGeneration(db, a, d, g)
  }

  /** The SELECT of recordResourceReceipt: the only statement that looks at the lease. */
  ghost function CheckReceipt(db: Database, c: Id, w: ReceiptCall): Option<Database> {
    if c in db.receipts.calls || w.done || !Fenced(db, w.app, w.at.deployment, w.generation, w.token) then None
    else
      var row := db.deployments[w.at.deployment];
      if !TakesReceipts(row.phase) || row.target.Unassigned? || (row.target.Temporary? && w.at.kind.BindingKind?)
      then None
      else Some(db.(receipts := db.receipts.(calls := db.receipts.calls[c := w])))
  }

  /** Its upsert, a statement of its own: only a row of the same owner is replaced. */
  ghost function StoreReceipt(db: Database, c: Id): Option<Database> {
    var Receipts(rows, calls) := db.receipts;
    if c !in calls || calls[c].done then None
    else
      var w := calls[c];
      if w.at in rows && rows[w.at].created != w.row.created then None
      else Some(db.(receipts := Receipts(rows[w.at := w.row], calls[c := w.(done := true)])))
  }

  // ----- interleavings -----

  datatype ControlStep =
    | DoBegin(publish: Publish)
    | DoRollBack(app: Id, restored: Id, key: Id, newId: Id)
    | DoArchive(app: Id)
    | DoRestore(app: Id)
    | DoMarkDeploying(app: Id, deployment: Id, generation: nat, token: Token)
    | DoComplete(app: Id, deployment: Id, generation: nat, token: Token, temporary: bool, artifact: Id,
        providerVersion: Id)
    | DoFail(app: Id, deployment: Id, generation: nat, maybeToken: Option<Token>)

  datatype LeaseStep =
    | DoAcquire(app: Id, holder: Id, generation: nat, ttl: int, token: Token)
    | DoRenew(app: Id, token: Token, generation: nat, ttl: int)
    | DoRelease(app: Id, token: Token)

  datatype OutboxStep =
    | DoClaim(rows: set<Id>, worker: Id, ttl: int)
    | DoCompleteClaimed(row: Id, worker: Id)
    | DoFailClaimed(row: Id, worker: Id)
    | DoRetry(row: Id, worker: Id)
    | DoCompleteByKey(row: Id, app: Id, operation: Operation, key: Id, generation: nat, token: Token)
    | DoFailByKey(row: Id, app: Id, operation: Operation, key: Id, generation: nat, token: Token)

  datatype PreviewStep =
    | DoInsertPreview(preview: Id, app: Id)
    | DoProvisioned(preview: Id, account: Id, secrets: Id, expiresAt: Time)
    | DoAborted(preview: Id)
    | DoReleasePreview(preview: Id, deployment: Id)
    | DoExpirePreviews(only: Option<Id>)
    | DoOpenClaim(preview: Id, deployment: Id)

  datatype OAuthStep =
    | DoAwait(draft: OAuthDraft)
    | DoInsertAttempt(draft: OAuthDraft, attempt: Id, verifier: Id)
    | DoConsume(attempt: Id)
    | DoExchangeFailed(attempt: Id)
    | DoFinalizeDirect(attempt: Id, connection: Id, newId: Id)
    | DoFinalizeClaim(attempt: Id, account: Id, connection: Id)
    | DoFailAttempt(attempt: Id)
    | DoCancel(attempt: Id)
    | DoExpireAttempts

  datatype TargetStep =
    | DoSelect(deployment: Id, target: Target, newId: Id)
    | DoTransition(deployment: Id, generation: nat, token: Token, from: Phase, to: Phase)
    | DoUnlink(connection: Id)

  datatype ReceiptStep =
    | DoCheckReceipt(call: Id, write: ReceiptCall)
    | DoStoreReceipt(call: Id)

  datatype Step =
    | Tick(time: Time)
    | Control(control: ControlStep)
    | Leasing(lease: LeaseStep)
    | Queueing(outbox: OutboxStep)
    | Previewing(preview: PreviewStep)
    | Connecting(oauth: OAuthStep)
    | Targeting(target: TargetStep)
    | Recording(receipt: ReceiptStep)

  ghost function TryControl(db: Database, s: ControlStep): Option<Database> {
    match s
    case DoBegin(p) => Begin(db, p)
    case DoRollBack(a, to, key, newId) => RollBack(db, a, to, key, newId)
    case DoArchive(a) => Archive(db, a)
    case DoRestore(a) => Restore(db, a)
    case DoMarkDeploying(a, d, g, t) => MarkDeploying(db, a, d, g, t)
    case DoComplete(a, d, g, t, temporary, artifact, v) => Complete(db, a, d, g, t, temporary, artifact, v)
    case DoFail(a, d, g, t) => Fail(db, a, d, g, t)
  }

  ghost function TryLease(db: Database, s: LeaseStep): Option<Database> {
    match s
    case DoAcquire(a, h, g, ttl, t) => AcquireLease(db, a, h, g, ttl, t)
    case DoRenew(a, t, g, ttl) => RenewLease(db, a, t, g, ttl)
    case DoRelease(a, t) => ReleaseLease(db, a, t)
  }

  ghost function TryOutbox(db: Database, s: OutboxStep): Option<Database> {
    match s
    case DoClaim(rows, w, ttl) => ClaimOutbox(db, rows, w, ttl)
    case DoCompleteClaimed(o, w) => CompleteOutbox(db, o, w)
    case DoFailClaimed(o, w) => FailClaimedOutbox(db, o, w)
    case DoRetry(o, w) => RetryOutbox(db, o, w)
    case DoCompleteByKey(o, a, op, key, g, t) => CompleteOutboxByKey(db, o, a, op, key, g, t)
    case DoFailByKey(o, a, op, key, g, t) => FailOutboxByKey(db, o, a, op, key, g, t)
  }

  ghost function TryPreview(db: Database, s: PreviewStep): Option<Database> {
    match s
    case DoInsertPreview(p, a) => InsertPreview(db, p, a)
    case DoProvisioned(p, account, secrets, e) => PreviewProvisioned(db, p, account, secrets, e)
    case DoAborted(p) => PreviewAborted(db, p)
    case DoReleasePreview(p, d) => ReleasePreview(db, p, d)
    case DoExpirePreviews(only) => Some(ExpirePreviews(db, only))
    case DoOpenClaim(p, d) => OpenClaim(db, p, d)
  }

  ghost function TryOAuth(db: Database, s: OAuthStep): Option<Database> {
    match s
    case DoAwait(w) => AwaitOAuth(db, w)
    case DoInsertAttempt(w, o, verifier) => InsertOAuth(db, w, o, verifier)
    case DoConsume(o) => ConsumeOAuth(db, o)
    case DoExchangeFailed(o) => ExchangeFailed(db, o)
    case DoFinalizeDirect(o, c, newId) => FinalizeDirect(db, o, c, newId)
    case DoFinalizeClaim(o, account, c) => FinalizeClaim(db, o, account, c)
    case DoFailAttempt(o) => FailOAuthAttempt(db, o)
    case DoCancel(o) => CancelOAuth(db, o)
    case DoExpireAttempts => Some(ExpireOAuth(db))
  }

  ghost function TryTarget(db: Database, s: TargetStep): Option<Database> {
    match s
    case DoSelect(d, target, newId) => SelectTarget(db, d, target, newId)
    case DoTransition(d, g, t, from, to) => Transition(db, d, g, t, from, to)
    case DoUnlink(c) => Some(UnlinkConnection(db, c))
  }

  ghost function TryReceipt(db: Database, s: ReceiptStep): Option<Database> {
    match s
    case DoCheckReceipt(c, w) => CheckReceipt(db, c, w)
    case DoStoreReceipt(c) => StoreReceipt(db, c)
  }

  /** The state a step commits, or `None` when it throws. */
  ghost function Try(db: Database, s: Step): Option<Database> {
    match s
    case Tick(t) => if t < db.now then None else Some(db.(now := t))
    case Control(c) => TryControl(db, c)
    case Leasing(l) => TryLease(db, l)
    case Queueing(q) => TryOutbox(db, q)
    case Previewing(p) => TryPreview(db, p)
    case Connecting(c) => TryOAuth(db, c)
    case Targeting(t) => TryTarget(db, t)
    case Recording(r) => TryReceipt(db, r)
  }

  ghost function Apply(db: Database, s: Step): Database {
    match Try(db, s)
    case None => db
    case Some(next) => next
  }

  /** One interleaving: a state before, between and after the steps, starting with empty tables. */
  ghost predicate IsRun(states: seq<Database>, steps: seq<Step>) {
    && |states| == |steps| + 1
    && states[0] == EMPTY
    && forall i | 0 <= i < |steps| :: states[i + 1] == Apply(states[i], steps[i])
  }

  /** All edges of the transition table but the one that serves a preview without making it current; the deployment
      coordinator only ever requests the edge from queued to provisioning. */
  predicate ServesByCompletion(s: Step) {
    !(s.Targeting? && s.target.DoTransition? && s.target.from.Deploying? && s.target.to.TemporaryReady?)
  }
}
