/**
 Generations, versions and phases.  `CoreInv` holds in every reachable state of the apps
 and app_deployments tables and `CoreEvolves` relates the tables before and after any step.
 A few shapes of update (`RowStep`, `PublishStep`, ...) carry the argument; every transaction
 that touches the two tables has one of these shapes.
 */
module AppCore {
  import opened Options
  import opened AppTables
  import opened AppSteps
  import opened AppFrames

  type Apps = map<Id, App>
  type Deployments = map<Id, Deployment>

  /** Every deployment belongs to an App and was created at a generation the App has reached. */
  ghost predicate DeploymentsFit(apps: Apps, ds: Deployments) {
    forall d | d in ds :: ds[d].app in apps && 1 <= ds[d].generation <= apps[ds[d].app].generation
  }

  predicate RowsOrdered(d: Id, r: Deployment, e: Id, q: Deployment) {
    r.app == q.app ==>
      && (r.generation == q.generation ==> d == e)
      && (r.key == q.key ==> d == e)
      && (r.generation < q.generation <==> r.version < q.version)
  }

  /** Within one App a generation, like an idempotency key, names one deployment, and versions order as generations
      do. */
  ghost predicate Ordered(ds: Deployments) {
    forall d, e | d in ds && e in ds :: RowsOrdered(d, ds[d], e, ds[e])
  }

  ghost predicate CurrentFits(apps: Apps, ds: Deployments) {
    forall a | a in apps && apps[a].current.Some? ::
      apps[a].current.value in ds && ds[apps[a].current.value].app == a
  }

  ghost predicate CoreInv(apps: Apps, ds: Deployments) {
    DeploymentsFit(apps, ds) && Ordered(ds) && CurrentFits(apps, ds)
  }

  /** Progress of a deployment; claim_pending and verifying_claim may alternate, so they share a rank. */
  function Rank(p: Phase): nat {
    match p
    case Building => 0
    case AwaitingTarget => 1
    case AwaitingOAuth => 2
    case Queued => 3
    case Provisioning => 4
    case Deploying => 5
    case TemporaryReady => 6
    case ClaimPending | VerifyingClaim => 7
    case Ready | Expired | Failed | Cancelled => 8
  }

  predicate RowEvolves(r: Deployment, r': Deployment) {
    && r'.app == r.app && r'.version == r.version && r'.generation == r.generation
    && r'.key == r.key && r'.rollbackOf == r.rollbackOf
    && Rank(r.phase) <= Rank(r'.phase)
    && (Terminal(r.phase) ==> r'.phase == r.phase)
  }

  ghost predicate DeploymentsEvolve(ds: Deployments, ds': Deployments) {
    forall d | d in ds :: d in ds' && RowEvolves(ds[d], ds'[d])
  }

  function VersionOf(ds: Deployments, c: Option<Id>): nat {
    if c.Some? && c.value in ds then ds[c.value].version else 0
  }

  /** Generations grow, and the current deployment is only replaced by a newer one, that of the present generation. */
  predicate AppEvolves(a: Id, app: App, ds: Deployments, app': App, ds': Deployments) {
    && app.generation <= app'.generation
    && VersionOf(ds, app.current) <= VersionOf(ds', app'.current)
    && (app'.current != app.current ==>
        && app'.generation == app.generation && app'.current.Some?
        && NamesDeployment(ds, app'.current.value, a, app.generation))
  }

  predicate NamesDeployment(ds: Deployments, d: Id, a: Id, g: nat) {
    d in ds && ds[d].app == a && ds[d].generation == g
  }

  ghost predicate AppsEvolve(apps: Apps, ds: Deployments, apps': Apps, ds': Deployments) {
    forall a | a in apps :: a in apps' && AppEvolves(a, apps[a], ds, apps'[a], ds')
  }

  ghost predicate CoreEvolves(apps: Apps, ds: Deployments, apps': Apps, ds': Deployments) {
    AppsEvolve(apps, ds, apps', ds') && DeploymentsEvolve(ds, ds')
  }

  ghost predicate CoreKept(apps: Apps, ds: Deployments, apps': Apps, ds': Deployments) {
    CoreInv(apps', ds') && CoreEvolves(apps, ds, apps', ds')
  }

  // ----- shapes of update -----

  lemma CoreFrame(apps: Apps, ds: Deployments)
    requires CoreInv(apps, ds)
    ensures CoreKept(apps, ds, apps, ds)
  {
  }

  /** Any deployments advance in place; Apps keep their generation and current deployment. */
  lemma BulkStep(apps: Apps, ds: Deployments, apps': Apps, ds': Deployments)
    requires CoreInv(apps, ds)
    requires apps'.Keys == apps.Keys && ds'.Keys == ds.Keys
    requires forall a | a in apps :: apps'[a].generation == apps[a].generation && apps'[a].current == apps[a].current
    requires DeploymentsEvolve(ds, ds')
    ensures CoreKept(apps, ds, apps', ds')
  {
    forall d, e | d in ds' && e in ds'
      ensures RowsOrdered(d, ds'[d], e, ds'[e])
    {
      assert RowsOrdered(d, ds[d], e, ds[e]);
    }
  }

  /** Advancing one deployment and its App's row, without a new generation. */
  lemma RowStep(apps: Apps, ds: Deployments, a: Id, d: Id, app: App, row: Deployment)
    requires CoreInv(apps, ds) && a in apps && d in ds && ds[d].app == a
    requires app.generation == apps[a].generation && RowEvolves(ds[d], row)
    requires app.current == apps[a].current || (app.current == Some(d) && row.generation == app.generation)
    ensures CoreKept(apps, ds, apps[a := app], ds[d := row])
  {
    var middle := apps[a := app.(current := apps[a].current)];
    BulkStep(apps, ds, middle, ds[d := row]);
    if app.current == Some(d) && apps[a].current.Some? {
      var c := apps[a].current.value;
      assert RowsOrdered(c, ds[c], d, ds[d]) && RowsOrdered(d, ds[d], c, ds[c]);
    }
  }

  /** A new generation without a new deployment. */
  lemma BumpStep(apps: Apps, ds: Deployments, a: Id, app: App)
    requires CoreInv(apps, ds) && a in apps
    requires app.generation >= apps[a].generation && app.current == apps[a].current
    ensures CoreKept(apps, ds, apps[a := app], ds)
  {
  }

  lemma NextVersionIsNewest(db: Database, a: Id, d: Id)
    requires d in db.deployments && db.deployments[d].app == a
    ensures db.deployments[d].version < NextVersion(db, a)
  {
    assert db.deployments[d].version in VersionsOf(db, a);
  }

  lemma PublishedIsOrdered(db: Database, d: Id, row: Deployment)
    requires Ordered(db.deployments) && d !in db.deployments && row.version == NextVersion(db, row.app)
    requires forall e | e in db.deployments && db.deployments[e].app == row.app ::
      db.deployments[e].generation < row.generation && db.deployments[e].key != row.key
    ensures Ordered(db.deployments[d := row])
  {
    var ds := db.deployments;
    forall e | e in ds
      ensures RowsOrdered(d, row, e, ds[e]) && RowsOrdered(e, ds[e], d, row)
    {
      if ds[e].app == row.app {
        NextVersionIsNewest(db, row.app, e);
      }
    }
    assert forall e, f | e in ds && f in ds :: RowsOrdered(e, ds[e], f, ds[f]);
  }

  /** A new generation and its one deployment. */
  lemma PublishStep(db: Database, a: Id, d: Id, app: App, row: Deployment)
    requires CoreInv(db.apps, db.deployments) && d !in db.deployments && row.app == a
    requires app.generation == row.generation
    requires if a in db.apps then app.generation == db.apps[a].generation + 1 && app.current == db.apps[a].current
             else app.generation == 1 && app.current.None?
    requires row.version == NextVersion(db, a) && !KeyUsed(db, a, row.key)
    ensures CoreKept(db.apps, db.deployments, db.apps[a := app], db.deployments[d := row])
  {
    hide Ordered, NextVersion;
    PublishedIsOrdered(db, d, row);
  }

  // ----- the transactions -----

  ghost predicate StepKeepsCore(db: Database, r: Option<Database>) {
    r.Some? ==> CoreKept(db.apps, db.deployments, r.value.apps, r.value.deployments)
  }

  lemma BeginKeepsCore(db: Database, p: Publish)
    requires CoreInv(db.apps, db.deployments)
    ensures StepKeepsCore(db, Begin(db, p))
  {
    var r := Begin(db, p);
    if r.Some? {
      if KeyUsed(db, p.app, p.key) {
        CoreFrame(db.apps, db.deployments);
      } else {
        PublishStep(db, p.app, p.deployment, r.value.apps[p.app], r.value.deployments[p.deployment]);
      }
    }
  }

  lemma RollBackKeepsCore(db: Database, a: Id, to: Id, key: Id, newId: Id)
    requires CoreInv(db.apps, db.deployments)
    ensures StepKeepsCore(db, RollBack(db, a, to, key, newId))
  {
    var r := RollBack(db, a, to, key, newId);
    if r.Some? {
      if KeyUsed(db, a, key) {
        CoreFrame(db.apps, db.deployments);
      } else {
        PublishStep(db, a, newId, r.value.apps[a], r.value.deployments[newId]);
      }
    }
  }

  /** A transaction that writes at most one deployment and that deployment's App. */
  lemma RowTransaction(db: Database, r: Option<Database>, a: Id, d: Id)
    requires CoreInv(db.apps, db.deployments)
    requires r.Some? ==>
      && a in db.apps && d in db.deployments && db.deployments[d].app == a
      && a in r.value.apps && d in r.value.deployments
      && r.value.apps == db.apps[a := r.value.apps[a]]
      && r.value.deployments == db.deployments[d := r.value.deployments[d]]
      && r.value.apps[a].generation == db.apps[a].generation
      && RowEvolves(db.deployments[d], r.value.deployments[d])
      && (r.value.apps[a].current == db.apps[a].current
          || (r.value.apps[a].current == Some(d) && db.deployments[d].generation == db.apps[a].generation))
    ensures StepKeepsCore(db, r)
  {
    if r.Some? {
      RowStep(db.apps, db.deployments, a, d, r.value.apps[a], r.value.deployments[d]);
    }
  }

  lemma BumpsKeepCore(db: Database, a: Id)
    requires CoreInv(db.apps, db.deployments)
    ensures StepKeepsCore(db, Archive(db, a)) && StepKeepsCore(db, Restore(db, a))
  {
    hide CoreInv, CoreKept;
    CoreFrame(db.apps, db.deployments);
    if a in db.apps {
      var bumped := db.apps[a].(target := Unassigned, generation := db.apps[a].generation + 1);
      BumpStep(db.apps, db.deployments, a, bumped.(status := Archived));
      BumpStep(db.apps, db.deployments, a, bumped.(status := NeedsAction));
    }
  }

  lemma MarkDeployingKeepsCore(db: Database, a: Id, d: Id, g: nat, t: Token)
    requires CoreInv(db.apps, db.deployments)
    ensures StepKeepsCore(db, MarkDeploying(db, a, d, g, t))
  {
    hide CoreInv, CoreKept;
    RowTransaction(db, MarkDeploying(db, a, d, g, t), a, d);
  }

  lemma CompleteKeepsCore(db: Database, a: Id, d: Id, g: nat, t: Token, temporary: bool, artifact: Id, v: Id)
    requires CoreInv(db.apps, db.deployments)
    ensures StepKeepsCore(db, Complete(db, a, d, g, t, temporary, artifact, v))
  {
    hide CoreInv, CoreKept;
    RowTransaction(db, Complete(db, a, d, g, t, temporary, artifact, v), a, d);
  }

  lemma FailKeepsCore(db: Database, a: Id, d: Id, g: nat, t: Option<Token>)
    requires CoreInv(db.apps, db.deployments)
    ensures StepKeepsCore(db, Fail(db, a, d, g, t))
  {
    hide CoreInv, CoreKept;
    RowTransaction(db, Fail(db, a, d, g, t), a, d);
  }

  lemma ControlKeepsCore(db: Database, s: ControlStep)
    requires CoreInv(db.apps, db.deployments)
    ensures StepKeepsCore(db, TryControl(db, s))
  {
    hide CoreInv, CoreKept;
    match s
    case DoBegin(p) => BeginKeepsCore(db, p);
    case DoRollBack(a, to, key, newId) => RollBackKeepsCore(db, a, to, key, newId);
    case DoArchive(a) => BumpsKeepCore(db, a);
    case DoRestore(a) => BumpsKeepCore(db, a);
    case DoMarkDeploying(a, d, g, t) => MarkDeployingKeepsCore(db, a, d, g, t);
    case DoComplete(a, d, g, t, temporary, artifact, v) => CompleteKeepsCore(db, a, d, g, t, temporary, artifact, v);
    case DoFail(a, d, g, t) => FailKeepsCore(db, a, d, g, t);
  }

  lemma ExpirePreviewsKeepsCore(db: Database, only: Option<Id>)
    requires CoreInv(db.apps, db.deployments)
    ensures StepKeepsCore(db, Some(ExpirePreviews(db, only)))
  {
    hide CoreInv, CoreKept;
    var db' := ExpirePreviews(db, only);
    BulkStep(db.apps, db.deployments, db'.apps, db'.deployments);
  }

  lemma OpenClaimKeepsCore(db: Database, p: Id, d: Id)
    requires CoreInv(db.apps, db.deployments)
    ensures StepKeepsCore(db, OpenClaim(db, p, d))
  {
    hide CoreInv, CoreKept;
    if OpenClaim(db, p, d).Some? {
      RowTransaction(db, OpenClaim(db, p, d), db.deployments[d].app, d);
    }
  }

  lemma PreviewKeepsCore(db: Database, s: PreviewStep)
    requires CoreInv(db.apps, db.deployments)
    ensures StepKeepsCore(db, TryPreview(db, s))
  {
    hide CoreInv, CoreKept;
    match s
    case DoExpirePreviews(only) => ExpirePreviewsKeepsCore(db, only);
    case DoOpenClaim(p, d) => OpenClaimKeepsCore(db, p, d);
    case _ => CoreFrame(db.apps, db.deployments);
  }

  lemma AwaitOAuthKeepsCore(db: Database, w: OAuthDraft)
    requires CoreInv(db.apps, db.deployments)
    ensures StepKeepsCore(db, AwaitOAuth(db, w))
  {
    hide CoreInv, CoreKept;
    RowTransaction(db, AwaitOAuth(db, w), w.app, w.deployment);
  }

  lemma FinalizeDirectKeepsCore(db: Database, o: Id, connection: Id, outboxId: Id)
    requires CoreInv(db.apps, db.deployments)
    ensures StepKeepsCore(db, FinalizeDirect(db, o, connection, outboxId))
  {
    hide CoreInv, CoreKept, Enqueue;
    if o in db.oauth {
      RowTransaction(db, FinalizeDirect(db, o, connection, outboxId), db.oauth[o].app, db.oauth[o].deployment);
    }
  }

  lemma FinalizeClaimKeepsCore(db: Database, o: Id, account: Id, connection: Id)
    requires CoreInv(db.apps, db.deployments)
    ensures StepKeepsCore(db, FinalizeClaim(db, o, account, connection))
  {
    hide CoreInv, CoreKept;
    if o in db.oauth {
      RowTransaction(db, FinalizeClaim(db, o, account, connection), db.oauth[o].app, db.oauth[o].deployment);
    }
  }

  /** failOAuthAttempt guards its two UPDATEs separately, so either may find nothing to do. */
  lemma FailClaimStep(apps: Apps, ds: Deployments, w: OAuthRow)
    requires CoreInv(apps, ds)
    ensures CoreKept(apps, ds, FailClaimApp(apps, w), FailClaimRow(ds, w))
  {
    hide CoreInv, CoreKept;
    BulkStep(apps, ds, FailClaimApp(apps, w), FailClaimRow(ds, w));
  }

  lemma FailAttemptKeepsCore(db: Database, o: Id)
    requires CoreInv(db.apps, db.deployments)
    ensures StepKeepsCore(db, FailOAuthAttempt(db, o))
  {
    hide CoreInv, CoreKept, Settle, FailClaimApp, FailClaimRow;
    CoreFrame(db.apps, db.deployments);
    if o in db.oauth {
      FailClaimStep(db.apps, db.deployments, db.oauth[o]);
    }
  }

  lemma CancelOAuthKeepsCore(db: Database, o: Id)
    requires CoreInv(db.apps, db.deployments)
    ensures StepKeepsCore(db, CancelOAuth(db, o))
  {
    hide CoreInv, CoreKept;
    if o in db.oauth {
      RowTransaction(db, CancelOAuth(db, o), db.oauth[o].app, db.oauth[o].deployment);
    }
  }

  lemma OAuthKeepsCore(db: Database, s: OAuthStep)
    requires CoreInv(db.apps, db.deployments)
    ensures StepKeepsCore(db, TryOAuth(db, s))
  {
    hide CoreInv, CoreKept;
    match s
    case DoAwait(w) => AwaitOAuthKeepsCore(db, w);
    case DoFinalizeDirect(o, c, newId) => FinalizeDirectKeepsCore(db, o, c, newId);
    case DoFinalizeClaim(o, account, c) => FinalizeClaimKeepsCore(db, o, account, c);
    case DoFailAttempt(o) => FailAttemptKeepsCore(db, o);
    case DoCancel(o) => CancelOAuthKeepsCore(db, o);
    case _ => CoreFrame(db.apps, db.deployments);
  }

  lemma SelectTargetKeepsCore(db: Database, d: Id, target: Target, outboxId: Id)
    requires CoreInv(db.apps, db.deployments)
    ensures StepKeepsCore(db, SelectTarget(db, d, target, outboxId))
  {
    hide CoreInv, CoreKept, Enqueue;
    if d in db.deployments {
      RowTransaction(db, SelectTarget(db, d, target, outboxId), db.deployments[d].app, d);
    }
  }

  lemma TransitionKeepsCore(db: Database, d: Id, g: nat, t: Token, from: Phase, to: Phase)
    requires CoreInv(db.apps, db.deployments)
    ensures StepKeepsCore(db, Transition(db, d, g, t, from, to))
  {
    hide CoreInv, CoreKept;
    if d in db.deployments {
      RowTransaction(db, Transition(db, d, g, t, from, to), db.deployments[d].app, d);
    }
  }

  lemma TargetKeepsCore(db: Database, s: TargetStep)
    requires CoreInv(db.apps, db.deployments)
    ensures StepKeepsCore(db, TryTarget(db, s))
  {
    hide CoreInv, CoreKept;
    match s
    case DoSelect(d, target, newId) => SelectTargetKeepsCore(db, d, target, newId);
    case DoTransition(d, g, t, from, to) => TransitionKeepsCore(db, d, g, t, from, to);
    case DoUnlink(c) =>
      BulkStep(db.apps, db.deployments, UnlinkConnection(db, c).apps, db.deployments);
  }

  /** No step of either service breaks the order of generations and versions, or undoes progress. */
  lemma StepsKeepCore(db: Database, s: Step)
    requires CoreInv(db.apps, db.deployments)
    ensures CoreKept(db.apps, db.deployments, Apply(db, s).apps, Apply(db, s).deployments)
  {
    hide CoreInv, CoreKept, TryControl, TryLease, TryOutbox, TryPreview, TryOAuth, TryTarget, TryReceipt;
    CoreFrame(db.apps, db.deployments);
    match s
    case Tick(_) =>
    case Control(c) => ControlKeepsCore(db, c);
    case Leasing(l) => LeaseFrame(db, l);
    case Queueing(q) => OutboxFrame(db, q);
    case Previewing(p) => PreviewKeepsCore(db, p);
    case Connecting(c) => OAuthKeepsCore(db, c);
    case Targeting(t) => TargetKeepsCore(db, t);
    case Recording(r) => ReceiptFrame(db, r);
  }
}
