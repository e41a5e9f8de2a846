/**
 App status `ready` and claims of temporary previews.  The delicate case is the `else 'ready'`
 arm of failOAuthAttempt: it is safe because a claim attempt's deployment is its App's current
 one for as long as the attempt's generation is the App's.
 */
module AppClaims {
  import opened Options
  import opened AppTables
  import opened AppSteps
  import opened AppFrames
  import opened AppCore
  import opened AppAttempts

  /** Phases of a preview that is served, which a deployment reaches through completion: that makes it current. */
  predicate Served(p: Phase) {
    p.TemporaryReady? || p.ClaimPending? || p.VerifyingClaim?
  }

  /** A served deployment of the App's present generation is the current one. */
  predicate ServedIsCurrent(apps: Apps, d: Id, row: Deployment) {
    Served(row.phase) && row.app in apps && apps[row.app].generation == row.generation ==>
      apps[row.app].current == Some(d)
  }

  predicate ReadyIsReady(app: App, ds: Deployments) {
    app.status.StatusReady? ==> app.current.Some? && app.current.value in ds && ds[app.current.value].phase.Ready?
  }

  ghost predicate StatusInv(apps: Apps, ds: Deployments) {
    && (forall d | d in ds :: ServedIsCurrent(apps, d, ds[d]))
    && (forall a | a in apps :: ReadyIsReady(apps[a], ds))
  }

  /** A claim names a deployment that is current while the claim's generation is. */
  predicate ClaimHolds(apps: Apps, ds: Deployments, a: Id, d: Id, g: nat) {
    && NamesDeployment(ds, d, a, g)
    && (a in apps && apps[a].generation == g ==> apps[a].current == Some(d))
  }

  ghost predicate DraftsHold(apps: Apps, ds: Deployments, drafts: set<OAuthDraft>) {
    forall w | w in drafts && w.preview.Some? :: ClaimHolds(apps, ds, w.app, w.deployment, w.generation)
  }

  ghost predicate AttemptsHold(apps: Apps, ds: Deployments, oauth: Attempts) {
    forall o | o in oauth && oauth[o].preview.Some? ::
      ClaimHolds(apps, ds, oauth[o].app, oauth[o].deployment, oauth[o].generation)
  }

  ghost predicate ClaimsInv(db: Database) {
    && StatusInv(db.apps, db.deployments)
    && DraftsHold(db.apps, db.deployments, db.drafts)
    && AttemptsHold(db.apps, db.deployments, db.oauth)
  }

  // ----- claims survive every step -----

  lemma ClaimStays(apps: Apps, ds: Deployments, apps': Apps, ds': Deployments, a: Id, d: Id, g: nat)
    requires CoreInv(apps, ds) && CoreKept(apps, ds, apps', ds') && ClaimHolds(apps, ds, a, d, g)
    ensures ClaimHolds(apps', ds', a, d, g)
  {
    hide Ordered, CurrentFits;
    assert AppEvolves(a, apps[a], ds, apps'[a], ds');
    if apps'[a].generation == g && apps'[a].current != apps[a].current {
      var e := apps'[a].current.value;
      SameGeneration(ds, d, e);
    }
  }

  lemma SameGeneration(ds: Deployments, d: Id, e: Id)
    requires Ordered(ds) && d in ds && e in ds && ds[d].app == ds[e].app && ds[d].generation == ds[e].generation
    ensures d == e
  {
    assert RowsOrdered(d, ds[d], e, ds[e]);
  }

  lemma ClaimsStay(db: Database, db': Database)
    requires CoreInv(db.apps, db.deployments) && CoreKept(db.apps, db.deployments, db'.apps, db'.deployments)
    requires DraftsHold(db.apps, db.deployments, db.drafts) && AttemptsHold(db.apps, db.deployments, db.oauth)
    ensures DraftsHold(db'.apps, db'.deployments, db.drafts) && AttemptsHold(db'.apps, db'.deployments, db.oauth)
  {
    hide CoreInv, CoreKept, ClaimHolds;
    forall w | w in db.drafts && w.preview.Some?
      ensures ClaimHolds(db'.apps, db'.deployments, w.app, w.deployment, w.generation)
    {
      ClaimStays(db.apps, db.deployments, db'.apps, db'.deployments, w.app, w.deployment, w.generation);
    }
    forall o | o in db.oauth && db.oauth[o].preview.Some?
      ensures ClaimHolds(db'.apps, db'.deployments, db.oauth[o].app, db.oauth[o].deployment, db.oauth[o].generation)
    {
      var w := db.oauth[o];
      ClaimStays(db.apps, db.deployments, db'.apps, db'.deployments, w.app, w.deployment, w.generation);
    }
  }

  // ----- shapes of update, for the status -----

  lemma StatusOfRow(apps: Apps, ds: Deployments, a: Id, d: Id, app: App, row: Deployment)
    requires CoreInv(apps, ds) && StatusInv(apps, ds) && a in apps && d in ds && ds[d].app == a
    requires app.generation == apps[a].generation && RowEvolves(ds[d], row)
    requires app.current == apps[a].current || (app.current == Some(d) && row.generation == app.generation)
    requires Served(row.phase) && row.generation == app.generation ==> app.current == Some(d)
    requires ReadyIsReady(app, ds[d := row])
    ensures StatusInv(apps[a := app], ds[d := row])
  {
    hide Ordered;
    forall e | e in ds && e != d
      ensures ServedIsCurrent(apps[a := app], e, ds[e])
    {
      assert ServedIsCurrent(apps, e, ds[e]);
      if ds[e].app == a && ds[e].generation == ds[d].generation {
        SameGeneration(ds, d, e);
      }
    }
    forall b | b in apps && b != a
      ensures ReadyIsReady(apps[b], ds[d := row])
    {
      assert ReadyIsReady(apps[b], ds);
    }
  }

  lemma StatusOfBump(apps: Apps, ds: Deployments, a: Id, app: App)
    requires DeploymentsFit(apps, ds) && StatusInv(apps, ds) && a in apps
    requires app.generation > apps[a].generation && !app.status.StatusReady?
    ensures StatusInv(apps[a := app], ds)
  {
    assert forall d | d in ds :: ServedIsCurrent(apps, d, ds[d]);
  }

  lemma StatusOfPublish(apps: Apps, ds: Deployments, a: Id, d: Id, app: App, row: Deployment)
    requires DeploymentsFit(apps, ds) && StatusInv(apps, ds) && d !in ds && row.app == a
    requires a in apps ==> app.generation > apps[a].generation
    requires !app.status.StatusReady? && !Served(row.phase)
    ensures StatusInv(apps[a := app], ds[d := row])
  {
    assert forall e | e in ds :: ServedIsCurrent(apps, e, ds[e]);
    assert forall b | b in apps :: ReadyIsReady(apps[b], ds);
  }

  lemma StatusOfBulk(apps: Apps, ds: Deployments, apps': Apps, ds': Deployments)
    requires StatusInv(apps, ds)
    requires apps'.Keys == apps.Keys && ds'.Keys == ds.Keys && DeploymentsEvolve(ds, ds')
    requires forall a | a in apps ::
      && apps'[a].generation == apps[a].generation && apps'[a].current == apps[a].current
      && (apps'[a].status.StatusReady? ==> apps[a].status.StatusReady?)
    requires forall d | d in ds && Served(ds'[d].phase) :: Served(ds[d].phase)
    ensures StatusInv(apps', ds')
  {
    forall d | d in ds'
      ensures ServedIsCurrent(apps', d, ds'[d])
    {
      assert ServedIsCurrent(apps, d, ds[d]);
    }
    forall a | a in apps'
      ensures ReadyIsReady(apps'[a], ds')
    {
      assert ReadyIsReady(apps[a], ds);
    }
  }

  // ----- the transactions -----

  ghost predicate StepKeepsStatus(r: Option<Database>) {
    r.Some? ==> StatusInv(r.value.apps, r.value.deployments)
  }

  /** As RowTransaction, with what the status needs. */
  lemma StatusOfTransaction(db: Database, r: Option<Database>, a: Id, d: Id)
    requires CoreInv(db.apps, db.deployments) && StatusInv(db.apps, db.deployments)
    requires r.Some? ==>
      && a in db.apps && d in db.deployments && db.deployments[d].app == a
      && a in r.value.apps && d in r.value.deployments
      && r.value.apps == db.apps[a := r.value.apps[a]]
      && r.value.deployments == db.deployments[d := r.value.deployments[d]]
      && r.value.apps[a].generation == db.apps[a].generation
      && RowEvolves(db.deployments[d], r.value.deployments[d])
      && (r.value.apps[a].current == db.apps[a].current
          || (r.value.apps[a].current == Some(d) && db.deployments[d].generation == db.apps[a].generation))
      && (Served(r.value.deployments[d].phase) ==>
          Served(db.deployments[d].phase) || r.value.apps[a].current == Some(d))
      && ReadyIsReady(r.value.apps[a], r.value.deployments)
    ensures StepKeepsStatus(r)
  {
    if r.Some? {
      assert ServedIsCurrent(db.apps, d, db.deployments[d]);
      StatusOfRow(db.apps, db.deployments, a, d, r.value.apps[a], r.value.deployments[d]);
    }
  }

  lemma BeginKeepsStatus(db: Database, p: Publish)
    requires CoreInv(db.apps, db.deployments) && StatusInv(db.apps, db.deployments)
    ensures StepKeepsStatus(Begin(db, p))
  {
    hide StatusInv, Ordered, CurrentFits, DeploymentsFit;
    var r := Begin(db, p);
    if r.Some? && !KeyUsed(db, p.app, p.key) {
      StatusOfPublish(db.apps, db.deployments, p.app, p.deployment, r.value.apps[p.app],
          r.value.deployments[p.deployment]);
    }
  }

  lemma RollBackKeepsStatus(db: Database, a: Id, to: Id, key: Id, newId: Id)
    requires CoreInv(db.apps, db.deployments) && StatusInv(db.apps, db.deployments)
    ensures StepKeepsStatus(RollBack(db, a, to, key, newId))
  {
    hide StatusInv, Ordered, CurrentFits, DeploymentsFit;
    var r := RollBack(db, a, to, key, newId);
    if r.Some? && !KeyUsed(db, a, key) {
      StatusOfPublish(db.apps, db.deployments, a, newId, r.value.apps[a], r.value.deployments[newId]);
    }
  }

  lemma BumpsKeepStatus(db: Database, a: Id)
    requires CoreInv(db.apps, db.deployments) && StatusInv(db.apps, db.deployments)
    ensures StepKeepsStatus(Archive(db, a)) && StepKeepsStatus(Restore(db, a))
  {
    hide StatusInv, Ordered, CurrentFits, DeploymentsFit;
    if a in db.apps {
      var bumped := db.apps[a].(target := Unassigned, generation := db.apps[a].generation + 1);
      StatusOfBump(db.apps, db.deployments, a, bumped.(status := Archived));
      StatusOfBump(db.apps, db.deployments, a, bumped.(status := NeedsAction));
    }
  }

  lemma MarkDeployingKeepsStatus(db: Database, a: Id, d: Id, g: nat, t: Token)
    requires CoreInv(db.apps, db.deployments) && StatusInv(db.apps, db.deployments)
    ensures StepKeepsStatus(MarkDeploying(db, a, d, g, t))
  {
    hide CoreInv, StatusInv;
    StatusOfTransaction(db, MarkDeploying(db, a, d, g, t), a, d);
  }

  lemma CompleteKeepsStatus(db: Database, a: Id, d: Id, g: nat, t: Token, temporary: bool, artifact: Id, v: Id)
    requires CoreInv(db.apps, db.deployments) && StatusInv(db.apps, db.deployments)
    ensures StepKeepsStatus(Complete(db, a, d, g, t, temporary, artifact, v))
  {
    hide CoreInv, StatusInv;
    if Complete(db, a, d, g, t, temporary, artifact, v) != Some(db) {
      StatusOfTransaction(db, Complete(db, a, d, g, t, temporary, artifact, v), a, d);
    }
  }

  lemma FailKeepsStatus(db: Database, a: Id, d: Id, g: nat, t: Option<Token>)
    requires CoreInv(db.apps, db.deployments) && StatusInv(db.apps, db.deployments)
    ensures StepKeepsStatus(Fail(db, a, d, g, t))
  {
    hide CoreInv, StatusInv;
    if Fail(db, a, d, g, t) != Some(db) {
      StatusOfTransaction(db, Fail(db, a, d, g, t), a, d);
    }
  }

  lemma ControlKeepsStatus(db: Database, s: ControlStep)
    requires CoreInv(db.apps, db.deployments) && StatusInv(db.apps, db.deployments)
    ensures StepKeepsStatus(TryControl(db, s))
  {
    hide CoreInv, StatusInv, Begin, RollBack, Archive, Restore, MarkDeploying, Complete, Fail;
    match s
    case DoBegin(p) => BeginKeepsStatus(db, p);
    case DoRollBack(a, to, key, newId) => RollBackKeepsStatus(db, a, to, key, newId);
    case DoArchive(a) => BumpsKeepStatus(db, a);
    case DoRestore(a) => BumpsKeepStatus(db, a);
    case DoMarkDeploying(a, d, g, t) => MarkDeployingKeepsStatus(db, a, d, g, t);
    case DoComplete(a, d, g, t, temporary, artifact, v) => CompleteKeepsStatus(db, a, d, g, t, temporary, artifact, v);
    case DoFail(a, d, g, t) => FailKeepsStatus(db, a, d, g, t);
  }

  lemma ExpirePreviewsKeepsStatus(db: Database, only: Option<Id>)
    requires StatusInv(db.apps, db.deployments)
    ensures StepKeepsStatus(Some(ExpirePreviews(db, only)))
  {
    hide StatusInv;
    var db' := ExpirePreviews(db, only);
    StatusOfBulk(db.apps, db.deployments, db'.apps, db'.deployments);
  }

  lemma OpenClaimKeepsStatus(db: Database, p: Id, d: Id)
    requires CoreInv(db.apps, db.deployments) && StatusInv(db.apps, db.deployments)
    ensures StepKeepsStatus(OpenClaim(db, p, d))
  {
    hide CoreInv, StatusInv;
    var r := OpenClaim(db, p, d);
    if r.Some? {
      StatusOfBulk(db.apps, db.deployments, r.value.apps, r.value.deployments);
    }
  }

  lemma PreviewKeepsStatus(db: Database, s: PreviewStep)
    requires CoreInv(db.apps, db.deployments) && StatusInv(db.apps, db.deployments)
    ensures StepKeepsStatus(TryPreview(db, s))
  {
    hide CoreInv, StatusInv;
    match s
    case DoExpirePreviews(only) => ExpirePreviewsKeepsStatus(db, only);
    case DoOpenClaim(p, d) => OpenClaimKeepsStatus(db, p, d);
    case _ =>
  }

  lemma SelectTargetKeepsStatus(db: Database, d: Id, target: Target, newId: Id)
    requires CoreInv(db.apps, db.deployments) && StatusInv(db.apps, db.deployments)
    ensures StepKeepsStatus(SelectTarget(db, d, target, newId))
  {
    hide CoreInv, StatusInv, Enqueue, UsableTarget, ReadyIsReady;
    var r := SelectTarget(db, d, target, newId);
    if r.Some? && r.value.deployments != db.deployments {
      var a := db.deployments[d].app;
      AppIsReady(db.apps, db.deployments, a, r.value.apps[a], r.value.deployments);
      StatusOfTransaction(db, r, a, d);
    }
  }

  /** An App row that keeps status and current deployment stays truthful while deployments advance. */
  lemma AppIsReady(apps: Apps, ds: Deployments, a: Id, app: App, ds': Deployments)
    requires StatusInv(apps, ds) && a in apps && DeploymentsEvolve(ds, ds')
    requires app.status == apps[a].status && app.current == apps[a].current
    ensures ReadyIsReady(app, ds')
  {
    assert ReadyIsReady(apps[a], ds);
  }

  /** All edges but the one that would serve a preview without making it current. */
  lemma TransitionKeepsStatus(db: Database, d: Id, g: nat, t: Token, from: Phase, to: Phase)
    requires StatusInv(db.apps, db.deployments) && !(from.Deploying? && to.TemporaryReady?)
    ensures StepKeepsStatus(Transition(db, d, g, t, from, to))
  {
    hide StatusInv;
    var r := Transition(db, d, g, t, from, to);
    if r.Some? {
      StatusOfBulk(db.apps, db.deployments, r.value.apps, r.value.deployments);
    }
  }

  lemma TargetKeepsStatus(db: Database, s: TargetStep)
    requires CoreInv(db.apps, db.deployments) && StatusInv(db.apps, db.deployments) && ServesByCompletion(Targeting(s))
    ensures StepKeepsStatus(TryTarget(db, s))
  {
    hide CoreInv, StatusInv, SelectTarget, Transition;
    match s
    case DoSelect(d, target, newId) => SelectTargetKeepsStatus(db, d, target, newId);
    case DoTransition(d, g, t, from, to) => TransitionKeepsStatus(db, d, g, t, from, to);
    case DoUnlink(c) =>
      StatusOfBulk(db.apps, db.deployments, UnlinkConnection(db, c).apps, db.deployments);
  }

  // ----- OAuth -----

  lemma AwaitOAuthKeepsClaims(db: Database, w: OAuthDraft)
    requires CoreInv(db.apps, db.deployments) && ClaimsInv(db)
    ensures AwaitOAuth(db, w).Some? ==> ClaimsInv(AwaitOAuth(db, w).value)
  {
    hide CoreInv, CoreKept, StatusInv;
    var r := AwaitOAuth(db, w);
    if r.Some? {
      AwaitOAuthKeepsCore(db, w);
      ClaimsStay(db, r.value);
      if w.preview.Some? {
        NewClaimHolds(db, w.app, w.deployment, w.generation);
      } else {
        StatusOfBulk(db.apps, db.deployments, r.value.apps, r.value.deployments);
      }
    }
  }

  lemma NewClaimHolds(db: Database, a: Id, d: Id, g: nat)
    requires StatusInv(db.apps, db.deployments) && AtGeneration(db, a, d, g) && db.deployments[d].phase.ClaimPending?
    ensures ClaimHolds(db.apps, db.deployments, a, d, g)
  {
    assert ServedIsCurrent(db.apps, d, db.deployments[d]);
  }

  lemma FinalizeDirectKeepsStatus(db: Database, o: Id, connection: Id, newId: Id)
    requires StatusInv(db.apps, db.deployments)
    ensures StepKeepsStatus(FinalizeDirect(db, o, connection, newId))
  {
    hide StatusInv, Enqueue;
    var r := FinalizeDirect(db, o, connection, newId);
    if r.Some? {
      StatusOfBulk(db.apps, db.deployments, r.value.apps, r.value.deployments);
    }
  }

  lemma FinalizeClaimKeepsStatus(db: Database, o: Id, account: Id, connection: Id)
    requires CoreInv(db.apps, db.deployments) && StatusInv(db.apps, db.deployments)
    ensures StepKeepsStatus(FinalizeClaim(db, o, account, connection))
  {
    hide CoreInv, StatusInv;
    var r := FinalizeClaim(db, o, account, connection);
    if r.Some? {
      var w := db.oauth[o];
      if AccountMatches(db, w, account) {
        StatusOfTransaction(db, r, w.app, w.deployment);
      } else {
        StatusOfBulk(db.apps, db.deployments, r.value.apps, r.value.deployments);
      }
    }
  }

  /** While the attempt's generation is the App's, its deployment is current, so the arm taken is `failed`. */
  lemma StatusOfFailedClaim(apps: Apps, ds: Deployments, w: OAuthRow)
    requires StatusInv(apps, ds) && ClaimHolds(apps, ds, w.app, w.deployment, w.generation)
    ensures StatusInv(FailClaimApp(apps, w), FailClaimRow(ds, w))
    ensures w.app in apps && apps[w.app].generation == w.generation ==>
      StatusAfterOAuthFailure(apps[w.app], w.deployment).StatusFailed?
  {
    hide StatusInv;
    StatusOfBulk(apps, ds, FailClaimApp(apps, w), FailClaimRow(ds, w));
  }

  lemma FailAttemptKeepsStatus(db: Database, o: Id)
    requires ClaimsInv(db)
    ensures StepKeepsStatus(FailOAuthAttempt(db, o))
  {
    hide StatusInv, DraftsHold, ClaimHolds, Settle, FailClaimApp, FailClaimRow;
    if o in db.oauth && db.oauth[o].preview.Some? {
      StatusOfFailedClaim(db.apps, db.deployments, db.oauth[o]);
    }
  }

  lemma CancelOAuthKeepsStatus(db: Database, o: Id)
    requires StatusInv(db.apps, db.deployments)
    ensures StepKeepsStatus(CancelOAuth(db, o))
  {
    hide StatusInv;
    var r := CancelOAuth(db, o);
    if r.Some? {
      StatusOfBulk(db.apps, db.deployments, r.value.apps, r.value.deployments);
    }
  }

  lemma OAuthKeepsStatus(db: Database, s: OAuthStep)
    requires CoreInv(db.apps, db.deployments) && ClaimsInv(db)
    ensures StepKeepsStatus(TryOAuth(db, s))
  {
    hide CoreInv, StatusInv, DraftsHold, AttemptsHold;
    hide AwaitOAuth, FinalizeDirect, FinalizeClaim, FailOAuthAttempt, CancelOAuth;
    match s
    case DoAwait(w) => AwaitOAuthKeepsClaims(db, w);
    case DoFinalizeDirect(o, c, newId) => FinalizeDirectKeepsStatus(db, o, c, newId);
    case DoFinalizeClaim(o, account, c) => FinalizeClaimKeepsStatus(db, o, account, c);
    case DoFailAttempt(o) => FailAttemptKeepsStatus(db, o);
    case DoCancel(o) => CancelOAuthKeepsStatus(db, o);
    case _ =>
  }

  /** Attempts that only settle keep their claims; a new one takes its claim from its draft. */
  lemma AttemptsKeepHolding(apps: Apps, ds: Deployments, oauth: Attempts, oauth': Attempts)
    requires AttemptsHold(apps, ds, oauth) && AttemptsEvolve(oauth, oauth') && oauth'.Keys == oauth.Keys
    ensures AttemptsHold(apps, ds, oauth')
  {
    hide ClaimHolds;
  }

  lemma DraftsAfter(db: Database, s: OAuthStep)
    ensures TryOAuth(db, s).Some? && !s.DoAwait? ==> TryOAuth(db, s).value.drafts <= db.drafts
    ensures TryOAuth(db, s).Some? && !s.DoAwait? && !s.DoInsertAttempt? ==>
              TryOAuth(db, s).value.oauth.Keys == db.oauth.Keys
  {
    hide AtGeneration, Enqueue, AccountMatches, FailClaimRow, FailClaimApp, WithPhase, WithStatus;
  }

  lemma OAuthKeepsClaims(db: Database, s: OAuthStep)
    requires CoreInv(db.apps, db.deployments) && ClaimsInv(db) && VerifiersFit(db.oauth)
    ensures TryOAuth(db, s).Some? ==> ClaimsInv(TryOAuth(db, s).value)
  {
    var r := TryOAuth(db, s);
    if r.Some? {
      match s
      case DoAwait(w) => AwaitOAuthKeepsClaims(db, w);
      case DoInsertAttempt(w, o, verifier) => InsertKeepsClaims(db, w, o, verifier);
      case _ =>
        hide CoreInv, CoreKept, StatusInv, VerifiersFit, AttemptsEvolve, ClaimHolds;
        hide TryOAuth;
        OAuthKeepsStatus(db, s);
        OAuthKeepsCore(db, s);
        ClaimsStay(db, r.value);
        DraftsAfter(db, s);
        OAuthStepKeepsAttempts(db, s);
        AttemptsKeepHolding(r.value.apps, r.value.deployments, db.oauth, r.value.oauth);
    }
  }

  lemma InsertKeepsClaims(db: Database, w: OAuthDraft, o: Id, verifier: Id)
    requires ClaimsInv(db)
    ensures InsertOAuth(db, w, o, verifier).Some? ==> ClaimsInv(InsertOAuth(db, w, o, verifier).value)
  {
    hide StatusInv, ClaimHolds;
  }

  lemma StepsKeepClaims(db: Database, s: Step)
    requires CoreInv(db.apps, db.deployments) && ClaimsInv(db) && VerifiersFit(db.oauth) && ServesByCompletion(s)
    ensures ClaimsInv(Apply(db, s))
  {
    hide CoreInv, CoreKept, StatusInv, DraftsHold, AttemptsHold, VerifiersFit;
    hide TryControl, TryLease, TryOutbox, TryPreview, TryOAuth, TryTarget, TryReceipt;
    StepsKeepCore(db, s);
    ClaimsStay(db, Apply(db, s));
    match s
    case Tick(_) =>
    case Control(c) => ControlFrame(db, c); ControlKeepsStatus(db, c);
    case Leasing(l) => LeaseFrame(db, l);
    case Queueing(q) => OutboxFrame(db, q);
    case Previewing(p) => PreviewFrame(db, p); PreviewKeepsStatus(db, p);
    case Connecting(c) => OAuthKeepsClaims(db, c);
    case Targeting(t) => TargetFrame(db, t); TargetKeepsStatus(db, t);
    case Recording(r) => ReceiptFrame(db, r);
  }
}
