/**
 What each call of the Cloudflare account service means to whoever made it: when it is accepted, and
 what every row it writes holds afterwards, told on the state before and the state after.
 */
module AccountEffects {
  import opened Options
  import opened AppTables
  import opened AppSteps
  import opened AppCore
  import opened AppLeases
  import opened AppOutbox
  import opened AppAttempts
  import opened AppClaims
  import opened AppReceipts
  import opened AppSafety
  import opened AppEffects

  // ----- previews -----

  ghost predicate NoOtherOpen(previews: Previews, a: Id, p: Id) {
    forall q | q in previews && q != p && previews[q].app == a :: !OpenPreview(previews[q])
  }

  /** `p` is the one open preview of its App. */
  ghost predicate OnlyOpen(previews: Previews, p: Id) {
    p in previews && OpenPreview(previews[p]) && NoOtherOpen(previews, previews[p].app, p)
  }

  ghost predicate PreviewBecomes(db: Database, db': Database, p: Id, row: PreviewRow) {
    p in db.previews && db' == db.(previews := db.previews[p := row])
  }

  ghost predicate MayInsert(db: Database, p: Id, a: Id) {
    p !in db.previews && a in db.apps && NoOtherOpen(db.previews, a, p)
  }

  ghost predicate Inserts(db: Database, db': Database, p: Id, a: Id) {
    && OnlyOpen(db'.previews, p)
    && db' == db.(previews := db.previews[p := PreviewRow(a, PreviewProvisioning, None, None, db.now, None)])
  }

  lemma InsertMeans(db: Database, p: Id, a: Id)
    ensures InsertPreview(db, p, a).Some? <==> MayInsert(db, p, a)
    ensures MayInsert(db, p, a) ==> Inserts(db, InsertPreview(db, p, a).value, p, a)
  {
  }

  /** A preview that can be used and claimed: open to use and not run out. */
  predicate Usable(db: Database, p: Id) {
    && p in db.previews && db.previews[p].status in {PreviewReady, Claiming}
    && db.previews[p].expiresAt.Some? && db.now < db.previews[p].expiresAt.value
  }

  lemma UsableMeans(db: Database, p: Id)
    ensures PreviewUsable(db, p) <==> Usable(db, p)
  {
  }

  /** The answer makes the preview ready with its account and secrets, usable until it runs out. */
  ghost predicate Provisions(db: Database, db': Database, p: Id, account: Id, secrets: Id, expiresAt: Time) {
    && p in db.previews && OnlyOpen(db'.previews, p) && (db.now < expiresAt ==> Usable(db', p))
    && PreviewBecomes(db, db', p, db.previews[p].(status := PreviewReady, account := Some(account),
                                                  secrets := Some(secrets), expiresAt := Some(expiresAt)))
  }

  lemma ProvisionMeans(db: Database, p: Id, account: Id, secrets: Id, expiresAt: Time)
    ensures PreviewProvisioned(db, p, account, secrets, expiresAt).Some?
       <==> p in db.previews && NoOtherOpen(db.previews, db.previews[p].app, p)
    ensures PreviewProvisioned(db, p, account, secrets, expiresAt).Some? ==>
      Provisions(db, PreviewProvisioned(db, p, account, secrets, expiresAt).value, p, account, secrets, expiresAt)
  {
  }

  /** The preview is closed without secrets, and its App may have a new one. */
  ghost predicate Closes(db: Database, db': Database, p: Id) {
    && p in db.previews && PreviewBecomes(db, db', p, db.previews[p].(status := PreviewFailed, secrets := None))
    && (forall q | q !in db'.previews && db.previews[p].app in db.apps :: MayInsert(db', q, db.previews[p].app))
  }

  lemma AbortMeans(db: Database, p: Id)
    requires Inv(db)
    ensures PreviewAborted(db, p).Some? <==> p in db.previews && db.previews[p].status.PreviewProvisioning?
    ensures PreviewAborted(db, p).Some? ==> Closes(db, PreviewAborted(db, p).value, p)
  {
    hide CoreInv, LeasesInv, OutboxInv, ReceiptsInv;
  }

  /** A ready or claiming preview that no deployment and no App refers to, for a deployment of its App's generation. */
  ghost predicate MayRelease(db: Database, p: Id, d: Id) {
    && p in db.previews && db.previews[p].status in {PreviewReady, Claiming}
    && d in db.deployments && db.deployments[d].app == db.previews[p].app
    && db.deployments[d].app in db.apps && db.apps[db.deployments[d].app].generation == db.deployments[d].generation
    && (forall e | e in db.deployments :: db.deployments[e].target != Temporary(p))
    && (forall a | a in db.apps :: db.apps[a].target != Temporary(p))
  }

  lemma ReleasePreviewMeans(db: Database, p: Id, d: Id)
    requires Inv(db)
    ensures ReleasePreview(db, p, d).Some? <==> MayRelease(db, p, d)
    ensures ReleasePreview(db, p, d).Some? ==> Closes(db, ReleasePreview(db, p, d).value, p)
  {
    hide CoreInv, LeasesInv, OutboxInv, ReceiptsInv;
  }

  // ----- the sweep -----

  /** The sweep looks at one preview, or at all that have run out. */
  predicate Picked(db: Database, only: Option<Id>, p: Id) {
    && p in db.previews
    && (if only.Some? then p == only.value
        else db.previews[p].expiresAt.Some? && db.previews[p].expiresAt.value <= db.now)
  }

  /** Picked previews expire and lose their secrets, those being provisioned for ten minutes fail, others stay. */
  ghost predicate PreviewsSwept(db: Database, db': Database, only: Option<Id>) {
    && db'.previews.Keys == db.previews.Keys
    && (forall p | p in db.previews :: db'.previews[p] ==
          (var row := db.previews[p];
           if row.status in {PreviewReady, Claiming} && Picked(db, only, p)
           then row.(status := PreviewExpired, secrets := None)
           else if row.status.PreviewProvisioning? && row.createdAt + 600_000 <= db.now
           then row.(status := PreviewFailed)
           else row))
  }

  /** The target is a picked preview of this App that is now expired. */
  ghost predicate Lost(db: Database, db': Database, only: Option<Id>, target: Target, a: Id) {
    && target.Temporary? && Picked(db, only, target.preview) && db.previews[target.preview].app == a
    && target.preview in db'.previews && db'.previews[target.preview].status.PreviewExpired?
  }

  /** Deployments under way or served on a lost preview expire, and only they change. */
  ghost predicate DeploymentsSwept(db: Database, db': Database, only: Option<Id>) {
    && db'.deployments.Keys == db.deployments.Keys
    && (forall d | d in db.deployments :: db'.deployments[d] ==
          (var row := db.deployments[d];
           if Lost(db, db', only, row.target, row.app)
              && row.phase in {Queued, Provisioning, Deploying, TemporaryReady, ClaimPending, VerifyingClaim}
           then row.(phase := Expired) else row))
  }

  /** Apps on a lost preview need action and have no target, and only they change. */
  ghost predicate AppsSwept(db: Database, db': Database, only: Option<Id>) {
    && db'.apps.Keys == db.apps.Keys
    && (forall a | a in db.apps :: db'.apps[a] ==
          (if Lost(db, db', only, db.apps[a].target, a)
           then db.apps[a].(status := NeedsAction, target := Unassigned) else db.apps[a]))
  }

  ghost predicate Sweeps(db: Database, db': Database, only: Option<Id>) {
    && PreviewsSwept(db, db', only) && DeploymentsSwept(db, db', only) && AppsSwept(db, db', only)
    && db' == db.(previews := db'.previews, deployments := db'.deployments, apps := db'.apps)
  }

  lemma ExpireSweeps(db: Database, only: Option<Id>)
    ensures Sweeps(db, ExpirePreviews(db, only), only)
  {
    var db' := ExpirePreviews(db, only);
    forall target: Target, a ensures Lost(db, db', only, target, a) <==>
        target.Temporary? && SweptPreview(db, only, target.preview) && db.previews[target.preview].app == a {}
  }

  // ----- opening a claim -----

  /** The newest deployment on the preview, of its App and at the App's generation. */
  ghost predicate NewestOn(db: Database, p: Id, d: Id) {
    && OnPreview(db, p, d)
    && (forall e | OnPreview(db, p, e) :: db.deployments[e].version <= db.deployments[d].version)
  }

  ghost predicate OnPreview(db: Database, p: Id, d: Id) {
    && p in db.previews && d in db.deployments && db.deployments[d].target == Temporary(p)
    && db.deployments[d].app == db.previews[p].app && db.deployments[d].app in db.apps
    && db.deployments[d].generation == db.apps[db.deployments[d].app].generation
  }

  ghost predicate MayOpen(db: Database, p: Id, d: Id) {
    && Usable(db, p) && NewestOn(db, p, d)
    && db.deployments[d].phase in {TemporaryReady, ClaimPending, VerifyingClaim}
  }

  /** The preview is being claimed; a served deployment waits for its claim, one already claimed stays so. */
  ghost predicate Opens(db: Database, db': Database, p: Id, d: Id) {
    && p in db.previews && d in db.deployments
    && db' == db.(previews := db.previews[p := db.previews[p].(status := Claiming)],
                  deployments := if db.deployments[d].phase.TemporaryReady?
                    then db.deployments[d := db.deployments[d].(phase := ClaimPending)] else db.deployments)
  }

  lemma OneOnPreview(db: Database, p: Id)
    requires Inv(db)
    ensures forall d, e | OnPreview(db, p, d) && OnPreview(db, p, e) :: d == e
  {
    forall d, e | OnPreview(db, p, d) && OnPreview(db, p, e) ensures d == e {
      SameGeneration(db.deployments, d, e);
    }
  }

  lemma OpenMeans(db: Database, p: Id, d: Id)
    ensures ClaimRow(db, p, d) <==> NewestOn(db, p, d)
    ensures OpenClaim(db, p, d).Some? <==> MayOpen(db, p, d)
    ensures MayOpen(db, p, d) ==> Opens(db, OpenClaim(db, p, d).value, p, d)
  {
    assert forall e :: ClaimCandidate(db, p, e) <==> OnPreview(db, p, e);
  }

  // ----- OAuth attempts -----

  /** A direct attempt may start while the deployment waits for a target, a claim while the deployment waits on a
      usable preview that is being claimed. */
  ghost predicate MayBeginAttempt(db: Database, w: OAuthDraft) {
    && AtGeneration(db, w.app, w.deployment, w.generation)
    && var row := db.deployments[w.deployment];
      if w.preview.None? then row.phase in {AwaitingTarget, AwaitingOAuth}
      else
        && row.phase.ClaimPending? && row.target == Temporary(w.preview.value) && Usable(db, w.preview.value)
        && db.previews[w.preview.value].status.Claiming? && db.previews[w.preview.value].app == w.app
  }

  /** The deployment waits for the user, and the insert of the attempt is due. */
  ghost predicate Awaits(db: Database, db': Database, w: OAuthDraft) {
    && w.deployment in db.deployments
    && db' == db.(drafts := db.drafts + {w},
                  deployments := if w.preview.Some? then db.deployments
                    else db.deployments[w.deployment := db.deployments[w.deployment].(phase := AwaitingOAuth)])
  }

  lemma AwaitMeans(db: Database, w: OAuthDraft)
    ensures MayBeginAttempt(db, w) ==> AwaitOAuth(db, w).Some? && Awaits(db, AwaitOAuth(db, w).value, w)
  {
  }

  predicate Over(s: OAuthStatus) {
    s.OAuthCompleted? || s.OAuthFailed? || s.OAuthExpired?
  }

  /** The attempt has left `pending`, so its verifier is gone. */
  function Left(w: OAuthRow, s: OAuthStatus): OAuthRow {
    w.(status := s, verifier := None)
  }

  ghost predicate AttemptBecomes(db: Database, db': Database, o: Id, s: OAuthStatus) {
    o in db.oauth && db' == db.(oauth := db.oauth[o := Left(db.oauth[o], s)])
  }

  /** The attempt is pending with its verifier for ten minutes. */
  ghost predicate Starts(db: Database, db': Database, w: OAuthDraft, o: Id, verifier: Id) {
    db' == db.(drafts := db.drafts - {w}, oauth := db.oauth[o :=
      OAuthRow(w.app, w.deployment, w.generation, w.preview, OAuthPending, Some(verifier), db.now + 600_000)])
  }

  lemma InsertAttemptMeans(db: Database, w: OAuthDraft, o: Id, verifier: Id)
    ensures InsertOAuth(db, w, o, verifier).Some? <==> w in db.drafts && o !in db.oauth
    ensures InsertOAuth(db, w, o, verifier).Some? ==> Starts(db, InsertOAuth(db, w, o, verifier).value, w, o, verifier)
  {
  }

  /** Exactly a pending attempt is consumed: for exchange before it runs out, and for good afterwards. */
  lemma ConsumeMeans(db: Database, o: Id)
    ensures ConsumeOAuth(db, o).Some? <==> o in db.oauth && db.oauth[o].status.OAuthPending?
    ensures ConsumeOAuth(db, o).Some? ==>
      AttemptBecomes(db, ConsumeOAuth(db, o).value, o,
                     if db.now < db.oauth[o].expiresAt then Exchanging else OAuthExpired)
  {
  }

  lemma ExchangeFailedMeans(db: Database, o: Id)
    ensures ExchangeFailed(db, o).Some? <==> o in db.oauth && db.oauth[o].status.Exchanging?
    ensures ExchangeFailed(db, o).Some? ==> AttemptBecomes(db, ExchangeFailed(db, o).value, o, OAuthFailed)
  {
  }

  /** Pending attempts that have run out are expired and lose their verifier; others stay as they are. */
  ghost predicate AttemptsSwept(db: Database, db': Database) {
    && db' == db.(oauth := db'.oauth) && db'.oauth.Keys == db.oauth.Keys
    && (forall o | o in db.oauth :: db'.oauth[o] ==
          (if db.oauth[o].status.OAuthPending? && db.oauth[o].expiresAt <= db.now
           then Left(db.oauth[o], OAuthExpired) else db.oauth[o]))
  }

  lemma ExpireMeans(db: Database)
    ensures AttemptsSwept(db, ExpireOAuth(db))
  {
  }

  /** Which claims still hold their deployment. */
  ghost predicate ClaimsDeployment(db: Database, w: OAuthRow) {
    && w.deployment in db.deployments && db.deployments[w.deployment].app == w.app
    && db.deployments[w.deployment].generation == w.generation
    && db.deployments[w.deployment].phase in {ClaimPending, VerifyingClaim}
  }

  /** The attempt is over. A claim fails the deployment it holds, and its App if that is still at the generation; what
      else the App serves is reported as ready, which in a reachable state never happens. */
  ghost predicate FailsAttempt(db: Database, db': Database, o: Id) {
    && o in db.oauth && o in db'.oauth && Over(db'.oauth[o].status) && db'.oauth[o].verifier.None?
    && var w := db.oauth[o];
    && db' == db.(oauth := db'.oauth, deployments := db'.deployments, apps := db'.apps)
    && db'.oauth == (if w.status.Exchanging? then db.oauth[o := Left(w, OAuthFailed)] else db.oauth)
    && db'.deployments ==
         (if w.preview.Some? && ClaimsDeployment(db, w)
          then db.deployments[w.deployment := db.deployments[w.deployment].(phase := Failed)] else db.deployments)
    && db'.apps ==
         (if w.preview.Some? && w.app in db.apps && db.apps[w.app].generation == w.generation
          then db.apps[w.app := db.apps[w.app].(
            status := if db.apps[w.app].current in {None, Some(w.deployment)} then StatusFailed else StatusReady)]
          else db.apps)
    && (ClaimsInv(db) && w.preview.Some? && AtGeneration(db, w.app, w.deployment, w.generation) ==>
          && w.app in db'.apps && db'.apps[w.app].status.StatusFailed? && db'.apps[w.app].current == Some(w.deployment))
  }

  lemma FailedAttemptMeans(db: Database, o: Id)
    requires Inv(db)
    ensures FailOAuthAttempt(db, o).Some? <==> o in db.oauth && !db.oauth[o].status.OAuthPending?
    ensures FailOAuthAttempt(db, o).Some? ==> FailsAttempt(db, FailOAuthAttempt(db, o).value, o)
  {
    hide CoreInv, LeasesInv, OutboxInv, ReceiptsInv, OneOpenPreview, StatusInv, DraftsHold;
  }

  // ----- enqueueing -----

  predicate KeyOf(db: Database, d: Id, r: OutboxRow)
    requires d in db.deployments
  {
    && r.app == db.deployments[d].app && r.key == db.deployments[d].key
    && (r.operation.Rollback? <==> db.deployments[d].rollbackOf.Some?)
  }

  /** The row with the deployment's key names deployment, target and generation and keeps its state; without such a row
      a new one is pending and due. */
  ghost predicate Enqueues(db: Database, outbox: Outbox, d: Id, target: Target, newId: Id) {
    && d in db.deployments
    && (forall o | o in db.outbox :: o in outbox && outbox[o] ==
          (if KeyOf(db, d, db.outbox[o])
           then db.outbox[o].(deployment := d, target := target, generation := db.deployments[d].generation)
           else db.outbox[o]))
    && (if exists o | o in db.outbox :: KeyOf(db, d, db.outbox[o]) then outbox.Keys == db.outbox.Keys
        else
          && outbox.Keys == db.outbox.Keys + {newId}
          && outbox[newId] ==
               OutboxRow(db.deployments[d].app, if db.deployments[d].rollbackOf.Some? then Rollback else Deploy,
                         db.deployments[d].key, db.deployments[d].generation, d, target, Pending, 0, db.now))
  }

  lemma EnqueueMeans(db: Database, d: Id, target: Target, newId: Id)
    requires d in db.deployments && newId !in db.outbox
    ensures Enqueues(db, Enqueue(db, d, target, newId), d, target, newId)
  {
    var row := db.deployments[d];
    forall o | o in db.outbox
      ensures KeyOf(db, d, db.outbox[o]) <==> SameKey(db.outbox[o], row.app, OperationOf(row), row.key) {}
  }

  /** A row of the outbox tells the workers to deploy `d` on that target. */
  ghost predicate Announced(db: Database, d: Id, target: Target) {
    && d in db.deployments
    && exists o | o in db.outbox :: db.outbox[o].deployment == d && db.outbox[o].target == target
         && db.outbox[o].generation == db.deployments[d].generation
  }

  lemma EnqueueAnnounces(db: Database, d: Id, target: Target, newId: Id)
    requires d in db.deployments && newId !in db.outbox
    ensures Announced(db.(outbox := Enqueue(db, d, target, newId)), d, target)
  {
    var outbox := Enqueue(db, d, target, newId);
    var row := db.deployments[d];
    if o :| o in db.outbox && SameKey(db.outbox[o], row.app, OperationOf(row), row.key) {
      assert outbox[o].deployment == d;
    } else {
      assert outbox[newId].deployment == d;
    }
  }

  // ----- the end of an attempt -----

  ghost predicate MayConnect(db: Database, o: Id, newId: Id) {
    && o in db.oauth && newId !in db.outbox && db.oauth[o].preview.None? && db.oauth[o].status.Exchanging?
    && AtGeneration(db, db.oauth[o].app, db.oauth[o].deployment, db.oauth[o].generation)
    && db.deployments[db.oauth[o].deployment].phase.AwaitingOAuth?
  }

  /** The attempt is completed and its deployment is queued for a worker on the new connection. */
  ghost predicate Connects(db: Database, db': Database, o: Id, connection: Id, newId: Id) {
    && o in db.oauth
    && var w := db.oauth[o];
    && w.deployment in db.deployments && w.app in db.apps
    && db'.(outbox := db.outbox) == db.(
         oauth := db.oauth[o := Left(w, OAuthCompleted)],
         deployments := db.deployments[w.deployment :=
           db.deployments[w.deployment].(phase := Queued, target := Byoc(connection))],
         apps := db.apps[w.app := db.apps[w.app].(target := Byoc(connection), status := NeedsAction)])
    && Enqueues(db'.(outbox := db.outbox), db'.outbox, w.deployment, Byoc(connection), newId)
    && Announced(db', w.deployment, Byoc(connection))
  }

  lemma DirectMeans(db: Database, o: Id, connection: Id, newId: Id)
    ensures FinalizeDirect(db, o, connection, newId).Some? <==> MayConnect(db, o, newId)
    ensures MayConnect(db, o, newId) ==>
      Connects(db, FinalizeDirect(db, o, connection, newId).value, o, connection, newId)
  {
    if MayConnect(db, o, newId) {
      var w := db.oauth[o];
      var db' := FinalizeDirect(db, o, connection, newId).value;
      var queued := db'.(outbox := db.outbox);
      EnqueueMeans(queued, w.deployment, Byoc(connection), newId);
      EnqueueAnnounces(queued, w.deployment, Byoc(connection), newId);
      hide Enqueue, Enqueues, Announced;
      assert db' == queued.(outbox := Enqueue(queued, w.deployment, Byoc(connection), newId));
    }
  }

  /** The token belongs to the account the preview was provisioned on. */
  ghost predicate OwnAccount(db: Database, w: OAuthRow, account: Id) {
    && w.preview.Some? && w.preview.value in db.previews && db.previews[w.preview.value].app == w.app
    && db.previews[w.preview.value].account == Some(account)
  }

  ghost predicate MayClaim(db: Database, o: Id, account: Id) {
    && o in db.oauth && db.oauth[o].preview.Some?
    && var w := db.oauth[o];
    && AtGeneration(db, w.app, w.deployment, w.generation)
    && (OwnAccount(db, w, account) ==>
          && ClaimsDeployment(db, w) && db.previews[w.preview.value].status.Claiming?
          && db.apps[w.app].target == Temporary(w.preview.value) && w.status.Exchanging?)
  }

  /** The claimed deployment is the newest, ready and served on the new connection, and the secrets are gone. */
  ghost predicate Claims(db: Database, db': Database, o: Id, connection: Id) {
    && o in db.oauth && db.oauth[o].preview.Some?
    && var w := db.oauth[o];
    && w.deployment in db.deployments && w.app in db.apps && w.preview.value in db.previews
    && db' == db.(
         oauth := db.oauth[o := Left(w, OAuthCompleted)],
         previews := db.previews[w.preview.value :=
           db.previews[w.preview.value].(status := Claimed, secrets := None)],
         deployments := db.deployments[w.deployment :=
           db.deployments[w.deployment].(phase := Ready, target := Byoc(connection))],
         apps := db.apps[w.app :=
           db.apps[w.app].(target := Byoc(connection), status := StatusReady, current := Some(w.deployment))])
    && Newest(db'.deployments, w.app, w.deployment)
  }

  /** With another account the attempt is over, nothing is served differently, and the claim stays open. */
  ghost predicate Mismatches(db: Database, db': Database, o: Id) {
    && o in db.oauth && db.oauth[o].preview.Some?
    && var w := db.oauth[o];
    && w.app in db.apps
    && db' == db.(oauth := db'.oauth, deployments := db'.deployments, apps := db'.apps)
    && db'.oauth == (if w.status.Exchanging? then db.oauth[o := Left(w, OAuthFailed)] else db.oauth)
    && db'.deployments ==
         (if ClaimsDeployment(db, w)
          then db.deployments[w.deployment := db.deployments[w.deployment].(phase := ClaimPending)] else db.deployments)
    && db'.apps ==
         (if db.apps[w.app].target == Temporary(w.preview.value)
          then db.apps[w.app := db.apps[w.app].(status := NeedsAction)] else db.apps)
  }

  lemma ClaimAllowed(db: Database, o: Id, account: Id, connection: Id)
    ensures FinalizeClaim(db, o, account, connection).Some? <==> MayClaim(db, o, account)
  {
  }

  lemma ClaimMeans(db: Database, o: Id, account: Id, connection: Id)
    requires Inv(db) && FinalizeClaim(db, o, account, connection).Some?
    ensures var db' := FinalizeClaim(db, o, account, connection).value;
      if OwnAccount(db, db.oauth[o], account) then Claims(db, db', o, connection) else Mismatches(db, db', o)
  {
    hide LeasesInv, OutboxInv, ReceiptsInv, OneOpenPreview, SecretsFit, CoreInv, CoreEvolves, Newest;
    var db' := FinalizeClaim(db, o, account, connection).value;
    var w := db.oauth[o];
    FinalizeClaimKeepsCore(db, o, account, connection);
    PresentIsNewest(db'.apps, db'.deployments, w.app, w.deployment);
  }

  /** A pending attempt at the generation of its App and deployment, which still waits for it. */
  ghost predicate MayCancel(db: Database, o: Id) {
    && o in db.oauth && db.oauth[o].status.OAuthPending?
    && var w := db.oauth[o];
    && AtGeneration(db, w.app, w.deployment, w.generation)
    && if w.preview.Some? then
         db.deployments[w.deployment].phase.ClaimPending?
         && db.deployments[w.deployment].target == Temporary(w.preview.value)
       else db.deployments[w.deployment].phase in {AwaitingOAuth, AwaitingTarget}
  }

  /** The attempt is over, the App needs action, and another attempt can be started at once. */
  ghost predicate Cancels(db: Database, db': Database, o: Id) {
    && o in db.oauth
    && var w := db.oauth[o];
    && w.deployment in db.deployments && w.app in db.apps
    && db' == db.(
         oauth := db.oauth[o := Left(w, OAuthFailed)],
         apps := db.apps[w.app := db.apps[w.app].(status := NeedsAction)],
         deployments := db.deployments[w.deployment := db.deployments[w.deployment].(
           phase := if w.preview.Some? then ClaimPending else AwaitingOAuth)])
    && AwaitOAuth(db', OAuthDraft(w.app, w.deployment, w.generation, w.preview)).Some?
  }

  lemma CancelMeans(db: Database, o: Id)
    ensures CancelOAuth(db, o).Some? <==> MayCancel(db, o)
    ensures MayCancel(db, o) ==> Cancels(db, CancelOAuth(db, o).value, o)
  {
  }

  // ----- targets -----

  /** A deployment that waits for a target takes any connection, or a usable preview of its App unless it is a
      rollback; later only the same target is accepted again. */
  ghost predicate MaySelect(db: Database, d: Id, target: Target) {
    && d in db.deployments && !target.Unassigned?
    && var row := db.deployments[d];
    && AtGeneration(db, row.app, d, row.generation)
    && (target.Temporary? ==> row.rollbackOf.None?)
    && (if row.phase.AwaitingTarget? then
          target.Temporary? ==> Usable(db, target.preview) && db.previews[target.preview].app == row.app
        else row.target == target)
  }

  predicate UnderWay(p: Phase) {
    p in {Queued, Provisioning, Deploying}
  }

  /** A deployment that waited is queued on the target, like its App; while it is under way the outbox says so. */
  ghost predicate Selects(db: Database, db': Database, d: Id, target: Target, newId: Id) {
    && d in db.deployments
    && var row := db.deployments[d];
    && row.app in db.apps
    && db'.(outbox := db.outbox) ==
         (if row.phase.AwaitingTarget? then
            db.(deployments := db.deployments[d := row.(phase := Queued, target := target)],
                apps := db.apps[row.app := db.apps[row.app].(target := target)])
          else db)
    && (if row.phase.AwaitingTarget? || UnderWay(row.phase)
        then Enqueues(db'.(outbox := db.outbox), db'.outbox, d, target, newId) && Announced(db', d, target)
        else db'.outbox == db.outbox)
  }

  lemma SelectAllowed(db: Database, d: Id, target: Target, newId: Id)
    requires newId !in db.outbox
    ensures SelectTarget(db, d, target, newId).Some? <==> MaySelect(db, d, target)
  {
    hide Enqueue;
  }

  lemma SelectMeans(db: Database, d: Id, target: Target, newId: Id)
    requires SelectTarget(db, d, target, newId).Some?
    ensures Selects(db, SelectTarget(db, d, target, newId).value, d, target, newId)
  {
    var db' := SelectTarget(db, d, target, newId).value;
    var queued := db'.(outbox := db.outbox);
    EnqueueMeans(queued, d, target, newId);
    EnqueueAnnounces(queued, d, target, newId);
    hide Enqueue, Enqueues, Announced, UsableTarget;
    var phase := db.deployments[d].phase;
    if phase.AwaitingTarget? || UnderWay(phase) {
      assert db' == queued.(outbox := Enqueue(queued, d, target, newId));
    }
  }

  ghost predicate MayMove(db: Database, d: Id, g: nat, t: Token, from: Phase, to: Phase) {
    && d in db.deployments && db.deployments[d].app in db.apps && db.deployments[d].generation == g
    && db.deployments[d].phase == from && HoldsLease(db, db.deployments[d].app, g, t) && MayFollow(from, to)
  }

  /** What may come next: on the way up one phase at a time, from the middle also failure, from a served preview also
      its expiry. */
  predicate MayFollow(from: Phase, to: Phase) {
    match to
    case Provisioning => from.Queued?
    case Deploying => from.Provisioning?
    case TemporaryReady => from.Deploying?
    case ClaimPending => from.TemporaryReady?
    case VerifyingClaim => from.ClaimPending?
    case Ready => from in {Deploying, VerifyingClaim}
    case Failed => from in {Provisioning, Deploying, VerifyingClaim}
    case Expired => from in {TemporaryReady, ClaimPending}
    case _ => false
  }

  /** The holder of the live lease moved the phase forward, and nothing else happened. */
  ghost predicate Moves(db: Database, db': Database, d: Id, from: Phase, to: Phase) {
    && d in db.deployments && db.deployments[d].phase == from && !Terminal(from) && Rank(from) <= Rank(to)
    && db' == db.(deployments := db.deployments[d := db.deployments[d].(phase := to)])
  }

  lemma FollowsTheTable(from: Phase, to: Phase)
    ensures AllowedTransition(from, to) <==> MayFollow(from, to)
    ensures MayFollow(from, to) ==> !Terminal(from) && Rank(from) <= Rank(to)
  {
  }

  lemma TransitionMeans(db: Database, d: Id, g: nat, t: Token, from: Phase, to: Phase)
    ensures Transition(db, d, g, t, from, to).Some? <==> MayMove(db, d, g, t, from, to)
    ensures MayMove(db, d, g, t, from, to) ==> Moves(db, Transition(db, d, g, t, from, to).value, d, from, to)
  {
    FollowsTheTable(from, to);
    hide AllowedTransition, MayFollow, Terminal, Rank;
  }

  /** Apps on the connection have no target any more, and only they change. */
  ghost predicate Unlinks(db: Database, db': Database, c: Id) {
    && db' == db.(apps := db'.apps) && db'.apps.Keys == db.apps.Keys
    && (forall a | a in db.apps :: db'.apps[a] ==
          (if db.apps[a].target == Byoc(c) then db.apps[a].(target := Unassigned) else db.apps[a]))
  }

  lemma UnlinkMeans(db: Database, c: Id)
    ensures Unlinks(db, UnlinkConnection(db, c), c)
  {
  }

  // ----- resource receipts -----

  /** The caller is fenced, the deployment has a target and has got as far as provisioning without expiring or being
      cancelled, and a preview takes only worker and assets. */
  ghost predicate MayCheck(db: Database, c: Id, w: ReceiptCall) {
    && c !in db.receipts.calls && !w.done && Fenced(db, w.app, w.at.deployment, w.generation, w.token)
    && var row := db.deployments[w.at.deployment];
    && row.phase !in {Building, AwaitingTarget, AwaitingOAuth, Queued, Expired, Cancelled}
    && (row.target.Byoc? || (row.target.Temporary? && w.at.kind in {WorkerKind, AssetsKind}))
  }

  lemma CheckMeans(db: Database, c: Id, w: ReceiptCall)
    ensures CheckReceipt(db, c, w).Some? <==> MayCheck(db, c, w)
    ensures MayCheck(db, c, w) ==> CheckReceipt(db, c, w).value.receipts.calls == db.receipts.calls[c := w]
  {
  }

  ghost predicate MayStore(db: Database, c: Id) {
    && c in db.receipts.calls && !db.receipts.calls[c].done
    && var w := db.receipts.calls[c];
      w.at in db.receipts.rows ==> db.receipts.rows[w.at].created == w.row.created
  }

  /** The row is stored as written and the call is done. */
  ghost predicate StoresReceipt(db: Database, db': Database, c: Id) {
    && c in db.receipts.calls
    && var w := db.receipts.calls[c];
      db' == db.(receipts := Receipts(db.receipts.rows[w.at := w.row], db.receipts.calls[c := w.(done := true)]))
  }

  lemma StoreMeans(db: Database, c: Id)
    ensures StoreReceipt(db, c).Some? <==> MayStore(db, c)
    ensures MayStore(db, c) ==> StoresReceipt(db, StoreReceipt(db, c).value, c)
  {
  }
}
