/**
 What each call of the control plane means to whoever made it: when it is accepted, and what every
 row it writes holds afterwards, told on the state before and the state after.
 */
module AppEffects {
  import opened Options
  import opened AppTables
  import opened AppSteps
  import opened AppCore
  import opened AppLeases
  import opened AppOutbox
  import opened AppAttempts
  import opened AppClaims
  import opened AppReceipts
  import opened AppSafety

  // ----- generations -----

  ghost predicate SameCurrent(db: Database, db': Database, a: Id) {
    a in db.apps ==> a in db'.apps && db'.apps[a].current == db.apps[a].current
  }

  /** No deployment that existed before can be completed, failed or given a target any more. */
  ghost predicate Supersedes(db: Database, db': Database, a: Id) {
    && SameCurrent(db, db', a)
    && (forall e, g | e in db.deployments && db.deployments[e].app == a :: !AtGeneration(db', a, e, g))
  }

  ghost predicate Newest(ds: Deployments, a: Id, d: Id) {
    && d in ds && ds[d].app == a
    && (forall e | e in ds && ds[e].app == a && e != d ::
          ds[e].version < ds[d].version && ds[e].generation < ds[d].generation)
  }

  /** One more than the version of some deployment of the App, or the first one. */
  ghost predicate NextInLine(db: Database, a: Id, version: nat) {
    || (version == 1 && forall e | e in db.deployments :: db.deployments[e].app != a)
    || (exists e | e in db.deployments :: db.deployments[e].app == a && version == db.deployments[e].version + 1)
  }

  ghost predicate HasKey(db: Database, a: Id, key: Id) {
    exists e | e in db.deployments :: db.deployments[e].app == a && db.deployments[e].key == key
  }

  /** One deployment has the key: the one that had it before, or a new one that supersedes all others and waits for a
      target; its App needs action and keeps what it serves. */
  ghost predicate Publishes(
    db: Database, db': Database, a: Id, key: Id, d: Id, session: Id, sessionGeneration: nat,
    artifact: Option<Id>, rollbackOf: Option<Id>)
  {
    if HasKey(db, a, key) then db' == db
    else
      && d !in db.deployments && Newest(db'.deployments, a, d) && NextInLine(db, a, db'.deployments[d].version)
      && Supersedes(db, db', a) && AtGeneration(db', a, d, db'.deployments[d].generation)
      && db' == db.(apps := db.apps[a := db'.apps[a]], deployments := db.deployments[d := db'.deployments[d]])
      && db'.deployments[d] ==
           Deployment(a, db'.deployments[d].version, db'.apps[a].generation, key, rollbackOf,
                      session, sessionGeneration, AwaitingTarget, Unassigned, artifact, None)
      && db'.apps[a] ==
           (if a in db.apps then
              db.apps[a].(generation := db.apps[a].generation + 1, status := NeedsAction,
                          session := session, sessionGeneration := sessionGeneration)
            else App(1, NeedsAction, None, Unassigned, session, sessionGeneration))
  }

  /** A used key is always accepted; otherwise the App is neither archived nor published from a later turn of the
      same session. */
  ghost predicate MayBegin(db: Database, p: Publish) {
    && p.deployment !in db.deployments && (p.isNew <==> p.app !in db.apps)
    && (HasKey(db, p.app, p.key) || p.isNew
        || (&& !db.apps[p.app].status.Archived?
            && (p.session == db.apps[p.app].session ==> p.sessionGeneration >= db.apps[p.app].sessionGeneration)))
  }

  /** Only a ready deployment of the App with a provider version can be rolled back to, and not while the App is
      archived, building or deploying. */
  ghost predicate MayRollBack(db: Database, a: Id, to: Id, key: Id, newId: Id) {
    && a in db.apps && newId !in db.deployments
    && db.apps[a].status !in {Archived, StatusBuilding, StatusDeploying}
    && (HasKey(db, a, key)
        || (&& to in db.deployments && db.deployments[to].app == a && db.deployments[to].phase.Ready?
            && db.deployments[to].providerVersion.Some?))
  }

  lemma NextVersionIsNextInLine(db: Database, a: Id)
    ensures NextInLine(db, a, NextVersion(db, a))
  {
    var versions := VersionsOf(db, a);
    assert forall e | e in db.deployments && db.deployments[e].app == a :: db.deployments[e].version in versions;
    if versions != {} {
      assert MaxOf(versions) in versions;
    }
  }

  lemma BeginPublishes(db: Database, p: Publish)
    requires Inv(db) && Begin(db, p).Some?
    ensures Publishes(db, Begin(db, p).value, p.app, p.key, p.deployment, p.session, p.sessionGeneration,
                      p.artifact, p.rollbackOf)
  {
    hide LeasesInv, OutboxInv, ReceiptsInv, OneOpenPreview, Ordered, CurrentFits;
    NextVersionIsNextInLine(db, p.app);
    hide NextInLine;
    forall e | e in db.deployments && db.deployments[e].app == p.app
      ensures db.deployments[e].version < NextVersion(db, p.app)
    {
      NextVersionIsNewest(db, p.app, e);
    }
  }

  lemma BeginAllowed(db: Database, p: Publish)
    ensures Begin(db, p).Some? <==> MayBegin(db, p)
  {
    hide NextVersion;
  }

  /** A rollback publishes the artifact and the source of the deployment it goes back to. */
  ghost predicate RollsBack(db: Database, db': Database, a: Id, to: Id, key: Id, newId: Id) {
    && (HasKey(db, a, key) ==> db' == db)
    && (!HasKey(db, a, key) ==>
          && to in db.deployments
          && Publishes(db, db', a, key, newId, db.deployments[to].session, db.deployments[to].sessionGeneration,
                       db.deployments[to].artifact, Some(to)))
  }

  lemma RollBackPublishes(db: Database, a: Id, to: Id, key: Id, newId: Id)
    requires Inv(db) && RollBack(db, a, to, key, newId).Some?
    ensures RollsBack(db, RollBack(db, a, to, key, newId).value, a, to, key, newId)
  {
    hide LeasesInv, OutboxInv, ReceiptsInv, OneOpenPreview, Ordered, CurrentFits;
    NextVersionIsNextInLine(db, a);
    hide NextInLine;
    forall e | e in db.deployments && db.deployments[e].app == a
      ensures db.deployments[e].version < NextVersion(db, a)
    {
      NextVersionIsNewest(db, a, e);
    }
  }

  lemma RollBackAllowed(db: Database, a: Id, to: Id, key: Id, newId: Id)
    ensures RollBack(db, a, to, key, newId).Some? <==> MayRollBack(db, a, to, key, newId)
  {
    hide NextVersion;
  }

  /** The App has the status and no target, at the next generation, and nothing else has changed. */
  ghost predicate Bumps(db: Database, db': Database, a: Id, status: Status) {
    && a in db.apps && Supersedes(db, db', a)
    && db' == db.(apps := db.apps[a :=
         db.apps[a].(status := status, target := Unassigned, generation := db.apps[a].generation + 1)])
  }

  /** An App that is archived already stays as it is. */
  ghost predicate Archives(db: Database, db': Database, a: Id) {
    a in db.apps && if db.apps[a].status.Archived? then db' == db else Bumps(db, db', a, Archived)
  }

  lemma BumpsSupersede(db: Database, a: Id)
    requires Inv(db)
    ensures Archive(db, a).Some? <==> a in db.apps
    ensures Restore(db, a).Some? <==> a in db.apps && db.apps[a].status.Archived?
    ensures Archive(db, a).Some? ==> Archives(db, Archive(db, a).value, a)
    ensures Restore(db, a).Some? ==> Bumps(db, Restore(db, a).value, a, NeedsAction)
  {
    hide LeasesInv, OutboxInv, ReceiptsInv, OneOpenPreview, Ordered, CurrentFits;
  }

  // ----- one deployment -----

  /** The one deployment and the row of its App have become these, and nothing else has changed. */
  ghost predicate Become(db: Database, db': Database, a: Id, app: App, d: Id, row: Deployment) {
    && a in db.apps && d in db.deployments
    && db' == db.(apps := db.apps[a := app], deployments := db.deployments[d := row])
  }

  ghost predicate MayDeploy(db: Database, a: Id, d: Id, g: nat, t: Token) {
    Fenced(db, a, d, g, t) && db.deployments[d].phase in {Queued, Provisioning, Deploying}
  }

  /** Deployment and App are deploying, the caller is still fenced and may complete at once. */
  ghost predicate Deploys(db: Database, db': Database, a: Id, d: Id, g: nat, t: Token) {
    && Fenced(db, a, d, g, t) && Fenced(db', a, d, g, t)
    && Become(db, db', a, db.apps[a].(status := StatusDeploying), d, db.deployments[d].(phase := Deploying))
    && (forall temporary, artifact, v :: MayComplete(db', a, d, g, t, temporary, artifact, v))
  }

  lemma DeployingMeans(db: Database, a: Id, d: Id, g: nat, t: Token)
    ensures MarkDeploying(db, a, d, g, t).Some? <==> MayDeploy(db, a, d, g, t)
    ensures MayDeploy(db, a, d, g, t) ==> Deploys(db, MarkDeploying(db, a, d, g, t).value, a, d, g, t)
  {
  }

  /** A deploying deployment can be completed, and a completed one only with the same outcome again. */
  ghost predicate MayComplete(
    db: Database, a: Id, d: Id, g: nat, t: Token, temporary: bool, artifact: Id, v: Id)
  {
    && Fenced(db, a, d, g, t)
    && var row := db.deployments[d];
      || row.phase.Deploying?
      || (&& (if temporary then row.phase.TemporaryReady? else row.phase.Ready?)
          && row.artifact == Some(artifact) && row.providerVersion == Some(v))
  }

  /** The one who completes is fenced, and what is served from then on is the newest deployment of the App, which
      reports `ready` for a lasting deployment and `preview` for a temporary one; doing it again changes nothing. */
  ghost predicate Completes(
    db: Database, db': Database, a: Id, d: Id, g: nat, t: Token, temporary: bool, artifact: Id, v: Id)
  {
    && Fenced(db, a, d, g, t) && Newest(db'.deployments, a, d)
    && (if db.deployments[d].phase.Deploying? then
          && Become(db, db', a,
                    db.apps[a].(status := if temporary then Preview else StatusReady, current := Some(d)),
                    d, db.deployments[d].(phase := if temporary then TemporaryReady else Ready,
                                          artifact := Some(artifact), providerVersion := Some(v)))
          && VersionOf(db.deployments, db.apps[a].current) <= db'.deployments[d].version
        else db' == db)
    && MayComplete(db', a, d, g, t, temporary, artifact, v)
  }

  lemma PresentIsNewest(apps: Apps, ds: Deployments, a: Id, d: Id)
    requires CoreInv(apps, ds) && a in apps && NamesDeployment(ds, d, a, apps[a].generation)
    ensures Newest(ds, a, d)
  {
    hide CurrentFits;
    forall e | e in ds && ds[e].app == a && e != d
      ensures ds[e].version < ds[d].version && ds[e].generation < ds[d].generation
    {
      assert RowsOrdered(e, ds[e], d, ds[d]);
    }
  }

  lemma CompleteAllowed(db: Database, a: Id, d: Id, g: nat, t: Token, temporary: bool, artifact: Id, v: Id)
    ensures Complete(db, a, d, g, t, temporary, artifact, v).Some?
       <==> MayComplete(db, a, d, g, t, temporary, artifact, v)
  {
  }

  lemma CompleteCompletes(db: Database, a: Id, d: Id, g: nat, t: Token, temporary: bool, artifact: Id, v: Id)
    requires Inv(db) && Complete(db, a, d, g, t, temporary, artifact, v).Some?
    ensures Completes(db, Complete(db, a, d, g, t, temporary, artifact, v).value, a, d, g, t, temporary, artifact, v)
  {
    hide LeasesInv, OutboxInv, ReceiptsInv, OneOpenPreview, CoreInv, CoreEvolves, Newest;
    var db' := Complete(db, a, d, g, t, temporary, artifact, v).value;
    CompleteKeepsCore(db, a, d, g, t, temporary, artifact, v);
    CoreFrame(db.apps, db.deployments);
    PresentIsNewest(db'.apps, db'.deployments, a, d);
    CurrentIsNoNewer(db, a, d);
  }

  lemma CurrentIsNoNewer(db: Database, a: Id, d: Id)
    requires CoreInv(db.apps, db.deployments) && a in db.apps
    requires NamesDeployment(db.deployments, d, a, db.apps[a].generation)
    ensures VersionOf(db.deployments, db.apps[a].current) <= db.deployments[d].version
  {
    PresentIsNewest(db.apps, db.deployments, a, d);
  }

  /** What the App still serves is ready. */
  ghost predicate ServesReady(db: Database, a: Id) {
    a in db.apps && exists c :: db.apps[a].current == Some(c) && c in db.deployments && db.deployments[c].phase.Ready?
  }

  /** Any deployment that is not over can fail, with or without a lease; a failed one may fail again. */
  ghost predicate MayFail(db: Database, a: Id, d: Id, g: nat, t: Option<Token>) {
    && AtGeneration(db, a, d, g) && (t.Some? ==> HoldsLease(db, a, g, t.value))
    && db.deployments[d].phase !in {Ready, Expired, Cancelled}
  }

  /** The deployment is failed and what was served stays served: the App says `ready` if that is ready, `preview` if it
      is something else, and `failed` if nothing is served; failing again changes nothing. */
  ghost predicate Fails(db: Database, db': Database, a: Id, d: Id, g: nat) {
    && AtGeneration(db, a, d, g)
    && (if db.deployments[d].phase.Failed? then db' == db
        else Become(db, db', a,
                    db.apps[a].(status := if db.apps[a].current.None? then StatusFailed
                                          else if ServesReady(db', a) then StatusReady else Preview),
                    d, db.deployments[d].(phase := Failed)))
    && (ServesReady(db, a) ==> ServesReady(db', a))
  }

  lemma FailMeans(db: Database, a: Id, d: Id, g: nat, t: Option<Token>)
    ensures Fail(db, a, d, g, t).Some? <==> MayFail(db, a, d, g, t)
    ensures MayFail(db, a, d, g, t) ==> Fails(db, Fail(db, a, d, g, t).value, a, d, g)
    ensures MayFail(db, a, d, g, t) ==> MayFail(Fail(db, a, d, g, t).value, a, d, g, t)
  {
  }

  // ----- leases -----

  /** It runs out when the caller asked, but not within a second and not after five minutes. */
  predicate RunsOut(db: Database, at: Time, ttl: int) {
    && (1_000 <= ttl <= 300_000 ==> at == db.now + ttl)
    && (ttl < 1_000 ==> at == db.now + 1_000)
    && (ttl > 300_000 ==> at == db.now + 300_000)
  }

  /** The App is at the generation and not archived, and whoever holds its live lease is the caller. */
  ghost predicate MayAcquire(db: Database, a: Id, holder: Id, g: nat, t: Token) {
    && t !in db.issued && a in db.apps && db.apps[a].generation == g && !db.apps[a].status.Archived?
    && (forall u | Live(db, a, u) :: db.leases[a].holder == holder)
  }

  /** The new token is live and the only one. */
  ghost predicate Acquires(db: Database, db': Database, a: Id, holder: Id, g: nat, ttl: int, t: Token) {
    && HoldsLease(db', a, g, t) && RunsOut(db, db'.leases[a].expiresAt, ttl)
    && db' == db.(leases := db.leases[a := Lease(t, holder, g, db'.leases[a].expiresAt)], issued := db.issued + {t})
    && (forall u | Live(db', a, u) :: u == t)
    && (forall b, u | b != a :: Live(db', b, u) <==> Live(db, b, u))
  }

  lemma AcquireMeans(db: Database, a: Id, holder: Id, g: nat, ttl: int, t: Token)
    ensures AcquireLease(db, a, holder, g, ttl, t).Some? <==> MayAcquire(db, a, holder, g, t)
    ensures MayAcquire(db, a, holder, g, t) ==>
      Acquires(db, AcquireLease(db, a, holder, g, ttl, t).value, a, holder, g, ttl, t)
  {
    if a in db.leases { assert Live(db, a, db.leases[a].token) <==> db.now < db.leases[a].expiresAt; }
  }

  ghost predicate MayRenew(db: Database, a: Id, t: Token, g: nat) {
    HoldsLease(db, a, g, t) && a in db.apps && db.apps[a].generation == g
  }

  /** Only a live token is renewed, it stays the one live token, and nothing but its end changes. */
  ghost predicate Renews(db: Database, db': Database, a: Id, t: Token, g: nat, ttl: int) {
    && HoldsLease(db, a, g, t) && HoldsLease(db', a, g, t) && RunsOut(db, db'.leases[a].expiresAt, ttl)
    && db' == db.(leases := db.leases[a := db.leases[a].(expiresAt := db'.leases[a].expiresAt)])
    && (forall b, u :: Live(db', b, u) <==> Live(db, b, u))
  }

  lemma RenewMeans(db: Database, a: Id, t: Token, g: nat, ttl: int)
    ensures RenewLease(db, a, t, g, ttl).Some? <==> MayRenew(db, a, t, g)
    ensures MayRenew(db, a, t, g) ==> Renews(db, RenewLease(db, a, t, g, ttl).value, a, t, g, ttl)
  {
  }

  /** The token is gone, anyone may acquire the lease, and no other App's lease is touched. */
  ghost predicate Releases(db: Database, db': Database, a: Id) {
    && db' == db.(leases := db.leases - {a}) && (forall u :: !Live(db', a, u))
    && (forall b, u | b != a :: Live(db', b, u) <==> Live(db, b, u))
    && (a in db.apps && !db.apps[a].status.Archived? ==>
          forall holder, u | u !in db.issued :: MayAcquire(db', a, holder, db.apps[a].generation, u))
  }

  lemma ReleaseMeans(db: Database, a: Id, t: Token)
    ensures ReleaseLease(db, a, t).Some? <==> a in db.leases && db.leases[a].token == t
    ensures ReleaseLease(db, a, t).Some? ==> Releases(db, ReleaseLease(db, a, t).value, a)
  {
  }

  // ----- outbox -----

  ghost predicate ClaimedBy(db: Database, o: Id, worker: Id) {
    o in db.outbox && exists until :: db.outbox[o].state == Leased(worker, until)
  }

  predicate Open(s: OutboxState) {
    s.Pending? || s.Leased?
  }

  /** One row left its open state for good and nothing else changed. */
  ghost predicate SettlesRow(db: Database, db': Database, o: Id, completed: bool) {
    && o in db.outbox && Open(db.outbox[o].state)
    && db' == db.(outbox := db.outbox[o := db.outbox[o].(state := if completed then Completed else OutboxFailed)])
    && (completed ==>
          && db.outbox[o].app in db.apps
          && db.apps[db.outbox[o].app].generation == db.outbox[o].generation)
  }

  /** Pending or left by a worker whose lease ran out, and not to wait any longer. */
  predicate Due(db: Database, r: OutboxRow) {
    r.availableAt <= db.now && (r.state.Pending? || (r.state.Leased? && r.state.until <= db.now))
  }

  /** The rows were due; the worker has them now, one attempt more, and no other row changes. */
  ghost predicate Takes(db: Database, db': Database, rows: set<Id>, worker: Id, ttl: int) {
    && db' == db.(outbox := db'.outbox) && rows <= db.outbox.Keys == db'.outbox.Keys
    && (forall o | o in rows ::
          && Due(db, db.outbox[o]) && db'.outbox[o].state.Leased? && RunsOut(db, db'.outbox[o].state.until, ttl)
          && db'.outbox[o] == db.outbox[o].(state := Leased(worker, db'.outbox[o].state.until),
                                            attempts := db.outbox[o].attempts + 1))
    && (forall o | o in db.outbox && o !in rows :: db'.outbox[o] == db.outbox[o])
  }

  lemma ClaimTakes(db: Database, rows: set<Id>, worker: Id, ttl: int)
    requires ClaimOutbox(db, rows, worker, ttl).Some?
    ensures Takes(db, ClaimOutbox(db, rows, worker, ttl).value, rows, worker, ttl)
  {
  }

  lemma ClaimedRowsSettle(db: Database, o: Id, worker: Id)
    ensures ClaimedBy(db, o, worker) <==> FailClaimedOutbox(db, o, worker).Some?
    ensures ClaimedBy(db, o, worker) ==>
      && (CompleteOutbox(db, o, worker).Some? <==> RowIsCurrent(db, db.outbox[o]))
      && SettlesRow(db, FailClaimedOutbox(db, o, worker).value, o, false)
    ensures CompleteOutbox(db, o, worker).Some? ==> ClaimedBy(db, o, worker)
    ensures CompleteOutbox(db, o, worker).Some? ==> SettlesRow(db, CompleteOutbox(db, o, worker).value, o, true)
  {
    if LeasedBy(db, o, worker) { assert db.outbox[o].state == Leased(worker, db.outbox[o].state.until); }
  }

  /** The wait doubles from one second and stops growing after the eighth attempt. */
  const WAIT_SECONDS: seq<nat> := [1, 2, 4, 8, 16, 32, 64, 128, 256]

  /** Before its tenth attempt a row goes back and waits; at the tenth it fails. */
  ghost predicate GivesBack(db: Database, db': Database, o: Id) {
    && o in db.outbox
    && var row := db.outbox[o];
      db' == db.(outbox := db.outbox[o :=
        row.(state := if row.attempts < 10 then Pending else OutboxFailed,
             availableAt := db.now + 1_000 * WAIT_SECONDS[if row.attempts < 8 then row.attempts else 8])])
  }

  lemma WaitsAsListed(attempts: nat)
    ensures Backoff(attempts) == 1_000 * WAIT_SECONDS[if attempts < 8 then attempts else 8]
  {
    assert Pow2(0) == 1 && Pow2(1) == 2 && Pow2(2) == 4 && Pow2(3) == 8 && Pow2(4) == 16;
    assert Pow2(5) == 32 && Pow2(6) == 64 && Pow2(7) == 128 && Pow2(8) == 256;
    if attempts < 8 {
      match attempts
      case 0 => case 1 => case 2 => case 3 => case 4 => case 5 => case 6 => case 7 =>
    }
  }

  lemma RetryGivesBack(db: Database, o: Id, worker: Id)
    ensures RetryOutbox(db, o, worker).Some? <==> ClaimedBy(db, o, worker)
    ensures RetryOutbox(db, o, worker).Some? ==> GivesBack(db, RetryOutbox(db, o, worker).value, o)
  {
    if LeasedBy(db, o, worker) {
      assert db.outbox[o].state == Leased(worker, db.outbox[o].state.until);
      WaitsAsListed(db.outbox[o].attempts);
    }
    hide Backoff;
  }

  /** An open row with this key and generation can be settled by the holder of the lease, completed only while the
      generation is the App's. */
  ghost predicate MaySettle(
    db: Database, o: Id, a: Id, op: Operation, key: Id, g: nat, t: Token, completed: bool)
  {
    && o in db.outbox && Open(db.outbox[o].state) && HoldsLease(db, a, g, t)
    && db.outbox[o].app == a && db.outbox[o].operation == op && db.outbox[o].key == key
    && db.outbox[o].generation == g && (completed ==> a in db.apps && db.apps[a].generation == g)
  }

  lemma KeyedAllowed(db: Database, o: Id, a: Id, op: Operation, key: Id, g: nat, t: Token)
    ensures CompleteOutboxByKey(db, o, a, op, key, g, t).Some? <==> MaySettle(db, o, a, op, key, g, t, true)
    ensures FailOutboxByKey(db, o, a, op, key, g, t).Some? <==> MaySettle(db, o, a, op, key, g, t, false)
  {
  }

  /** The row that a key selects is the only one with that key. */
  lemma KeyedRowsSettle(db: Database, o: Id, a: Id, op: Operation, key: Id, g: nat, t: Token)
    requires Inv(db)
    ensures CompleteOutboxByKey(db, o, a, op, key, g, t).Some? ==>
      SettlesRow(db, CompleteOutboxByKey(db, o, a, op, key, g, t).value, o, true)
    ensures FailOutboxByKey(db, o, a, op, key, g, t).Some? ==>
      && SettlesRow(db, FailOutboxByKey(db, o, a, op, key, g, t).value, o, false)
      && (forall p | p in db.outbox && SameKey(db.outbox[p], a, op, key) :: p == o)
  {
    hide CoreInv, LeasesInv, ReceiptsInv, OneOpenPreview, RowFits;
    if FailOutboxByKey(db, o, a, op, key, g, t).Some? {
      forall p | p in db.outbox && SameKey(db.outbox[p], a, op, key) ensures p == o {
        assert SharesKey(db.outbox[o], db.outbox[p]);
      }
    }
  }
}
