/**
 AppsControlPlane.  The tables live in one shared object; each method performs its checks and
 updates in the order of the service and is proved to commit exactly the step AppSteps describes,
 or to leave the tables alone where the service throws.
 */
module ControlPlane {
  import opened Options
  import opened AppTables
  import opened AppSteps
  import opened AppClaims
  import opened AppSafety
  import opened AppEffects

  /** The tables, as one connection sees them. */
  class Tables {
    var now: Time
    var apps: map<Id, App>
    var deployments: map<Id, Deployment>
    var leases: map<Id, Lease>
    var issued: set<Token>
    var outbox: map<Id, OutboxRow>
    var drafts: set<OAuthDraft>
    var oauth: map<Id, OAuthRow>
    var previews: map<Id, PreviewRow>
    var receipts: Receipts

    ghost function View(): Database
      reads this
    {
      Database(now, apps, deployments, leases, issued, outbox, drafts, oauth, previews, receipts)
    }

    constructor ()
      ensures View() == EMPTY
    {
      now, apps, deployments, leases, issued := 0, map[], map[], map[], {};
      outbox, drafts, oauth, previews, receipts := map[], {}, map[], map[], Receipts(map[], map[]);
    }

    /** The unexpired lease row of requireActiveLease. */
    predicate ActiveLease(a: Id, g: nat, t: Token)
      reads this
    {
      a in leases && leases[a].generation == g && leases[a].token == t && now < leases[a].expiresAt
    }

    /** The deployment row of this App and generation, provided the App is at that generation too. */
    predicate CurrentRow(a: Id, d: Id, g: nat)
      reads this
    {
      a in apps && apps[a].generation == g && d in deployments
      && deployments[d].app == a && deployments[d].generation == g
    }

    /** coalesce(max(version), 0) + 1 over the App's deployments. */
    method VersionAfterMax(a: Id) returns (v: nat)
      ensures v == NextVersion(View(), a)
    {
      var left := deployments.Keys;
      var max := 0;
      while left != {}
        invariant left <= deployments.Keys
        invariant forall d | d in deployments.Keys - left && deployments[d].app == a :: deployments[d].version <= max
        invariant max == 0 || max in VersionsOf(View(), a)
        decreases left
      {
        var d :| d in left;
        if deployments[d].app == a && deployments[d].version > max {
          max := deployments[d].version;
        }
        left := left - {d};
      }
      v := max + 1;
      MaxIsUnique(View(), a, max);
    }
  }

  lemma MaxIsUnique(db: Database, a: Id, max: nat)
    requires forall d | d in db.deployments && db.deployments[d].app == a :: db.deployments[d].version <= max
    requires max == 0 || max in VersionsOf(db, a)
    ensures NextVersion(db, a) == max + 1
  {
  }

  /** A service call either commits its step or throws and leaves the tables alone; in a reachable state it keeps every
      invariant and moves every row forward only. */
  ghost predicate Performs(before: Database, s: Step, ok: bool, after: Database) {
    && ok == Try(before, s).Some? && after == Apply(before, s)
    && (Inv(before) ==> Inv(after) && Evolves(before, after))
    && (Inv(before) && ClaimsInv(before) && ServesByCompletion(s) ==> ClaimsInv(after))
  }

  lemma StepPerforms(before: Database, s: Step)
    ensures Performs(before, s, Try(before, s).Some?, Apply(before, s))
  {
    if Inv(before) {
      StepKeepsInv(before, s);
      StepKeepsClaims(before, s);
    }
  }

  class AppsControlPlane {
    const pool: Tables

    constructor (pool: Tables)
      ensures this.pool == pool
    {
      this.pool := pool;
    }

    method BeginDeployment(p: Publish) returns (ok: bool)
      modifies pool
      ensures Performs(old(pool.View()), Control(DoBegin(p)), ok, pool.View())
      ensures ok <==> MayBegin(old(pool.View()), p)
      ensures Inv(old(pool.View())) && ok ==>
                Publishes(old(pool.View()), pool.View(), p.app, p.key, p.deployment, p.session, p.sessionGeneration,
                          p.artifact, p.rollbackOf)
    {
      hide Performs, Inv, MayBegin, Publishes;
      ghost var before := pool.View();
      StepPerforms(before, Control(DoBegin(p)));
      BeginAllowed(before, p);
      if Inv(before) && MayBegin(before, p) {
        BeginPublishes(before, p);
      }
      if p.deployment in pool.deployments || p.isNew == (p.app in pool.apps) {
        return false;
      }
      if exists d | d in pool.deployments :: pool.deployments[d].app == p.app && pool.deployments[d].key == p.key {
        return true;
      }
      var version := pool.VersionAfterMax(p.app);
      var generation := 1;
      if p.isNew {
        pool.apps := pool.apps[p.app := App(1, NeedsAction, None, Unassigned, p.session, p.sessionGeneration)];
      } else {
        var app := pool.apps[p.app];
        if app.status == Archived {
          return false;
        }
        if app.session == p.session && p.sessionGeneration < app.sessionGeneration {
          return false;
        }
        generation := app.generation + 1;
        pool.apps := pool.apps[p.app := app.(session := p.session, sessionGeneration := p.sessionGeneration,
                                             status := NeedsAction, generation := generation)];
      }
      var row := Deployment(p.app, version, generation, p.key, p.rollbackOf, p.session, p.sessionGeneration,
                            AwaitingTarget, Unassigned, p.artifact, None);
      pool.deployments := pool.deployments[p.deployment := row];
      return true;
    }

    method RollBack(a: Id, to: Id, key: Id, newId: Id) returns (ok: bool)
      modifies pool
      ensures Performs(old(pool.View()), Control(DoRollBack(a, to, key, newId)), ok, pool.View())
      ensures ok <==> MayRollBack(old(pool.View()), a, to, key, newId)
      ensures Inv(old(pool.View())) && ok ==> RollsBack(old(pool.View()), pool.View(), a, to, key, newId)
    {
      hide Performs, Inv, MayRollBack, RollsBack;
      ghost var before := pool.View();
      StepPerforms(before, Control(DoRollBack(a, to, key, newId)));
      RollBackAllowed(before, a, to, key, newId);
      if Inv(before) && MayRollBack(before, a, to, key, newId) {
        RollBackPublishes(before, a, to, key, newId);
      }
      if a !in pool.apps || newId in pool.deployments {
        return false;
      }
      var app := pool.apps[a];
      if app.status in {Archived, StatusBuilding, StatusDeploying} {
        return false;
      }
      if exists d | d in pool.deployments :: pool.deployments[d].app == a && pool.deployments[d].key == key {
        return true;
      }
      if to !in pool.deployments || pool.deployments[to].app != a || pool.deployments[to].phase != Ready
         || pool.deployments[to].providerVersion == None {
        return false;
      }
      var source := pool.deployments[to];
      var version := pool.VersionAfterMax(a);
      pool.deployments := pool.deployments[newId :=
        Deployment(a, version, app.generation + 1, key, Some(to), source.session, source.sessionGeneration,
                   AwaitingTarget, Unassigned, source.artifact, None)];
      pool.apps := pool.apps[a := app.(status := NeedsAction, generation := app.generation + 1,
                                       session := source.session, sessionGeneration := source.sessionGeneration)];
      return true;
    }

    method Archive(a: Id) returns (ok: bool)
      modifies pool
      ensures Performs(old(pool.View()), Control(DoArchive(a)), ok, pool.View())
      ensures ok <==> a in old(pool.apps)
      ensures Inv(old(pool.View())) && ok ==> Archives(old(pool.View()), pool.View(), a)
    {
      hide Performs, Inv, Archives;
      ghost var before := pool.View();
      StepPerforms(before, Control(DoArchive(a)));
      if Inv(before) {
        BumpsSupersede(before, a);
      }
      if a !in pool.apps {
        return false;
      }
      var app := pool.apps[a];
      if app.status != Archived {
        pool.apps := pool.apps[a := app.(status := Archived, generation := app.generation + 1, target := Unassigned)];
      }
      return true;
    }

    method Restore(a: Id) returns (ok: bool)
      modifies pool
      ensures Performs(old(pool.View()), Control(DoRestore(a)), ok, pool.View())
      ensures ok <==> a in old(pool.apps) && old(pool.apps)[a].status.Archived?
      ensures Inv(old(pool.View())) && ok ==> Bumps(old(pool.View()), pool.View(), a, NeedsAction)
    {
      hide Performs, Inv, Bumps;
      ghost var before := pool.View();
      StepPerforms(before, Control(DoRestore(a)));
      if Inv(before) {
        BumpsSupersede(before, a);
      }
      if a !in pool.apps || pool.apps[a].status != Archived {
        return false;
      }
      var app := pool.apps[a];
      pool.apps := pool.apps[a := app.(status := NeedsAction, generation := app.generation + 1, target := Unassigned)];
      return true;
    }

    method MarkDeploymentDeploying(a: Id, d: Id, g: nat, t: Token) returns (ok: bool)
      modifies pool
      ensures Performs(old(pool.View()), Control(DoMarkDeploying(a, d, g, t)), ok, pool.View())
      ensures ok <==> MayDeploy(old(pool.View()), a, d, g, t)
      ensures ok ==> Deploys(old(pool.View()), pool.View(), a, d, g, t)
    {
      hide Performs, Inv, MayDeploy, Deploys;
      ghost var before := pool.View();
      StepPerforms(before, Control(DoMarkDeploying(a, d, g, t)));
      DeployingMeans(before, a, d, g, t);
      if !pool.ActiveLease(a, g, t) || !pool.CurrentRow(a, d, g) {
        return false;
      }
      if pool.deployments[d].phase !in {Queued, Provisioning, Deploying} {
        return false;
      }
      pool.deployments := pool.deployments[d := pool.deployments[d].(phase := Deploying)];
      pool.apps := pool.apps[a := pool.apps[a].(status := StatusDeploying)];
      return true;
    }

    method CompleteDeployment(a: Id, d: Id, g: nat, t: Token, temporary: bool, artifact: Id, version: Id)
      returns (ok: bool)
      modifies pool
      ensures Performs(old(pool.View()), Control(DoComplete(a, d, g, t, temporary, artifact, version)), ok, pool.View())
      ensures ok <==> MayComplete(old(pool.View()), a, d, g, t, temporary, artifact, version)
      ensures Inv(old(pool.View())) && ok ==>
                Completes(old(pool.View()), pool.View(), a, d, g, t, temporary, artifact, version)
    {
      hide Performs, Inv, MayComplete, Completes;
      ghost var before := pool.View();
      StepPerforms(before, Control(DoComplete(a, d, g, t, temporary, artifact, version)));
      CompleteAllowed(before, a, d, g, t, temporary, artifact, version);
      if Inv(before) && MayComplete(before, a, d, g, t, temporary, artifact, version) {
        CompleteCompletes(before, a, d, g, t, temporary, artifact, version);
      }
      if !pool.ActiveLease(a, g, t) || !pool.CurrentRow(a, d, g) {
        return false;
      }
      var phase := if temporary then TemporaryReady else Ready;
      var row := pool.deployments[d];
      if row.phase == phase {
        return row.providerVersion == Some(version) && row.artifact == Some(artifact);
      }
      if row.phase != Deploying {
        return false;
      }
      pool.deployments := pool.deployments[d :=
        row.(phase := phase, providerVersion := Some(version), artifact := Some(artifact))];
      pool.apps := pool.apps[a :=
        pool.apps[a].(status := if temporary then Preview else StatusReady, current := Some(d))];
      return true;
    }

    method FailDeployment(a: Id, d: Id, g: nat, t: Option<Token>) returns (ok: bool)
      modifies pool
      ensures Performs(old(pool.View()), Control(DoFail(a, d, g, t)), ok, pool.View())
      ensures ok <==> MayFail(old(pool.View()), a, d, g, t)
      ensures ok ==> Fails(old(pool.View()), pool.View(), a, d, g) && MayFail(pool.View(), a, d, g, t)
    {
      hide Performs, Inv, MayFail, Fails;
      ghost var before := pool.View();
      StepPerforms(before, Control(DoFail(a, d, g, t)));
      FailMeans(before, a, d, g, t);
      if t.Some? && !pool.ActiveLease(a, g, t.value) {
        return false;
      }
      if !pool.CurrentRow(a, d, g) {
        return false;
      }
      if pool.deployments[d].phase == Failed {
        return true;
      }
      if Terminal(pool.deployments[d].phase) {
        return false;
      }
      pool.deployments := pool.deployments[d := pool.deployments[d].(phase := Failed)];
      var app := pool.apps[a];
      var status := Preview;
      if app.current.None? {
        status := StatusFailed;
      } else if app.current.value in pool.deployments && pool.deployments[app.current.value].phase == Ready {
        status := StatusReady;
      }
      pool.apps := pool.apps[a := app.(status := status)];
      return true;
    }

    method AcquireLease(a: Id, holder: Id, g: nat, ttl: int, t: Token) returns (ok: bool)
      modifies pool
      ensures Performs(old(pool.View()), Leasing(DoAcquire(a, holder, g, ttl, t)), ok, pool.View())
      ensures ok <==> MayAcquire(old(pool.View()), a, holder, g, t)
      ensures ok ==> Acquires(old(pool.View()), pool.View(), a, holder, g, ttl, t)
    {
      hide Performs, Inv, MayAcquire, Acquires;
      ghost var before := pool.View();
      StepPerforms(before, Leasing(DoAcquire(a, holder, g, ttl, t)));
      AcquireMeans(before, a, holder, g, ttl, t);
      if t in pool.issued || a !in pool.apps || pool.apps[a].generation != g || pool.apps[a].status == Archived {
        return false;
      }
      if a in pool.leases && !(pool.leases[a].expiresAt <= pool.now || pool.leases[a].holder == holder) {
        return false;
      }
      pool.leases := pool.leases[a := Lease(t, holder, g, pool.now + ClampTtl(ttl))];
      pool.issued := pool.issued + {t};
      return true;
    }

    method RenewLease(a: Id, t: Token, g: nat, ttl: int) returns (ok: bool)
      modifies pool
      ensures Performs(old(pool.View()), Leasing(DoRenew(a, t, g, ttl)), ok, pool.View())
      ensures ok <==> MayRenew(old(pool.View()), a, t, g)
      ensures ok ==> Renews(old(pool.View()), pool.View(), a, t, g, ttl)
    {
      hide Performs, Inv, MayRenew, Renews;
      ghost var before := pool.View();
      StepPerforms(before, Leasing(DoRenew(a, t, g, ttl)));
      RenewMeans(before, a, t, g, ttl);
      if !pool.ActiveLease(a, g, t) || a !in pool.apps || pool.apps[a].generation != g {
        return false;
      }
      pool.leases := pool.leases[a := pool.leases[a].(expiresAt := pool.now + ClampTtl(ttl))];
      return true;
    }

    method ReleaseLease(a: Id, t: Token) returns (ok: bool)
      modifies pool
      ensures Performs(old(pool.View()), Leasing(DoRelease(a, t)), ok, pool.View())
      ensures ok <==> a in old(pool.leases) && old(pool.leases)[a].token == t
      ensures ok ==> Releases(old(pool.View()), pool.View(), a)
    {
      hide Performs, Inv, Releases;
      ghost var before := pool.View();
      StepPerforms(before, Leasing(DoRelease(a, t)));
      ReleaseMeans(before, a, t);
      if a !in pool.leases || pool.leases[a].token != t {
        return false;
      }
      pool.leases := map b | b in pool.leases && b != a :: pool.leases[b];
      assert pool.leases == before.leases - {a};
      return true;
    }

    /** Some of the candidates, as many as are wanted or there are. */
    method PickRows(available: set<Id>, most: nat) returns (rows: set<Id>)
      ensures rows <= available && |rows| <= most && (|rows| < most ==> rows == available)
    {
      var candidates := available;
      rows := {};
      while candidates != {} && |rows| < most
        invariant |rows| <= most && candidates + rows == available
        decreases candidates
      {
        var o :| o in candidates;
        candidates := candidates - {o};
        rows := rows + {o};
      }
    }

    /** Claims due rows up to the limit; which ones the database hands out is left open. */
    method ClaimOutbox(worker: Id, limit: int, ttl: int) returns (rows: set<Id>)
      modifies pool
      ensures Performs(old(pool.View()), Queueing(DoClaim(rows, worker, ttl)), true, pool.View())
      ensures Takes(old(pool.View()), pool.View(), rows, worker, ttl)
      ensures |rows| <= (if limit < 1 then 1 else if limit > 100 then 100 else limit)
      ensures |rows| < (if limit < 1 then 1 else if limit > 100 then 100 else limit) ==>
                forall o | o in old(pool.outbox) && Due(old(pool.View()), old(pool.outbox)[o]) :: o in rows
    {
      hide Performs, Inv, Takes;
      ghost var before := pool.View();
      var most := if limit < 1 then 1 else if limit > 100 then 100 else limit;
      var candidates := set o | o in pool.outbox
        && (pool.outbox[o].state == Pending || (pool.outbox[o].state.Leased? && pool.outbox[o].state.until <= pool.now))
        && pool.outbox[o].availableAt <= pool.now;
      rows := PickRows(candidates, most);
      StepPerforms(before, Queueing(DoClaim(rows, worker, ttl)));
      assert AppSteps.ClaimOutbox(before, rows, worker, ttl).Some?;
      ClaimTakes(before, rows, worker, ttl);
      hide Due, ClampTtl;
      pool.outbox := map o | o in pool.outbox ::
        if o in rows
        then pool.outbox[o].(state := Leased(worker, pool.now + ClampTtl(ttl)), attempts := pool.outbox[o].attempts + 1)
        else pool.outbox[o];
    }

    /** Completes a claimed row at the App's generation, or fails it as stale in a second statement; either way the
        row is settled for good, and a row that someone else claimed is left alone. */
    method CompleteOutbox(o: Id, worker: Id) returns (ok: bool)
      modifies pool
      ensures var before := old(pool.View());
        && (ok <==> ClaimedBy(before, o, worker) && RowIsCurrent(before, before.outbox[o]))
        && (ClaimedBy(before, o, worker) ==> SettlesRow(before, pool.View(), o, ok))
        && (!ClaimedBy(before, o, worker) ==> pool.View() == before)
        && Performs(before, Queueing(if ok then DoCompleteClaimed(o, worker) else DoFailClaimed(o, worker)),
                    ok || ClaimedBy(before, o, worker), pool.View())
    {
      hide Performs, Inv, ClaimedBy, SettlesRow;
      ghost var before := pool.View();
      StepPerforms(before, Queueing(DoCompleteClaimed(o, worker)));
      StepPerforms(before, Queueing(DoFailClaimed(o, worker)));
      ClaimedRowsSettle(before, o, worker);
      if o !in pool.outbox || !pool.outbox[o].state.Leased? || pool.outbox[o].state.owner != worker {
        return false;
      }
      var row := pool.outbox[o];
      if row.app in pool.apps && pool.apps[row.app].generation == row.generation {
        pool.outbox := pool.outbox[o := row.(state := Completed)];
        return true;
      }
      pool.outbox := pool.outbox[o := row.(state := OutboxFailed)];
      return false;
    }

    method FailClaimedOutbox(o: Id, worker: Id) returns (ok: bool)
      modifies pool
      ensures Performs(old(pool.View()), Queueing(DoFailClaimed(o, worker)), ok, pool.View())
      ensures ok <==> ClaimedBy(old(pool.View()), o, worker)
      ensures ok ==> SettlesRow(old(pool.View()), pool.View(), o, false)
    {
      hide Performs, Inv, ClaimedBy, SettlesRow;
      ghost var before := pool.View();
      StepPerforms(before, Queueing(DoFailClaimed(o, worker)));
      ClaimedRowsSettle(before, o, worker);
      if o !in pool.outbox || !pool.outbox[o].state.Leased? || pool.outbox[o].state.owner != worker {
        return false;
      }
      pool.outbox := pool.outbox[o := pool.outbox[o].(state := OutboxFailed)];
      return true;
    }

    method RetryOutbox(o: Id, worker: Id) returns (ok: bool)
      modifies pool
      ensures Performs(old(pool.View()), Queueing(DoRetry(o, worker)), ok, pool.View())
      ensures ok <==> ClaimedBy(old(pool.View()), o, worker)
      ensures ok ==> GivesBack(old(pool.View()), pool.View(), o)
    {
      hide Performs, Inv, ClaimedBy, GivesBack;
      ghost var before := pool.View();
      StepPerforms(before, Queueing(DoRetry(o, worker)));
      RetryGivesBack(before, o, worker);
      if o !in pool.outbox || !pool.outbox[o].state.Leased? || pool.outbox[o].state.owner != worker {
        return false;
      }
      var row := pool.outbox[o];
      var seconds := 1;
      var exponent := if row.attempts < 8 then row.attempts else 8;
      for n := 0 to exponent
        invariant seconds == Pow2(n)
      {
        seconds := 2 * seconds;
      }
      if seconds > 300 {
        seconds := 300;
      }
      pool.outbox := pool.outbox[o := row.(
        state := if row.attempts >= 10 then OutboxFailed else Pending, availableAt := pool.now + 1_000 * seconds)];
      return true;
    }

    /** Settles the open row `o` that (App, operation, key) selects, under the App's lease. */
    method SettleOutboxByKey(o: Id, a: Id, op: Operation, key: Id, g: nat, t: Token, complete: bool) returns (ok: bool)
      modifies pool
      ensures Performs(old(pool.View()), KeyedSettlement(o, a, op, key, g, t, complete), ok, pool.View())
      ensures ok <==> MaySettle(old(pool.View()), o, a, op, key, g, t, complete)
      ensures Inv(old(pool.View())) && ok ==> SettlesRow(old(pool.View()), pool.View(), o, complete)
    {
      hide Performs, Inv, MaySettle, SettlesRow;
      ghost var before := pool.View();
      StepPerforms(before, KeyedSettlement(o, a, op, key, g, t, complete));
      KeyedAllowed(before, o, a, op, key, g, t);
      if Inv(before) {
        KeyedRowsSettle(before, o, a, op, key, g, t);
      }
      if o !in pool.outbox {
        return false;
      }
      var row := pool.outbox[o];
      if row.app != a || row.operation != op || row.key != key || row.generation != g
         || !(row.state.Pending? || row.state.Leased?) || !pool.ActiveLease(a, g, t) {
        return false;
      }
      if complete && !(a in pool.apps && pool.apps[a].generation == g) {
        return false;
      }
      pool.outbox := pool.outbox[o := row.(state := if complete then Completed else OutboxFailed)];
      return true;
    }
  }

  function KeyedSettlement(o: Id, a: Id, op: Operation, key: Id, g: nat, t: Token, complete: bool): Step {
    Queueing(if complete then DoCompleteByKey(o, a, op, key, g, t) else DoFailByKey(o, a, op, key, g, t))
  }
}
