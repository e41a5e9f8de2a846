/**
 The Cloudflare account service: temporary previews, OAuth attempts and deployment targets.
 One method per transaction, proved to commit the step AppSteps describes.
 */
module AccountService {
  import opened Options
  import opened AppTables
  import opened AppSteps
  import opened AppAttempts
  import opened AppSafety
  import opened AppOutbox
  import opened AppEffects
  import opened AccountEffects
  import opened ControlPlane

  class CloudflareAccountService {
    const pool: Tables

    constructor (pool: Tables)
      ensures this.pool == pool
    {
      this.pool := pool;
    }

    // ----- temporary previews -----

    /** Partial unique index on open previews of one App. */
    predicate OpenPreviewElsewhere(a: Id, except: Id)
      reads pool
    {
      exists p | p in pool.previews :: p != except && pool.previews[p].app == a
        && pool.previews[p].status in {PreviewProvisioning, PreviewReady, Claiming}
    }

    method InsertPreview(p: Id, a: Id) returns (ok: bool)
      modifies pool
      ensures Performs(old(pool.View()), Previewing(DoInsertPreview(p, a)), ok, pool.View())
      ensures ok <==> MayInsert(old(pool.View()), p, a)
      ensures ok ==> Inserts(old(pool.View()), pool.View(), p, a)
    {
      hide Performs, Inv, MayInsert, Inserts;
      ghost var before := pool.View();
      StepPerforms(before, Previewing(DoInsertPreview(p, a)));
      InsertMeans(before, p, a);
      if p in pool.previews || a !in pool.apps || OpenPreviewElsewhere(a, p) {
        return false;
      }
      pool.previews := pool.previews[p := PreviewRow(a, PreviewProvisioning, None, None, pool.now, None)];
      return true;
    }

    /** The rest of provisionTemporaryAccount, once the provider answered or failed. */
    method SettlePreview(p: Id, answer: Option<(Id, Id, Time)>) returns (ok: bool)
      modifies pool
      ensures Performs(old(pool.View()), Previewing(Settlement(p, answer)), ok, pool.View())
      ensures ok <==>
                && p in old(pool.previews)
                && if answer.Some? then NoOtherOpen(old(pool.previews), old(pool.previews)[p].app, p)
                   else old(pool.previews)[p].status.PreviewProvisioning?
      ensures Inv(old(pool.View())) && ok ==>
                match answer
                case Some((account, secrets, e)) => Provisions(old(pool.View()), pool.View(), p, account, secrets, e)
                case None => Closes(old(pool.View()), pool.View(), p)
    {
      hide Performs, Inv, Provisions, Closes;
      ghost var before := pool.View();
      StepPerforms(before, Previewing(Settlement(p, answer)));
      if answer.Some? {
        ProvisionMeans(before, p, answer.value.0, answer.value.1, answer.value.2);
      } else if Inv(before) {
        AbortMeans(before, p);
      }
      if p !in pool.previews {
        return false;
      }
      var row := pool.previews[p];
      match answer
      case Some((account, secrets, e)) =>
        if OpenPreviewElsewhere(row.app, p) {
          return false;
        }
        pool.previews := pool.previews[p :=
          row.(account := Some(account), status := PreviewReady, secrets := Some(secrets), expiresAt := Some(e))];
        return true;
      case None =>
        if row.status != PreviewProvisioning {
          return false;
        }
        pool.previews := pool.previews[p := row.(status := PreviewFailed, secrets := None)];
        return true;
    }

    method ReleaseUnassignedTemporaryAccount(d: Id, p: Id) returns (ok: bool)
      modifies pool
      ensures Performs(old(pool.View()), Previewing(DoReleasePreview(p, d)), ok, pool.View())
      ensures Inv(old(pool.View())) ==>
                (ok <==> MayRelease(old(pool.View()), p, d)) && (ok ==> Closes(old(pool.View()), pool.View(), p))
    {
      hide Performs, Inv, MayRelease, Closes;
      ghost var before := pool.View();
      StepPerforms(before, Previewing(DoReleasePreview(p, d)));
      if Inv(before) {
        ReleasePreviewMeans(before, p, d);
      }
      if p !in pool.previews || d !in pool.deployments {
        return false;
      }
      var row := pool.previews[p];
      if row.app != pool.deployments[d].app || !pool.CurrentRow(row.app, d, pool.deployments[d].generation)
         || row.status !in {PreviewReady, Claiming} {
        return false;
      }
      if exists e | e in pool.deployments :: pool.deployments[e].target == Temporary(p) {
        return false;
      }
      if exists a | a in pool.apps :: pool.apps[a].target == Temporary(p) {
        return false;
      }
      pool.previews := pool.previews[p := row.(status := PreviewFailed, secrets := None)];
      return true;
    }

    /** The rows a sweep is about, on the snapshot all its parts read. */
    predicate Chosen(only: Option<Id>, p: Id)
      reads pool
    {
      p in pool.previews
      && (if only.Some? then only.value == p
          else pool.previews[p].expiresAt.Some? && pool.previews[p].expiresAt.value <= pool.now)
    }

    /** newly_expired united with the rows that were expired before. */
    method ExpiredPreviews(only: Option<Id>) returns (expired: set<Id>)
      ensures expired == set p | p in pool.previews && SweptPreview(pool.View(), only, p)
    {
      expired := set p | p in pool.previews && Chosen(only, p)
        && pool.previews[p].status in {PreviewReady, Claiming, PreviewExpired};
    }

    method ExpireDeployments(only: Option<Id>, expired: set<Id>) returns (deployments: map<Id, Deployment>)
      requires expired == set p | p in pool.previews && SweptPreview(pool.View(), only, p)
      ensures deployments == ExpirePreviews(pool.View(), only).deployments
    {
      deployments := map d | d in pool.deployments ::
        var row := pool.deployments[d];
        if row.target.Temporary? && row.target.preview in expired && pool.previews[row.target.preview].app == row.app
           && row.phase in {Queued, Provisioning, Deploying, TemporaryReady, ClaimPending, VerifyingClaim}
        then row.(phase := Expired) else row;
    }

    method DetachApps(only: Option<Id>, expired: set<Id>) returns (apps: map<Id, App>)
      requires expired == set p | p in pool.previews && SweptPreview(pool.View(), only, p)
      ensures apps == ExpirePreviews(pool.View(), only).apps
    {
      apps := map a | a in pool.apps ::
        var app := pool.apps[a];
        if app.target.Temporary? && app.target.preview in expired && pool.previews[app.target.preview].app == a
        then app.(status := NeedsAction, target := Unassigned) else app;
    }

    method SweepPreviews(only: Option<Id>) returns (previews: map<Id, PreviewRow>)
      ensures previews == ExpirePreviews(pool.View(), only).previews
    {
      previews := map p | p in pool.previews ::
        var row := pool.previews[p];
        if row.status == PreviewProvisioning && row.createdAt + 600_000 <= pool.now then row.(status := PreviewFailed)
        else if row.status in {PreviewReady, Claiming} && Chosen(only, p)
        then row.(status := PreviewExpired, secrets := None)
        else row;
    }

    method ExpireTemporaryPreviews(only: Option<Id>)
      modifies pool
      ensures Performs(old(pool.View()), Previewing(DoExpirePreviews(only)), true, pool.View())
      ensures Sweeps(old(pool.View()), pool.View(), only)
      ensures pool.View() == ExpirePreviews(old(pool.View()), only)
    {
      hide Performs, Inv, Sweeps;
      ghost var before := pool.View();
      StepPerforms(before, Previewing(DoExpirePreviews(only)));
      ExpireSweeps(before, only);
      var expired := ExpiredPreviews(only);
      var deployments := ExpireDeployments(only, expired);
      var apps := DetachApps(only, expired);
      var previews := SweepPreviews(only);
      pool.deployments, pool.apps, pool.previews := deployments, apps, previews;
    }

    /** The newest deployment of the preview at its App's generation, if there is one. */
    method FindClaimRow(p: Id) returns (found: bool, d: Id)
      ensures found ==> NewestOn(pool.View(), p, d)
      ensures !found ==> forall e :: !OnPreview(pool.View(), p, e)
    {
      found, d := false, 0;
      if p !in pool.previews {
        return;
      }
      var a := pool.previews[p].app;
      var left := pool.deployments.Keys;
      while left != {}
        invariant left <= pool.deployments.Keys
        invariant found ==> d in pool.deployments.Keys - left && OnPreview(pool.View(), p, d)
        invariant forall e | e in pool.deployments.Keys - left && OnPreview(pool.View(), p, e) ::
          found && pool.deployments[e].version <= pool.deployments[d].version
        decreases left
      {
        var e :| e in left;
        left := left - {e};
        if pool.deployments[e].target == Temporary(p) && pool.deployments[e].app == a
           && pool.CurrentRow(a, e, pool.deployments[e].generation)
           && (!found || pool.deployments[d].version < pool.deployments[e].version) {
          found, d := true, e;
        }
      }
    }

    /** getTemporaryClaimUrl: a preview past use is swept, otherwise its newest deployment opens for claiming. */
    method GetTemporaryClaimUrl(p: Id) returns (ok: bool, d: Id)
      modifies pool
      ensures var before := old(pool.View());
        && (p !in before.previews ==> !ok && pool.View() == before)
        && (p in before.previews && !Usable(before, p) ==> !ok && Sweeps(before, pool.View(), Some(p)))
        && (ok ==> MayOpen(before, p, d) && Opens(before, pool.View(), p, d))
        && (!ok && Usable(before, p) ==> pool.View() == before)
        && (!ok && Usable(before, p) && Inv(before) ==> forall e :: !MayOpen(before, p, e))
        && Performs(before, if p in before.previews && !Usable(before, p) then Previewing(DoExpirePreviews(Some(p)))
                            else Previewing(DoOpenClaim(p, d)),
                    ok || (p in before.previews && !Usable(before, p)), pool.View())
    {
      hide Performs, Inv, ClaimRow, Sweeps;
      ghost var before := pool.View();
      UsableMeans(before, p);
      StepPerforms(before, Previewing(DoOpenClaim(p, 0)));
      OpenMeans(before, p, 0);
      d := 0;
      if p !in pool.previews {
        return false, d;
      }
      var row := pool.previews[p];
      if row.expiresAt.None? || row.expiresAt.value <= pool.now || row.status !in {PreviewReady, Claiming} {
        ExpireTemporaryPreviews(Some(p));
        return false, d;
      }
      var found;
      found, d := FindClaimRow(p);
      StepPerforms(before, Previewing(DoOpenClaim(p, d)));
      OpenMeans(before, p, d);
      if Inv(before) {
        OneOnPreview(before, p);
      }
      if !found {
        return false, d;
      }
      if pool.deployments[d].phase == TemporaryReady {
        pool.deployments := pool.deployments[d := pool.deployments[d].(phase := ClaimPending)];
      } else if pool.deployments[d].phase !in {ClaimPending, VerifyingClaim} {
        return false, d;
      }
      pool.previews := pool.previews[p := row.(status := Claiming)];
      return true, d;
    }

    // ----- OAuth attempts -----

    /** startOAuth up to its phase update, a statement that commits by itself. */
    method BeginAttempt(w: OAuthDraft) returns (ok: bool)
      modifies pool
      ensures ok <==> MayBeginAttempt(old(pool.View()), w)
      ensures ok ==> Performs(old(pool.View()), Connecting(DoAwait(w)), true, pool.View())
      ensures ok ==> Awaits(old(pool.View()), pool.View(), w)
      ensures !ok ==> pool.View() == old(pool.View())
    {
      hide Performs, Awaits;
      ghost var before := pool.View();
      AwaitMeans(before, w);
      StepPerforms(before, Connecting(DoAwait(w)));
      if !pool.CurrentRow(w.app, w.deployment, w.generation) {
        return false;
      }
      var row := pool.deployments[w.deployment];
      if w.preview.Some? {
        var p := w.preview.value;
        if p !in pool.previews || pool.previews[p].app != w.app || pool.previews[p].status != Claiming
           || pool.previews[p].expiresAt.None? || pool.previews[p].expiresAt.value <= pool.now
           || row.target != Temporary(p) || row.phase != ClaimPending {
          return false;
        }
      } else if row.phase !in {AwaitingTarget, AwaitingOAuth} {
        return false;
      }
      pool.deployments := pool.deployments[w.deployment :=
        row.(phase := if w.preview.Some? then ClaimPending else AwaitingOAuth)];
      pool.drafts := pool.drafts + {w};
      assert w.preview.Some? ==> pool.deployments == old(pool.deployments);
      return true;
    }

    /** The insert of startOAuth: whatever came in between, the attempt is pending, with its verifier, for ten
        minutes. */
    method InsertAttempt(w: OAuthDraft, o: Id, verifier: Id) returns (ok: bool)
      modifies pool
      ensures Performs(old(pool.View()), Connecting(DoInsertAttempt(w, o, verifier)), ok, pool.View())
      ensures ok <==> w in old(pool.drafts) && o !in old(pool.oauth)
      ensures ok ==> Starts(old(pool.View()), pool.View(), w, o, verifier)
    {
      hide Performs, Inv, Starts;
      ghost var before := pool.View();
      StepPerforms(before, Connecting(DoInsertAttempt(w, o, verifier)));
      InsertAttemptMeans(before, w, o, verifier);
      if w !in pool.drafts || o in pool.oauth {
        return false;
      }
      pool.drafts := pool.drafts - {w};
      pool.oauth := pool.oauth[o :=
        OAuthRow(w.app, w.deployment, w.generation, w.preview, OAuthPending, Some(verifier), pool.now + 600_000)];
      return true;
    }

    /** The consuming transaction of finishOAuth; the verifier is handed out only for an unexpired attempt. */
    method ConsumeAttempt(o: Id) returns (verifier: Option<Id>)
      modifies pool
      ensures var before := old(pool.View());
        var pending := o in before.oauth && before.oauth[o].status.OAuthPending?;
        && Performs(before, Connecting(DoConsume(o)), pending, pool.View())
        && (pending ==> AttemptBecomes(before, pool.View(), o,
                                       if before.now < before.oauth[o].expiresAt then Exchanging else OAuthExpired))
        && verifier == (if pending && before.now < before.oauth[o].expiresAt then before.oauth[o].verifier else None)
    {
      hide Performs, AttemptBecomes;
      ghost var before := pool.View();
      StepPerforms(before, Connecting(DoConsume(o)));
      ConsumeMeans(before, o);
      if o !in pool.oauth || pool.oauth[o].status != OAuthPending {
        return None;
      }
      var row := pool.oauth[o];
      var expired := row.expiresAt <= pool.now;
      pool.oauth := pool.oauth[o := row.(status := if expired then OAuthExpired else Exchanging, verifier := None)];
      return if expired then None else row.verifier;
    }

    method ExchangeRejected(o: Id) returns (ok: bool)
      modifies pool
      ensures Performs(old(pool.View()), Connecting(DoExchangeFailed(o)), ok, pool.View())
      ensures ok <==> o in old(pool.oauth) && old(pool.oauth)[o].status.Exchanging?
      ensures ok ==> AttemptBecomes(old(pool.View()), pool.View(), o, OAuthFailed)
    {
      hide Performs, Inv, AttemptBecomes;
      ghost var before := pool.View();
      StepPerforms(before, Connecting(DoExchangeFailed(o)));
      ExchangeFailedMeans(before, o);
      if o !in pool.oauth || pool.oauth[o].status != Exchanging {
        return false;
      }
      pool.oauth := pool.oauth[o := pool.oauth[o].(status := OAuthFailed, verifier := None)];
      return true;
    }

    /** Insert the outbox row of a deployment, or refresh the one that already has its key. */
    method EnqueueDeployment(d: Id, target: Target, newId: Id)
      requires d in pool.deployments && newId !in pool.outbox
      modifies pool`outbox
      ensures pool.outbox == Enqueue(old(pool.View()), d, target, newId)
      ensures Enqueues(old(pool.View()), pool.outbox, d, target, newId)
    {
      hide Enqueues;
      EnqueueMeans(pool.View(), d, target, newId);
      var row := pool.deployments[d];
      var op := if row.rollbackOf == None then Deploy else Rollback;
      var same := set o | o in pool.outbox
        && pool.outbox[o].app == row.app && pool.outbox[o].operation == op && pool.outbox[o].key == row.key;
      if same == {} {
        assert forall o | o in pool.outbox && SameKey(pool.outbox[o], row.app, op, row.key) :: o in same;
        pool.outbox := pool.outbox[newId :=
          OutboxRow(row.app, op, row.key, row.generation, d, target, Pending, 0, pool.now)];
      } else {
        assert exists o | o in same :: SameKey(pool.outbox[o], row.app, op, row.key);
        pool.outbox := map o | o in pool.outbox ::
          if o in same then pool.outbox[o].(deployment := d, target := target, generation := row.generation)
          else pool.outbox[o];
      }
    }

    /** The finalizing transaction of finishOAuth for a direct connection. */
    method FinalizeDirectAttempt(o: Id, connection: Id, newId: Id) returns (ok: bool)
      requires newId !in pool.outbox
      modifies pool
      ensures Performs(old(pool.View()), Connecting(DoFinalizeDirect(o, connection, newId)), ok, pool.View())
      ensures ok <==> MayConnect(old(pool.View()), o, newId)
      ensures ok ==> Connects(old(pool.View()), pool.View(), o, connection, newId)
    {
      hide Performs, Inv, MayConnect, Connects, Enqueue;
      ghost var before := pool.View();
      StepPerforms(before, Connecting(DoFinalizeDirect(o, connection, newId)));
      DirectMeans(before, o, connection, newId);
      if o !in pool.oauth {
        return false;
      }
      var w := pool.oauth[o];
      if w.preview.Some? || w.status != Exchanging || !pool.CurrentRow(w.app, w.deployment, w.generation)
         || pool.deployments[w.deployment].phase != AwaitingOAuth {
        return false;
      }
      pool.deployments := pool.deployments[w.deployment :=
        pool.deployments[w.deployment].(phase := Queued, target := Byoc(connection))];
      pool.apps := pool.apps[w.app := pool.apps[w.app].(target := Byoc(connection), status := NeedsAction)];
      pool.oauth := pool.oauth[o := w.(status := OAuthCompleted, verifier := None)];
      EnqueueDeployment(w.deployment, Byoc(connection), newId);
      return true;
    }

    /** The rest of that transaction when the token belongs to another account. */
    method ReportForeignAccount(o: Id)
      requires o in pool.oauth && pool.oauth[o].preview.Some?
      requires pool.oauth[o].deployment in pool.deployments && pool.oauth[o].app in pool.apps
      modifies pool
      ensures pool.View() == ReportMismatch(old(pool.View()), o, old(pool.oauth)[o])
    {
      var w := pool.oauth[o];
      var row, app := pool.deployments[w.deployment], pool.apps[w.app];
      if w.status == Exchanging {
        pool.oauth := pool.oauth[o := w.(status := OAuthFailed, verifier := None)];
      }
      if row.phase in {ClaimPending, VerifyingClaim} {
        pool.deployments := pool.deployments[w.deployment := row.(phase := ClaimPending)];
      }
      if app.target == Temporary(w.preview.value) {
        pool.apps := pool.apps[w.app := app.(status := NeedsAction)];
      }
    }

    /** The finalizing transaction of finishOAuth for a claim, with the account the token belongs to. */
    method FinalizeClaimAttempt(o: Id, account: Id, connection: Id) returns (ok: bool)
      modifies pool
      ensures Performs(old(pool.View()), Connecting(DoFinalizeClaim(o, account, connection)), ok, pool.View())
      ensures ok <==> MayClaim(old(pool.View()), o, account)
      ensures Inv(old(pool.View())) && ok ==>
                if OwnAccount(old(pool.View()), old(pool.oauth)[o], account)
                then Claims(old(pool.View()), pool.View(), o, connection)
                else Mismatches(old(pool.View()), pool.View(), o)
    {
      hide Performs, Inv, MayClaim, OwnAccount, Claims, Mismatches;
      ghost var before := pool.View();
      StepPerforms(before, Connecting(DoFinalizeClaim(o, account, connection)));
      ClaimAllowed(before, o, account, connection);
      if Inv(before) && FinalizeClaim(before, o, account, connection).Some? {
        ClaimMeans(before, o, account, connection);
      }
      if o !in pool.oauth {
        return false;
      }
      var w := pool.oauth[o];
      if w.preview.None? || !pool.CurrentRow(w.app, w.deployment, w.generation) {
        return false;
      }
      var p := w.preview.value;
      var row := pool.deployments[w.deployment];
      var app := pool.apps[w.app];
      if p !in pool.previews || pool.previews[p].app != w.app || pool.previews[p].account != Some(account) {
        ReportForeignAccount(o);
        return true;
      }
      if row.phase !in {ClaimPending, VerifyingClaim} || pool.previews[p].status != Claiming
         || app.target != Temporary(p) || w.status != Exchanging {
        return false;
      }
      pool.previews := pool.previews[p := pool.previews[p].(status := Claimed, secrets := None)];
      pool.deployments := pool.deployments[w.deployment := row.(phase := Ready, target := Byoc(connection))];
      pool.apps := pool.apps[w.app :=
        app.(target := Byoc(connection), status := StatusReady, current := Some(w.deployment))];
      pool.oauth := pool.oauth[o := w.(status := OAuthCompleted, verifier := None)];
      return true;
    }

    method FailAttempt(o: Id) returns (ok: bool)
      modifies pool
      ensures Performs(old(pool.View()), Connecting(DoFailAttempt(o)), ok, pool.View())
      ensures ok <==> o in old(pool.oauth) && !old(pool.oauth)[o].status.OAuthPending?
      ensures Inv(old(pool.View())) && ok ==> FailsAttempt(old(pool.View()), pool.View(), o)
    {
      hide Performs, Inv, FailsAttempt;
      ghost var before := pool.View();
      StepPerforms(before, Connecting(DoFailAttempt(o)));
      if Inv(before) {
        FailedAttemptMeans(before, o);
      }
      if o !in pool.oauth || pool.oauth[o].status == OAuthPending {
        return false;
      }
      var w := pool.oauth[o];
      if w.status == Exchanging {
        pool.oauth := pool.oauth[o := w.(status := OAuthFailed, verifier := None)];
      }
      if w.preview.None? {
        return true;
      }
      if w.deployment in pool.deployments && pool.deployments[w.deployment].app == w.app
         && pool.deployments[w.deployment].generation == w.generation
         && pool.deployments[w.deployment].phase in {ClaimPending, VerifyingClaim} {
        pool.deployments := pool.deployments[w.deployment := pool.deployments[w.deployment].(phase := Failed)];
      }
      if w.app in pool.apps && pool.apps[w.app].generation == w.generation {
        var app := pool.apps[w.app];
        var failed := app.current == None || app.current == Some(w.deployment);
        pool.apps := pool.apps[w.app := app.(status := if failed then StatusFailed else StatusReady)];
      }
      return true;
    }

    method CancelAttempt(o: Id) returns (ok: bool)
      modifies pool
      ensures Performs(old(pool.View()), Connecting(DoCancel(o)), ok, pool.View())
      ensures ok <==> MayCancel(old(pool.View()), o)
      ensures ok ==> Cancels(old(pool.View()), pool.View(), o)
    {
      hide Performs, Inv, MayCancel, Cancels;
      ghost var before := pool.View();
      StepPerforms(before, Connecting(DoCancel(o)));
      CancelMeans(before, o);
      if o !in pool.oauth || pool.oauth[o].status != OAuthPending {
        return false;
      }
      var w := pool.oauth[o];
      if !pool.CurrentRow(w.app, w.deployment, w.generation) {
        return false;
      }
      var row := pool.deployments[w.deployment];
      if w.preview.Some? {
        if row.phase != ClaimPending || row.target != Temporary(w.preview.value) {
          return false;
        }
      } else if row.phase !in {AwaitingOAuth, AwaitingTarget} {
        return false;
      }
      pool.deployments := pool.deployments[w.deployment :=
        row.(phase := if w.preview.Some? then ClaimPending else AwaitingOAuth)];
      pool.apps := pool.apps[w.app := pool.apps[w.app].(status := NeedsAction)];
      pool.oauth := pool.oauth[o := w.(status := OAuthFailed, verifier := None)];
      return true;
    }

    /** The second statement of cleanupExpired; the first is the sweep of the previews. */
    method ExpireAttempts()
      modifies pool
      ensures Performs(old(pool.View()), Connecting(DoExpireAttempts), true, pool.View())
      ensures AttemptsSwept(old(pool.View()), pool.View())
    {
      hide Performs, Inv, AttemptsSwept;
      ghost var before := pool.View();
      StepPerforms(before, Connecting(DoExpireAttempts));
      ExpireMeans(before);
      pool.oauth := map o | o in pool.oauth ::
        var row := pool.oauth[o];
        if row.status == OAuthPending && row.expiresAt <= pool.now then row.(status := OAuthExpired, verifier := None)
        else row;
      assert pool.oauth == ExpireOAuth(before).oauth;
    }

    // ----- resource receipts -----

    /** The SELECT of recordResourceReceipt. */
    method CheckReceipt(c: Id, w: ReceiptCall) returns (ok: bool)
      modifies pool
      ensures Performs(old(pool.View()), Recording(DoCheckReceipt(c, w)), ok, pool.View())
      ensures ok <==> MayCheck(old(pool.View()), c, w)
      ensures pool.View() == old(pool.View()).(receipts := pool.receipts)
      ensures pool.receipts.rows == old(pool.receipts).rows
      ensures ok ==> pool.receipts.calls == old(pool.receipts).calls[c := w]
    {
      hide Performs, Inv, MayCheck;
      ghost var before := pool.View();
      StepPerforms(before, Recording(DoCheckReceipt(c, w)));
      CheckMeans(before, c, w);
      if c in pool.receipts.calls || w.done
         || !pool.ActiveLease(w.app, w.generation, w.token) || !pool.CurrentRow(w.app, w.at.deployment, w.generation) {
        return false;
      }
      var row := pool.deployments[w.at.deployment];
      if row.phase !in {Provisioning, Deploying, TemporaryReady, ClaimPending, VerifyingClaim, Ready, Failed}
         || row.target.Unassigned? || (row.target.Temporary? && w.at.kind !in {WorkerKind, AssetsKind}) {
        return false;
      }
      pool.receipts := pool.receipts.(calls := pool.receipts.calls[c := w]);
      return true;
    }

    /** Its upsert: it looks at no lease, and a row of another owner is refused and kept. */
    method StoreReceipt(c: Id) returns (ok: bool)
      modifies pool
      ensures Performs(old(pool.View()), Recording(DoStoreReceipt(c)), ok, pool.View())
      ensures ok <==> MayStore(old(pool.View()), c)
      ensures ok ==> StoresReceipt(old(pool.View()), pool.View(), c)
    {
      hide Performs, Inv, MayStore, StoresReceipt;
      ghost var before := pool.View();
      StepPerforms(before, Recording(DoStoreReceipt(c)));
      StoreMeans(before, c);
      if c !in pool.receipts.calls || pool.receipts.calls[c].done {
        return false;
      }
      var w := pool.receipts.calls[c];
      if w.at in pool.receipts.rows && pool.receipts.rows[w.at].created != w.row.created {
        return false;
      }
      pool.receipts := Receipts(pool.receipts.rows[w.at := w.row], pool.receipts.calls[c := w.(done := true)]);
      return true;
    }

    // ----- deployment targets -----

    method SelectDeploymentTarget(d: Id, target: Target, newId: Id) returns (ok: bool)
      requires newId !in pool.outbox && !target.Unassigned?
      modifies pool
      ensures Performs(old(pool.View()), Targeting(DoSelect(d, target, newId)), ok, pool.View())
      ensures ok <==> MaySelect(old(pool.View()), d, target)
      ensures ok ==> Selects(old(pool.View()), pool.View(), d, target, newId)
    {
      hide Performs, Inv, MaySelect, Selects, Enqueue;
      ghost var before := pool.View();
      StepPerforms(before, Targeting(DoSelect(d, target, newId)));
      SelectAllowed(before, d, target, newId);
      if SelectTarget(before, d, target, newId).Some? {
        SelectMeans(before, d, target, newId);
      }
      if d !in pool.deployments {
        return false;
      }
      var row := pool.deployments[d];
      if !pool.CurrentRow(row.app, d, row.generation) || (target.Temporary? && row.rollbackOf.Some?) {
        return false;
      }
      if row.phase != AwaitingTarget {
        if row.target != target {
          return false;
        }
        if row.phase in {Queued, Provisioning, Deploying} {
          EnqueueDeployment(d, target, newId);
        }
        return true;
      }
      if target.Temporary? {
        var p := target.preview;
        if p !in pool.previews || pool.previews[p].app != row.app
           || pool.previews[p].status !in {PreviewReady, Claiming}
           || pool.previews[p].expiresAt.None? || pool.previews[p].expiresAt.value <= pool.now {
          return false;
        }
      }
      pool.deployments := pool.deployments[d := row.(target := target, phase := Queued)];
      pool.apps := pool.apps[row.app := pool.apps[row.app].(target := target)];
      EnqueueDeployment(d, target, newId);
      return true;
    }

    method TransitionDeploymentPhase(d: Id, g: nat, t: Token, from: Phase, to: Phase) returns (ok: bool)
      modifies pool
      ensures Performs(old(pool.View()), Targeting(DoTransition(d, g, t, from, to)), ok, pool.View())
      ensures ok <==> MayMove(old(pool.View()), d, g, t, from, to)
      ensures ok ==> Moves(old(pool.View()), pool.View(), d, from, to)
    {
      hide Performs, Inv, MayMove, Moves;
      ghost var before := pool.View();
      StepPerforms(before, Targeting(DoTransition(d, g, t, from, to)));
      TransitionMeans(before, d, g, t, from, to);
      hide AllowedTransition, Listed;
      ListedIsAllowed(from, to);
      if !Listed(from, to) {
        return false;
      }
      if d !in pool.deployments {
        return false;
      }
      var row := pool.deployments[d];
      if row.app !in pool.apps || row.generation != g || row.phase != from || !pool.ActiveLease(row.app, g, t) {
        return false;
      }
      pool.deployments := pool.deployments[d := row.(phase := to)];
      return true;
    }

    /** The apps UPDATE of revokeConnection. */
    method UnlinkRevokedConnection(c: Id)
      modifies pool
      ensures Performs(old(pool.View()), Targeting(DoUnlink(c)), true, pool.View())
      ensures Unlinks(old(pool.View()), pool.View(), c)
    {
      hide Performs, Inv, Unlinks;
      ghost var before := pool.View();
      StepPerforms(before, Targeting(DoUnlink(c)));
      UnlinkMeans(before, c);
      pool.apps := map a | a in pool.apps ::
        if pool.apps[a].target == Byoc(c) then pool.apps[a].(target := Unassigned) else pool.apps[a];
    }
  }

  function Settlement(p: Id, answer: Option<(Id, Id, Time)>): PreviewStep {
    match answer
    case Some((account, secrets, e)) => DoProvisioned(p, account, secrets, e)
    case None => DoAborted(p)
  }

  /** The table as the service writes it: each phase with the phases it may move to. */
  predicate Listed(from: Phase, to: Phase) {
    (from, to) in {(Queued, Provisioning), (Provisioning, Deploying), (Provisioning, Failed),
                   (Deploying, TemporaryReady), (Deploying, Ready), (Deploying, Failed),
                   (TemporaryReady, ClaimPending), (TemporaryReady, Expired),
                   (ClaimPending, VerifyingClaim), (ClaimPending, Expired),
                   (VerifyingClaim, Ready), (VerifyingClaim, Failed)}
  }

  lemma ListedIsAllowed(from: Phase, to: Phase)
    ensures Listed(from, to) <==> AllowedTransition(from, to)
  {
  }
}
