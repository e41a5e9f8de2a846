/** Which tables each kind of step leaves alone. */
module AppFrames {
  import opened Options
  import opened AppTables
  import opened AppSteps

  lemma ControlFrame(db: Database, s: ControlStep)
    ensures TryControl(db, s).Some? ==>
      var db' := TryControl(db, s).value; db' == db.(apps := db'.apps, deployments := db'.deployments)
  {
    hide HoldsLease, KeyUsed, NextVersion, AtGeneration, StatusAfterFailure;
  }

  lemma LeaseFrame(db: Database, s: LeaseStep)
    ensures TryLease(db, s).Some? ==>
      var db' := TryLease(db, s).value; db' == db.(leases := db'.leases, issued := db'.issued)
  {
  }

  lemma OutboxFrame(db: Database, s: OutboxStep)
    ensures TryOutbox(db, s).Some? ==>
      var db' := TryOutbox(db, s).value; db' == db.(outbox := db'.outbox)
  {
    hide Claimable, OpenWithKey, RowIsCurrent, HoldsLease, Backoff;
  }

  lemma PreviewFrame(db: Database, s: PreviewStep)
    ensures TryPreview(db, s).Some? ==>
      var db' := TryPreview(db, s).value;
      db' == db.(apps := db'.apps, deployments := db'.deployments, previews := db'.previews)
  {
    hide OtherOpenPreview, PreviewReferenced, SweptDeployment, SweptApp, SweepPreviewRow, ClaimRow, PreviewUsable;
  }

  lemma OAuthFrame(db: Database, s: OAuthStep)
    ensures TryOAuth(db, s).Some? ==>
      var db' := TryOAuth(db, s).value;
      db' == db.(apps := db'.apps, deployments := db'.deployments, previews := db'.previews,
                 outbox := db'.outbox, drafts := db'.drafts, oauth := db'.oauth)
  {
    hide AtGeneration, Enqueue, AccountMatches, FailClaimRow, FailClaimApp, Settle, WithPhase, WithStatus;
  }

  lemma TargetFrame(db: Database, s: TargetStep)
    ensures TryTarget(db, s).Some? ==>
      var db' := TryTarget(db, s).value;
      db' == db.(apps := db'.apps, deployments := db'.deployments, outbox := db'.outbox)
  {
    hide AtGeneration, Enqueue, UsableTarget, HoldsLease, AllowedTransition;
  }

  lemma ReceiptFrame(db: Database, s: ReceiptStep)
    ensures TryReceipt(db, s).Some? ==>
      var db' := TryReceipt(db, s).value; db' == db.(receipts := db'.receipts)
  {
    hide Fenced;
  }
}
