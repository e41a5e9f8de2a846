/**
 Resource receipts.  A call checks the lease in one statement and stores its receipt in another,
 so between the two other steps may come in; what is kept through all of them is stated here.
 */
module AppReceipts {
  import opened Options
  import opened AppTables
  import opened AppSteps
  import opened AppFrames
  import opened AppCore

  /** A call names a deployment of its App and generation and a token that was issued. */
  predicate CallFits(ds: Deployments, issued: set<Token>, w: ReceiptCall) {
    NamesDeployment(ds, w.at.deployment, w.app, w.generation) && w.token in issued
  }

  ghost predicate ReceiptsInv(ds: Deployments, issued: set<Token>, receipts: Receipts) {
    && (forall k | k in receipts.rows :: k.deployment in ds)
    && (forall c | c in receipts.calls :: CallFits(ds, issued, receipts.calls[c]))
  }

  predicate CallEvolves(w: ReceiptCall, w': ReceiptCall) {
    w'.(done := w.done) == w && (w.done ==> w'.done)
  }

  /** No receipt is lost or changes its owner, and a call changes only by storing its receipt, once. */
  ghost predicate ReceiptsEvolve(receipts: Receipts, receipts': Receipts) {
    && (forall k | k in receipts.rows :: k in receipts'.rows && receipts'.rows[k].created == receipts.rows[k].created)
    && (forall c | c in receipts.calls :: c in receipts'.calls && CallEvolves(receipts.calls[c], receipts'.calls[c]))
  }

  ghost predicate ReceiptsKept(db: Database, db': Database) {
    ReceiptsInv(db'.deployments, db'.issued, db'.receipts) && ReceiptsEvolve(db.receipts, db'.receipts)
  }

  lemma ReceiptsStay(db: Database, db': Database)
    requires ReceiptsInv(db.deployments, db.issued, db.receipts) && DeploymentsEvolve(db.deployments, db'.deployments)
    requires db'.receipts == db.receipts && db.issued <= db'.issued
    ensures ReceiptsKept(db, db')
  {
  }

  lemma ReceiptStepKeepsReceipts(db: Database, s: ReceiptStep)
    requires ReceiptsInv(db.deployments, db.issued, db.receipts)
    requires forall a | a in db.leases :: db.leases[a].token in db.issued
    ensures TryReceipt(db, s).Some? ==> ReceiptsKept(db, TryReceipt(db, s).value)
  {
  }

  lemma LeaseStepIssues(db: Database, s: LeaseStep)
    ensures TryLease(db, s).Some? ==> db.issued <= TryLease(db, s).value.issued
  {
  }

  lemma StepsKeepReceipts(db: Database, s: Step)
    requires CoreInv(db.apps, db.deployments) && ReceiptsInv(db.deployments, db.issued, db.receipts)
    requires forall a | a in db.leases :: db.leases[a].token in db.issued
    ensures ReceiptsKept(db, Apply(db, s))
  {
    hide CoreInv, ReceiptsInv, ReceiptsKept, AppsEvolve, DeploymentsEvolve;
    hide TryControl, TryLease, TryOutbox, TryPreview, TryOAuth, TryTarget, TryReceipt;
    StepsKeepCore(db, s);
    CoreFrame(db.apps, db.deployments);
    ReceiptsStay(db, db);
    match s
    case Tick(_) => ReceiptsStay(db, Apply(db, s));
    case Control(c) => ControlFrame(db, c); ReceiptsStay(db, Apply(db, s));
    case Leasing(l) => LeaseFrame(db, l); LeaseStepIssues(db, l); ReceiptsStay(db, Apply(db, s));
    case Queueing(q) => OutboxFrame(db, q); ReceiptsStay(db, Apply(db, s));
    case Previewing(p) => PreviewFrame(db, p); ReceiptsStay(db, Apply(db, s));
    case Connecting(c) => OAuthFrame(db, c); ReceiptsStay(db, Apply(db, s));
    case Targeting(t) => TargetFrame(db, t); ReceiptsStay(db, Apply(db, s));
    case Recording(r) => ReceiptStepKeepsReceipts(db, r);
  }
}
