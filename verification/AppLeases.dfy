/**
 Lease tokens as fences.  A token names at most one lease, is drawn once, and once it is
 not live it never becomes live again; so whoever acts with a live token is the only one.
 */
module AppLeases {
  import opened Options
  import opened AppTables
  import opened AppSteps
  import opened AppFrames
  import opened AppCore

  ghost predicate LeasesInv(apps: Apps, leases: map<Id, Lease>, issued: set<Token>) {
    && (forall a | a in leases :: a in apps && leases[a].generation <= apps[a].generation && leases[a].token in issued)
    && (forall a, b | a in leases && b in leases && leases[a].token == leases[b].token :: a == b)
  }

  /** A lease row after a step: a newly drawn token at the App's generation, or the row before, which keeps its token
      and generation and is extended only while that generation is the App's. */
  predicate LeaseEvolves(db: Database, a: Id, lease: Lease) {
    if lease.token in db.issued then
      && a in db.leases && lease.token == db.leases[a].token && lease.generation == db.leases[a].generation
      && (lease != db.leases[a] ==> Grantable(db, a, lease))
    else Grantable(db, a, lease)
  }

  predicate Grantable(db: Database, a: Id, lease: Lease) {
    && a in db.apps && lease.generation == db.apps[a].generation
    && lease.expiresAt <= db.now + MAX_LEASE_MS
  }

  /** An issued token that is not live for an App stays so. */
  ghost predicate TokensEvolve(db: Database, db': Database) {
    && db.now <= db'.now && db.issued <= db'.issued
    && (forall a, t | t in db.issued && Live(db', a, t) :: Live(db, a, t))
    && (forall a | a in db'.leases :: LeaseEvolves(db, a, db'.leases[a]))
  }

  ghost predicate LeasesKept(db: Database, db': Database) {
    LeasesInv(db'.apps, db'.leases, db'.issued) && TokensEvolve(db, db')
  }

  lemma LeasesStay(db: Database, db': Database)
    requires LeasesInv(db.apps, db.leases, db.issued) && AppsEvolve(db.apps, db.deployments, db'.apps, db'.deployments)
    requires db'.leases == db.leases && db'.issued == db.issued && db.now <= db'.now
    ensures LeasesKept(db, db')
  {
  }

  lemma LeaseStepKeepsLeases(db: Database, s: LeaseStep)
    requires LeasesInv(db.apps, db.leases, db.issued)
    ensures TryLease(db, s).Some? ==> LeasesKept(db, TryLease(db, s).value)
  {
  }

  lemma StepsKeepLeases(db: Database, s: Step)
    requires CoreInv(db.apps, db.deployments) && LeasesInv(db.apps, db.leases, db.issued)
    ensures LeasesKept(db, Apply(db, s))
  {
    hide CoreInv, LeasesInv, LeasesKept, AppsEvolve, DeploymentsEvolve;
    hide TryControl, TryLease, TryOutbox, TryPreview, TryOAuth, TryTarget, TryReceipt;
    StepsKeepCore(db, s);
    CoreFrame(db.apps, db.deployments);
    LeasesStay(db, db);
    match s
    case Tick(_) => LeasesStay(db, Apply(db, s));
    case Control(c) => ControlFrame(db, c); LeasesStay(db, Apply(db, s));
    case Leasing(l) => LeaseStepKeepsLeases(db, l);
    case Queueing(q) => OutboxFrame(db, q); LeasesStay(db, Apply(db, s));
    case Previewing(p) => PreviewFrame(db, p); LeasesStay(db, Apply(db, s));
    case Connecting(c) => OAuthFrame(db, c); LeasesStay(db, Apply(db, s));
    case Targeting(t) => TargetFrame(db, t); LeasesStay(db, Apply(db, s));
    case Recording(r) => ReceiptFrame(db, r); LeasesStay(db, Apply(db, s));
  }
}
