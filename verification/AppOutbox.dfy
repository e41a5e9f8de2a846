/**
 The operation outbox.  A row keeps the deployment it was enqueued for, completed and failed
 rows never move again, and a row completes only at its App's present generation.
 */
module AppOutbox {
  import opened Options
  import opened AppTables
  import opened AppSteps
  import opened AppFrames
  import opened AppCore

  type Outbox = map<Id, OutboxRow>

  predicate RowFits(ds: Deployments, r: OutboxRow) {
    && NamesDeployment(ds, r.deployment, r.app, r.generation)
    && ds[r.deployment].key == r.key && OperationOf(ds[r.deployment]) == r.operation
    && (r.state.Leased? ==> r.attempts >= 1)
  }

  predicate SharesKey(r: OutboxRow, q: OutboxRow) {
    SameKey(q, r.app, r.operation, r.key)
  }

  /** Every row describes a deployment and owns its (App, operation, key) triple. */
  ghost predicate OutboxInv(ds: Deployments, outbox: Outbox) {
    && (forall o | o in outbox :: RowFits(ds, outbox[o]))
    && (forall o, p | o in outbox && p in outbox && SharesKey(outbox[o], outbox[p]) :: o == p)
  }

  predicate Settled(s: OutboxState) {
    s.Completed? || s.OutboxFailed?
  }

  predicate OutboxRowEvolves(db: Database, r: OutboxRow, r': OutboxRow) {
    && r'.app == r.app && r'.operation == r.operation && r'.key == r.key
    && r'.generation == r.generation && r'.deployment == r.deployment
    && (Settled(r.state) ==> r'.state == r.state)
    && (r'.state.Completed? && !r.state.Completed? ==> RowIsCurrent(db, r))
    && r.attempts <= r'.attempts
    && (r.state.Pending? && r'.state.Leased? ==> r.attempts < r'.attempts)
    && (r.state.Leased? && r'.state.Pending? ==> r.attempts < MAX_ATTEMPTS && r'.attempts == r.attempts)
    && (r'.state.Pending? ==> r'.attempts == r.attempts)
  }

  ghost predicate OutboxEvolves(db: Database, outbox': Outbox) {
    forall o | o in db.outbox :: o in outbox' && OutboxRowEvolves(db, db.outbox[o], outbox'[o])
  }

  ghost predicate OutboxKept(db: Database, db': Database) {
    OutboxInv(db'.deployments, db'.outbox) && OutboxEvolves(db, db'.outbox)
  }

  lemma OutboxStays(db: Database, db': Database)
    requires OutboxInv(db.deployments, db.outbox) && DeploymentsEvolve(db.deployments, db'.deployments)
    requires db'.outbox == db.outbox
    ensures OutboxKept(db, db')
  {
    hide SharesKey;
  }

  /** Rows that keep their identity keep their keys apart. */
  lemma RowsKept(db: Database, db': Database)
    requires OutboxInv(db.deployments, db.outbox) && db'.deployments == db.deployments
    requires db'.outbox.Keys == db.outbox.Keys && OutboxEvolves(db, db'.outbox)
    requires forall o | o in db.outbox && db'.outbox[o].state.Leased? :: db'.outbox[o].attempts >= 1
    ensures OutboxKept(db, db')
  {
    forall o, p | o in db'.outbox && p in db'.outbox && SharesKey(db'.outbox[o], db'.outbox[p])
      ensures o == p
    {
      assert SharesKey(db.outbox[o], db.outbox[p]);
    }
  }

  predicate AlreadyEnqueued(db: Database, d: Id)
    requires d in db.deployments
  {
    var row := db.deployments[d];
    exists o | o in db.outbox :: SameKey(db.outbox[o], row.app, OperationOf(row), row.key)
  }

  /** Enqueueing again can only be for the very deployment the row already names. */
  lemma EnqueueAgain(db: Database, d: Id, target: Target, newId: Id, o: Id)
    requires Ordered(db.deployments) && OutboxInv(db.deployments, db.outbox)
    requires d in db.deployments && newId !in db.outbox && AlreadyEnqueued(db, d)
    requires o in db.outbox
    ensures Enqueue(db, d, target, newId).Keys == db.outbox.Keys
    ensures OutboxRowEvolves(db, db.outbox[o], Enqueue(db, d, target, newId)[o])
    ensures Enqueue(db, d, target, newId)[o].state == db.outbox[o].state
    ensures Enqueue(db, d, target, newId)[o].attempts == db.outbox[o].attempts
  {
    var row := db.deployments[d];
    if SameKey(db.outbox[o], row.app, OperationOf(row), row.key) {
      var e := db.outbox[o].deployment;
      assert RowFits(db.deployments, db.outbox[o]);
      assert RowsOrdered(d, row, e, db.deployments[e]);
    }
  }

  lemma EnqueueKeeps(db: Database, d: Id, target: Target, newId: Id)
    requires Ordered(db.deployments) && OutboxInv(db.deployments, db.outbox)
    requires d in db.deployments && newId !in db.outbox
    ensures OutboxKept(db, db.(outbox := Enqueue(db, d, target, newId)))
    ensures forall o | o in db.outbox ::
      o in Enqueue(db, d, target, newId) && Enqueue(db, d, target, newId)[o].state == db.outbox[o].state
  {
    var outbox' := Enqueue(db, d, target, newId);
    if AlreadyEnqueued(db, d) {
      hide Ordered, Enqueue, OutboxRowEvolves;
      forall o | o in db.outbox
        ensures o in outbox' && outbox'[o].state == db.outbox[o].state && outbox'[o].attempts == db.outbox[o].attempts
        ensures OutboxRowEvolves(db, db.outbox[o], outbox'[o])
        ensures outbox'.Keys == db.outbox.Keys
      {
        EnqueueAgain(db, d, target, newId, o);
      }
      RowsKept(db, db.(outbox := outbox'));
    } else {
      EnqueueNew(db, d, target, newId);
    }
  }

  lemma EnqueueNew(db: Database, d: Id, target: Target, newId: Id)
    requires OutboxInv(db.deployments, db.outbox)
    requires d in db.deployments && newId !in db.outbox
    requires !AlreadyEnqueued(db, d)
    ensures OutboxKept(db, db.(outbox := Enqueue(db, d, target, newId)))
  {
  }

  ghost predicate StepKeepsOutbox(db: Database, r: Option<Database>) {
    r.Some? ==> OutboxKept(db, r.value)
  }

  lemma ClaimKeepsOutbox(db: Database, rows: set<Id>, worker: Id, ttl: int)
    requires OutboxInv(db.deployments, db.outbox)
    ensures StepKeepsOutbox(db, ClaimOutbox(db, rows, worker, ttl))
  {
    hide OutboxKept;
    if ClaimOutbox(db, rows, worker, ttl).Some? {
      RowsKept(db, ClaimOutbox(db, rows, worker, ttl).value);
    }
  }

  /** A settlement writes one leased or pending row. */
  lemma SettlementKeepsOutbox(db: Database, r: Option<Database>, o: Id)
    requires OutboxInv(db.deployments, db.outbox)
    requires r.Some? ==>
      && o in db.outbox && o in r.value.outbox
      && r.value == db.(outbox := db.outbox[o := r.value.outbox[o]])
      && OutboxRowEvolves(db, db.outbox[o], r.value.outbox[o]) && !r.value.outbox[o].state.Leased?
    ensures StepKeepsOutbox(db, r)
  {
    if r.Some? {
      RowsKept(db, r.value);
    }
  }

  lemma OutboxStepKeepsOutbox(db: Database, s: OutboxStep)
    requires OutboxInv(db.deployments, db.outbox)
    ensures StepKeepsOutbox(db, TryOutbox(db, s))
  {
    hide OutboxInv, OutboxKept, HoldsLease, Backoff;
    match s
    case DoClaim(rows, w, ttl) => ClaimKeepsOutbox(db, rows, w, ttl);
    case _ => SettlementKeepsOutbox(db, TryOutbox(db, s), s.row);
  }

  /** A transaction that advances deployments and then enqueues one of them. */
  lemma AdvanceAndEnqueue(db: Database, db': Database, d: Id, target: Target, newId: Id)
    requires OutboxInv(db.deployments, db.outbox) && Ordered(db'.deployments)
    requires DeploymentsEvolve(db.deployments, db'.deployments)
    requires db'.outbox == db.outbox && d in db'.deployments && newId !in db.outbox
    ensures OutboxKept(db, db'.(outbox := Enqueue(db', d, target, newId)))
  {
    hide OutboxInv, OutboxRowEvolves, Ordered, DeploymentsEvolve, Enqueue;
    OutboxStays(db, db');
    EnqueueKeeps(db', d, target, newId);
    var outbox' := Enqueue(db', d, target, newId);
    forall o | o in db.outbox
      ensures o in outbox' && OutboxRowEvolves(db, db.outbox[o], outbox'[o])
    {
      SameEvolution(db, db', db.outbox[o], outbox'[o]);
    }
  }

  lemma SameEvolution(db: Database, db': Database, r: OutboxRow, r': OutboxRow)
    requires OutboxRowEvolves(db', r, r') && !(r'.state.Completed? && !r.state.Completed?)
    ensures OutboxRowEvolves(db, r, r')
  {
  }

  lemma SelectTargetKeepsOutbox(db: Database, d: Id, target: Target, newId: Id)
    requires CoreInv(db.apps, db.deployments) && OutboxInv(db.deployments, db.outbox)
    ensures StepKeepsOutbox(db, SelectTarget(db, d, target, newId))
  {
    hide OutboxInv, OutboxKept, Ordered, DeploymentsFit, CurrentFits, AppsEvolve, DeploymentsEvolve, Enqueue,
        UsableTarget;
    var r := SelectTarget(db, d, target, newId);
    if r.Some? {
      SelectTargetKeepsCore(db, d, target, newId);
      var queued := r.value.(outbox := db.outbox);
      if r.value.outbox == db.outbox {
        OutboxStays(db, r.value);
      } else {
        AdvanceAndEnqueue(db, queued, d, target, newId);
        assert r.value == queued.(outbox := Enqueue(queued, d, target, newId));
      }
    }
  }

  lemma FinalizeDirectKeepsOutbox(db: Database, o: Id, connection: Id, newId: Id)
    requires CoreInv(db.apps, db.deployments) && OutboxInv(db.deployments, db.outbox)
    ensures StepKeepsOutbox(db, FinalizeDirect(db, o, connection, newId))
  {
    hide OutboxInv, OutboxKept, Ordered, DeploymentsFit, CurrentFits, AppsEvolve, DeploymentsEvolve, Enqueue;
    var r := FinalizeDirect(db, o, connection, newId);
    if r.Some? {
      FinalizeDirectKeepsCore(db, o, connection, newId);
      var queued := r.value.(outbox := db.outbox);
      AdvanceAndEnqueue(db, queued, db.oauth[o].deployment, Byoc(connection), newId);
      assert r.value == queued.(outbox := Enqueue(queued, db.oauth[o].deployment, Byoc(connection), newId));
    }
  }

  lemma OAuthStepOutbox(db: Database, s: OAuthStep)
    ensures TryOAuth(db, s).Some? && !s.DoFinalizeDirect? ==> TryOAuth(db, s).value.outbox == db.outbox
  {
    hide AtGeneration, Enqueue, AccountMatches, FailClaimRow, FailClaimApp, Settle, WithPhase, WithStatus;
  }

  lemma TargetStepOutbox(db: Database, s: TargetStep)
    ensures TryTarget(db, s).Some? && !s.DoSelect? ==> TryTarget(db, s).value.outbox == db.outbox
  {
    hide Enqueue, AtGeneration, UsableTarget, HoldsLease, AllowedTransition;
  }

  lemma StepsKeepOutbox(db: Database, s: Step)
    requires CoreInv(db.apps, db.deployments) && OutboxInv(db.deployments, db.outbox)
    ensures OutboxKept(db, Apply(db, s))
  {
    hide CoreInv, OutboxInv, OutboxKept, AppsEvolve, DeploymentsEvolve;
    hide TryControl, TryLease, TryOutbox, TryPreview, TryOAuth, TryTarget, TryReceipt;
    StepsKeepCore(db, s);
    CoreFrame(db.apps, db.deployments);
    match s
    case Tick(_) => OutboxStays(db, Apply(db, s));
    case Control(c) => ControlFrame(db, c); OutboxStays(db, Apply(db, s));
    case Leasing(l) => LeaseFrame(db, l); OutboxStays(db, Apply(db, s));
    case Queueing(q) => OutboxStays(db, db); OutboxStepKeepsOutbox(db, q);
    case Previewing(p) => PreviewFrame(db, p); OutboxStays(db, Apply(db, s));
    case Connecting(c) => OAuthPartKeepsOutbox(db, c);
    case Targeting(t) => TargetPartKeepsOutbox(db, t);
    case Recording(r) => ReceiptFrame(db, r); OutboxStays(db, Apply(db, s));
  }

  lemma OAuthPartKeepsOutbox(db: Database, c: OAuthStep)
    requires CoreInv(db.apps, db.deployments) && OutboxInv(db.deployments, db.outbox)
    ensures OutboxKept(db, Apply(db, Connecting(c)))
  {
    hide CoreInv, OutboxInv, OutboxKept, AppsEvolve, DeploymentsEvolve;
    hide TryControl, TryLease, TryOutbox, TryPreview, TryTarget;
    hide AwaitOAuth, InsertOAuth, ConsumeOAuth, ExchangeFailed, FinalizeDirect, FinalizeClaim, FailOAuthAttempt,
        CancelOAuth, ExpireOAuth;
    StepsKeepCore(db, Connecting(c));
    OAuthStepOutbox(db, c);
    if c.DoFinalizeDirect? && TryOAuth(db, c).Some? {
      FinalizeDirectKeepsOutbox(db, c.attempt, c.connection, c.newId);
    } else {
      OutboxStays(db, Apply(db, Connecting(c)));
    }
  }

  lemma TargetPartKeepsOutbox(db: Database, t: TargetStep)
    requires CoreInv(db.apps, db.deployments) && OutboxInv(db.deployments, db.outbox)
    ensures OutboxKept(db, Apply(db, Targeting(t)))
  {
    hide CoreInv, OutboxInv, OutboxKept, AppsEvolve, DeploymentsEvolve;
    hide TryControl, TryLease, TryOutbox, TryPreview, TryOAuth;
    hide SelectTarget, Transition, UnlinkConnection;
    StepsKeepCore(db, Targeting(t));
    TargetStepOutbox(db, t);
    if t.DoSelect? && TryTarget(db, t).Some? {
      SelectTargetKeepsOutbox(db, t.deployment, t.target, t.newId);
    } else {
      OutboxStays(db, Apply(db, Targeting(t)));
    }
  }
}
