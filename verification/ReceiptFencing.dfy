/**
 The receipt write: its lease check and its upsert are two statements, so a runner that pauses in
 between may store a receipt it no longer has a right to.  When it does is stated here exactly.
 */
module ReceiptFencing {
  import opened Options
  import opened AppTables
  import opened AppSteps
  import opened AppCore
  import opened AppLeases
  import opened AppOutbox
  import opened AppAttempts
  import opened AppReceipts
  import opened AppSafety
  import opened AppFencing

  /** Step `i` is the SELECT of call `c`, and it finds the caller fenced. */
  ghost predicate Checks(states: seq<Database>, steps: seq<Step>, i: nat, c: Id, w: ReceiptCall) {
    && i < |steps| && i < |states| && steps[i] == Recording(DoCheckReceipt(c, w)) && Try(states[i], steps[i]).Some?
  }

  /** Step `j` is the upsert of call `c`, and it changes the table. */
  ghost predicate Stores(states: seq<Database>, steps: seq<Step>, j: nat, c: Id) {
    && j < |steps| && j < |states| && steps[j] == Recording(DoStoreReceipt(c)) && Try(states[j], steps[j]).Some?
  }

  /** A step that takes a right away from whoever holds the App's lease. */
  ghost predicate Disturbs(states: seq<Database>, steps: seq<Step>, k: nat, a: Id) {
    || Raises(states, k, a)
    || (k < |steps| && k + 1 < |states| && Try(states[k], steps[k]).Some? && TakesLease(states[k], steps[k], a))
  }

  /** The lease of the App is granted anew, released, or runs out by the passing of time. */
  predicate TakesLease(db: Database, s: Step, a: Id) {
    match s
    case Leasing(DoAcquire(b, _, _, _, _)) => b == a
    case Leasing(DoRelease(b, _)) => b == a
    case Tick(time) => a in db.leases && db.now < db.leases[a].expiresAt <= time
    case _ => false
  }

  /** A right lasts through every step that does not disturb it. */
  lemma UndisturbedStaysFenced(db: Database, s: Step, a: Id, d: Id, g: nat, t: Token)
    requires Inv(db) && Fenced(db, a, d, g, t) && (Try(db, s).Some? ==> !TakesLease(db, s, a))
    requires a in Apply(db, s).apps ==> Apply(db, s).apps[a].generation == g
    ensures Fenced(Apply(db, s), a, d, g, t)
  {
    StepKeepsInv(db, s);
    RowsStayAtGeneration(db, Apply(db, s), a, d, g);
    LeaseStays(db, s, a, g, t);
  }

  lemma RowsStayAtGeneration(db: Database, db': Database, a: Id, d: Id, g: nat)
    requires AtGeneration(db, a, d, g) && Evolves(db, db')
    requires a in db'.apps ==> db'.apps[a].generation == g
    ensures AtGeneration(db', a, d, g)
  {
    hide TokensEvolve, OutboxEvolves, AttemptsEvolve, ReceiptsEvolve;
    assert AppEvolves(a, db.apps[a], db.deployments, db'.apps[a], db'.deployments);
  }

  lemma LeaseStays(db: Database, s: Step, a: Id, g: nat, t: Token)
    requires HoldsLease(db, a, g, t) && (Try(db, s).Some? ==> !TakesLease(db, s, a))
    ensures HoldsLease(Apply(db, s), a, g, t)
  {
    hide TryControl, TryOutbox, TryPreview, TryOAuth, TryTarget, TryReceipt;
    LeaseRowsChangeOnlyByLeasing(db, s);
  }

  /** A disturbance ends the right of the token that was live before it. */
  lemma DisturbedIsNotFenced(states: seq<Database>, steps: seq<Step>, k: nat, a: Id, g: nat, t: Token)
    requires IsRun(states, steps) && Disturbs(states, steps, k, a) && k < |steps|
    requires t in states[k].issued && (a in states[k].apps ==> g <= states[k].apps[a].generation)
    ensures !Live(states[k + 1], a, t) || (a in states[k + 1].apps && g < states[k + 1].apps[a].generation)
  {
    hide TryControl, TryOutbox, TryPreview, TryOAuth, TryTarget, TryReceipt;
  }

  /** From the check on, the caller's right holds exactly while nothing disturbs it. */
  lemma {:induction false} FencedIffUndisturbed(
    states: seq<Database>, steps: seq<Step>, i: nat, j: nat, a: Id, d: Id, g: nat, t: Token)
    requires IsRun(states, steps) && i <= j < |states| && Fenced(states[i], a, d, g, t)
    ensures Fenced(states[j], a, d, g, t) <==> forall k | i <= k < j :: !Disturbs(states, steps, k, a)
    decreases j
  {
    hide Inv, Apply, Disturbs;
    if i < j {
      FencedIffUndisturbed(states, steps, i, j - 1, a, d, g, t);
      if forall k | i <= k < j :: !Disturbs(states, steps, k, a) {
        LastStepStaysFenced(states, steps, j - 1, a, d, g, t);
      } else {
        var k :| i <= k < j && Disturbs(states, steps, k, a);
        DisturbedForGood(states, steps, i, k, j, a, d, g, t);
      }
    }
  }

  lemma LastStepStaysFenced(states: seq<Database>, steps: seq<Step>, k: nat, a: Id, d: Id, g: nat, t: Token)
    requires IsRun(states, steps) && k < |steps| && Fenced(states[k], a, d, g, t) && !Disturbs(states, steps, k, a)
    ensures Fenced(states[k + 1], a, d, g, t)
  {
    hide Inv, Try, TakesLease;
    RunKeepsInv(states, steps, k);
    ServedVersionNeverGoesBack(states, steps, k, k + 1, a);
    UndisturbedStaysFenced(states[k], steps[k], a, d, g, t);
  }

  lemma DisturbedForGood(
    states: seq<Database>, steps: seq<Step>, i: nat, k: nat, j: nat, a: Id, d: Id, g: nat, t: Token)
    requires IsRun(states, steps) && i <= k < j < |states| && Fenced(states[i], a, d, g, t)
    requires Disturbs(states, steps, k, a)
    ensures !Fenced(states[j], a, d, g, t)
  {
    hide Inv, Apply, Try, Disturbs;
    LiveTokensAreIssued(states, steps, i, a, t);
    IssuedTokensStayIssued(states, steps, i, k, t);
    IssuedTokensStayIssued(states, steps, k, k + 1, t);
    ServedVersionNeverGoesBack(states, steps, i, k, a);
    ServedVersionNeverGoesBack(states, steps, k, k + 1, a);
    DisturbedIsNotFenced(states, steps, k, a, g, t);
    ServedVersionNeverGoesBack(states, steps, k + 1, j, a);
    if !Live(states[k + 1], a, t) {
      DeadTokensStayDead(states, steps, k + 1, j, a, t);
    }
  }

  /** A receipt is stored by the holder of the App's live lease at the App's and the deployment's generation exactly
      when, since the call's check, the App's lease was neither granted anew nor released, did not run out, and the
      generation was not raised. */
  lemma StoredReceiptIsFencedIffUndisturbed(
    states: seq<Database>, steps: seq<Step>, i: nat, j: nat, c: Id, w: ReceiptCall)
    requires IsRun(states, steps) && i < j && Checks(states, steps, i, c, w) && Stores(states, steps, j, c)
    ensures Fenced(states[j], w.app, w.at.deployment, w.generation, w.token)
       <==> forall k | i <= k < j :: !Disturbs(states, steps, k, w.app)
  {
    hide Apply, Disturbs;
    FencedIffUndisturbed(states, steps, i, j, w.app, w.at.deployment, w.generation, w.token);
  }

  /** Every receipt that is stored was checked by one earlier step, for the same row. */
  lemma {:induction false} CallsWereChecked(states: seq<Database>, steps: seq<Step>, j: nat, c: Id) returns (i: nat)
    requires IsRun(states, steps) && j < |states| && c in states[j].receipts.calls
    ensures i < j && Checks(states, steps, i, c, states[j].receipts.calls[c].(done := false))
    decreases j
  {
    hide Inv, Evolves, Apply, Try;
    assert j > 0;
    if c in states[j - 1].receipts.calls {
      RunEvolves(states, steps, j - 1);
      CallStays(states[j - 1], states[j], c);
      i := CallsWereChecked(states, steps, j - 1, c);
    } else {
      i := j - 1;
      NewCallsAreChecked(states[j - 1], steps[j - 1], c);
    }
  }

  lemma CallStays(db: Database, db': Database, c: Id)
    requires Evolves(db, db') && c in db.receipts.calls
    ensures c in db'.receipts.calls && db'.receipts.calls[c].(done := false) == db.receipts.calls[c].(done := false)
  {
    hide CoreEvolves, TokensEvolve, OutboxEvolves, AttemptsEvolve;
    assert CallEvolves(db.receipts.calls[c], db'.receipts.calls[c]);
  }

  lemma NewCallsAreChecked(db: Database, s: Step, c: Id)
    requires c !in db.receipts.calls && c in Apply(db, s).receipts.calls
    ensures Try(db, s).Some? && s == Recording(DoCheckReceipt(c, Apply(db, s).receipts.calls[c]))
    ensures !Apply(db, s).receipts.calls[c].done
  {
    hide TryControl, TryLease, TryOutbox, TryPreview, TryOAuth, TryTarget, TryReceipt;
    ReceiptsChangeOnlyByRecording(db, s);
    NewCallsOfAReceiptStep(db, s.receipt, c);
  }

  lemma NewCallsOfAReceiptStep(db: Database, r: ReceiptStep, c: Id)
    requires c !in db.receipts.calls && TryReceipt(db, r).Some? && c in TryReceipt(db, r).value.receipts.calls
    ensures r == DoCheckReceipt(c, TryReceipt(db, r).value.receipts.calls[c])
    ensures !TryReceipt(db, r).value.receipts.calls[c].done
  {
    hide Fenced;
  }

  /** Owners of stored receipts never change and no receipt is lost, whatever paused calls store. */
  lemma {:induction false} ReceiptsKeepTheirOwner(
    states: seq<Database>, steps: seq<Step>, i: nat, j: nat, at: ReceiptKey)
    requires IsRun(states, steps) && i <= j < |states| && at in states[i].receipts.rows
    ensures at in states[j].receipts.rows && states[j].receipts.rows[at].created == states[i].receipts.rows[at].created
    decreases j - i
  {
    hide Inv, Apply, CoreEvolves, TokensEvolve, OutboxEvolves, AttemptsEvolve;
    if i < j {
      RunEvolves(states, steps, i);
      ReceiptsKeepTheirOwner(states, steps, i + 1, j, at);
    }
  }

  // ----- a stale receipt that is stored: the App moves on between the check and the upsert -----

  const AT := ReceiptKey(0, BindingKind(0), 0)
  const CALL := ReceiptCall(0, 1, 7, AT, ReceiptRow(true, 0), false)
  const LATE_STEPS: seq<Step> := [
    Control(DoBegin(FIRST)),
    Targeting(DoSelect(0, Byoc(5), 0)),
    Leasing(DoAcquire(0, 3, 1, 300_000, 7)),
    Targeting(DoTransition(0, 1, 7, Queued, Provisioning)),
    Recording(DoCheckReceipt(0, CALL)),
    Control(DoBegin(AGAIN)),
    Recording(DoStoreReceipt(0))]

  /** The state in which the check finds everything in order. */
  lemma LateExampleCheck() returns (three: Database, four: Database, five: Database)
    ensures three == Apply(Apply(Apply(EMPTY, LATE_STEPS[0]), LATE_STEPS[1]), LATE_STEPS[2])
    ensures four == Apply(three, LATE_STEPS[3]) && five == Apply(four, LATE_STEPS[4])
    ensures Try(four, LATE_STEPS[4]).Some? && five.receipts == Receipts(map[], map[0 := CALL])
    ensures five.apps == map[0 := App(1, NeedsAction, None, Byoc(5), 0, 0)]
    ensures five.deployments == map[0 := Deployment(0, 1, 1, 10, None, 0, 0, Provisioning, Byoc(5), None, None)]
  {
    hide TryControl, TryLease, SelectTarget;
    three := StaleExamplePrefix();
    four := Apply(three, LATE_STEPS[3]);
    assert four.deployments == map[0 := Deployment(0, 1, 1, 10, None, 0, 0, Provisioning, Byoc(5), None, None)];
    five := Apply(four, LATE_STEPS[4]);
  }

  /** A reachable state in which the receipt is stored although the App has moved to generation 2. */
  lemma LateReceiptIsStored() returns (states: seq<Database>)
    ensures IsRun(states, LATE_STEPS) && Checks(states, LATE_STEPS, 4, 0, CALL) && Stores(states, LATE_STEPS, 6, 0)
    ensures AT in states[7].receipts.rows && 0 in states[6].apps && states[6].apps[0].generation == 2 > CALL.generation
    ensures !Fenced(states[6], CALL.app, AT.deployment, CALL.generation, CALL.token)
  {
    hide TryControl, TryLease, SelectTarget;
    var three, four, five := LateExampleCheck();
    RepublishMovesOn(five, Provisioning);
    var one := Apply(EMPTY, LATE_STEPS[0]);
    var six := Apply(five, LATE_STEPS[5]);
    states := [EMPTY, one, Apply(one, LATE_STEPS[1]), three, four, five, six, Apply(six, LATE_STEPS[6])];
  }
}
