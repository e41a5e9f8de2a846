/**
 Leases as fences over whole interleavings: any number of runners may pause anywhere, and a
 write guarded by a lease still takes effect only for the one runner whose token is live.
 */
module AppFencing {
  import opened Options
  import opened AppTables
  import opened AppSteps
  import opened AppCore
  import opened AppLeases
  import opened AppFrames
  import opened AppOutbox
  import opened AppAttempts
  import opened AppReceipts
  import opened AppSafety

  /** At any time an App has at most one live token, and a live token acts for one App. */
  lemma OneLiveToken(states: seq<Database>, steps: seq<Step>, i: nat, a: Id, b: Id, t: Token, u: Token)
    requires IsRun(states, steps) && i < |states| && Live(states[i], a, t) && Live(states[i], b, u)
    ensures a == b <==> t == u
  {
    hide Apply;
    RunKeepsInv(states, steps, i);
  }

  /** A token that was issued and is no longer live, because it was replaced, released or ran out, never acts again. */
  lemma {:induction false} DeadTokensStayDead(states: seq<Database>, steps: seq<Step>, i: nat, j: nat, a: Id, t: Token)
    requires IsRun(states, steps) && i <= j < |states| && t in states[i].issued && !Live(states[i], a, t)
    ensures t in states[j].issued && !Live(states[j], a, t)
    decreases j - i
  {
    hide Inv, Apply, CoreEvolves, Live;
    if i < j {
      RunEvolves(states, steps, i);
      DeadTokensStayDead(states, steps, i + 1, j, a, t);
    }
  }

  /** The App, generation and token under which a step asks to write; none for steps no lease guards. */
  function Guard(db: Database, s: Step): Option<(Id, nat, Token)> {
    match s
    case Control(DoMarkDeploying(a, _, g, t)) => Some((a, g, t))
    case Control(DoComplete(a, _, g, t, _, _, _)) => Some((a, g, t))
    case Control(DoFail(a, _, g, Some(t))) => Some((a, g, t))
    case Queueing(DoCompleteByKey(_, a, _, _, g, t)) => Some((a, g, t))
    case Queueing(DoFailByKey(_, a, _, _, g, t)) => Some((a, g, t))
    case Targeting(DoTransition(d, g, t, _, _)) =>
      if d in db.deployments then Some((db.deployments[d].app, g, t)) else None
    case _ => None
  }

  /** A guarded step that takes effect holds the App's live lease at the generation it names. */
  lemma GuardedStepsHoldTheLease(db: Database, s: Step)
    requires Guard(db, s).Some? && Try(db, s).Some?
    ensures var (a, g, t) := Guard(db, s).value; HoldsLease(db, a, g, t) && Live(db, a, t)
  {
    hide Terminal, StatusAfterFailure, WithPhase, WithStatus, AllowedTransition, WithOutboxState, RowIsCurrent;
  }

  /** Fencing: once another token has written for an App, an earlier writer's token never writes for it again. */
  lemma SupersededWritersAreFencedOff(states: seq<Database>, steps: seq<Step>, i: nat, j: nat, k: nat)
    requires IsRun(states, steps) && i < j < k < |steps|
    requires Guard(states[i], steps[i]).Some? && Try(states[i], steps[i]).Some?
    requires Guard(states[j], steps[j]).Some? && Try(states[j], steps[j]).Some?
    requires Guard(states[k], steps[k]).Some? && Try(states[k], steps[k]).Some?
    requires Guard(states[i], steps[i]).value.0 == Guard(states[j], steps[j]).value.0
    requires Guard(states[j], steps[j]).value.0 == Guard(states[k], steps[k]).value.0
    requires Guard(states[i], steps[i]).value.2 != Guard(states[j], steps[j]).value.2
    ensures Guard(states[k], steps[k]).value.2 != Guard(states[i], steps[i]).value.2
  {
    hide Guard, Try, Inv;
    var (a, _, t) := Guard(states[i], steps[i]).value;
    GuardedStepsHoldTheLease(states[i], steps[i]);
    GuardedStepsHoldTheLease(states[j], steps[j]);
    GuardedStepsHoldTheLease(states[k], steps[k]);
    LiveTokensAreIssued(states, steps, i, a, t);
    IssuedTokensStayIssued(states, steps, i, j, t);
    DeadTokensStayDead(states, steps, j, k, a, t);
  }

  lemma LiveTokensAreIssued(states: seq<Database>, steps: seq<Step>, i: nat, a: Id, t: Token)
    requires IsRun(states, steps) && i < |states| && Live(states[i], a, t)
    ensures t in states[i].issued
  {
    hide Apply, CoreInv;
    RunKeepsInv(states, steps, i);
  }

  lemma {:induction false} IssuedTokensStayIssued(states: seq<Database>, steps: seq<Step>, i: nat, j: nat, t: Token)
    requires IsRun(states, steps) && i <= j < |states| && t in states[i].issued
    ensures t in states[j].issued
    decreases j - i
  {
    hide Inv, Apply, CoreEvolves, Live;
    if i < j {
      RunEvolves(states, steps, i);
      IssuedTokensStayIssued(states, steps, i + 1, j, t);
    }
  }

  // ----- when a guarded write is current -----

  /** Step `k` moves the App to another generation: publishing, rolling back, archiving and restoring do. */
  ghost predicate Raises(states: seq<Database>, k: nat, a: Id) {
    && k + 1 < |states| && a in states[k].apps && a in states[k + 1].apps
    && states[k].apps[a].generation < states[k + 1].apps[a].generation
  }

  /** Step `i` grants token `t` for the App, at generation `g`. */
  ghost predicate Grants(states: seq<Database>, steps: seq<Step>, i: nat, a: Id, g: nat, t: Token) {
    && i < |steps| && i < |states| && Try(states[i], steps[i]).Some?
    && steps[i].Leasing? && steps[i].lease.DoAcquire?
    && steps[i].lease.app == a && steps[i].lease.generation == g && steps[i].lease.token == t
  }

  /** The generation stays what it is exactly while no step raises it. */
  lemma {:induction false} SameGenerationIffNotRaised(states: seq<Database>, steps: seq<Step>, i: nat, j: nat, a: Id)
    requires IsRun(states, steps) && i <= j < |states| && a in states[i].apps
    ensures a in states[j].apps && states[i].apps[a].generation <= states[j].apps[a].generation
    ensures states[j].apps[a].generation == states[i].apps[a].generation <==>
              forall k | i <= k < j :: !Raises(states, k, a)
    decreases j - i
  {
    hide Apply;
    if i < j {
      ServedVersionNeverGoesBack(states, steps, i, i + 1, a);
      SameGenerationIffNotRaised(states, steps, i + 1, j, a);
      assert Raises(states, i, a) <==> states[i].apps[a].generation < states[i + 1].apps[a].generation;
    }
  }

  /** A granted token that is live later still has the lease at the generation it was granted for. */
  lemma {:induction false} GrantKeepsItsGeneration(
    states: seq<Database>, steps: seq<Step>, i: nat, j: nat, a: Id, g: nat, t: Token)
    requires IsRun(states, steps) && Grants(states, steps, i, a, g, t) && i < j < |states| && Live(states[j], a, t)
    ensures states[j].leases[a].generation == g
    decreases j
  {
    hide Inv, CoreEvolves, OutboxEvolves, AttemptsEvolve, ReceiptsEvolve, Apply, Grants;
    GrantIsIssued(states, steps, i, a, g, t);
    if i + 1 < j {
      RunEvolves(states, steps, j - 1);
      IssuedTokensStayIssued(states, steps, i + 1, j - 1, t);
      assert LeaseEvolves(states[j - 1], a, states[j].leases[a]);
      GrantKeepsItsGeneration(states, steps, i, j - 1, a, g, t);
    }
  }

  lemma GrantIsIssued(states: seq<Database>, steps: seq<Step>, i: nat, a: Id, g: nat, t: Token)
    requires IsRun(states, steps) && Grants(states, steps, i, a, g, t)
    ensures t in states[i + 1].issued && a in states[i].apps && states[i].apps[a].generation == g
    ensures a in states[i + 1].leases && states[i + 1].leases[a].generation == g
    ensures states[i + 1].now == states[i].now
  {
  }

  /** Every lease row goes back to the step that granted its token. */
  lemma {:induction false} LeasesWereGranted(states: seq<Database>, steps: seq<Step>, j: nat, a: Id) returns (i: nat)
    requires IsRun(states, steps) && j < |states| && a in states[j].leases
    ensures i < j && Grants(states, steps, i, a, states[j].leases[a].generation, states[j].leases[a].token)
    decreases j
  {
    hide Inv, CoreEvolves, OutboxEvolves, AttemptsEvolve, ReceiptsEvolve, Apply, Try;
    assert j > 0;
    RunEvolves(states, steps, j - 1);
    assert LeaseEvolves(states[j - 1], a, states[j].leases[a]);
    if states[j].leases[a].token in states[j - 1].issued {
      i := LeasesWereGranted(states, steps, j - 1, a);
    } else {
      i := j - 1;
      NewTokensAreGranted(states[j - 1], steps[j - 1], a);
    }
  }

  lemma NewTokensAreGranted(db: Database, s: Step, a: Id)
    requires Inv(db) && a in Apply(db, s).leases && Apply(db, s).leases[a].token !in db.issued
    ensures Try(db, s).Some? && s.Leasing? && s.lease.DoAcquire?
    ensures var l := Apply(db, s).leases[a];
      s.lease.app == a && s.lease.generation == l.generation && s.lease.token == l.token
  {
    hide Inv, TryControl, TryOutbox, TryPreview, TryOAuth, TryTarget, TryReceipt, ClampTtl;
    LeasesAreIssued(db);
    LeaseRowsChangeOnlyByLeasing(db, s);
  }

  lemma LeasesAreIssued(db: Database)
    requires Inv(db)
    ensures forall a | a in db.leases :: db.leases[a].token in db.issued
  {
    hide CoreInv, OutboxInv;
  }

  /** Steps of other kinds leave the leases alone. */
  lemma LeaseRowsChangeOnlyByLeasing(db: Database, s: Step)
    ensures !s.Leasing? ==> Apply(db, s).leases == db.leases && Apply(db, s).issued == db.issued
    ensures !s.Tick? ==> Apply(db, s).now == db.now
  {
    hide TryControl, TryLease, TryOutbox, TryPreview, TryOAuth, TryTarget, TryReceipt;
    match s
    case Tick(_) =>
    case Control(c) => ControlFrame(db, c);
    case Leasing(l) => LeaseFrame(db, l);
    case Queueing(q) => OutboxFrame(db, q);
    case Previewing(p) => PreviewFrame(db, p);
    case Connecting(c) => OAuthFrame(db, c);
    case Targeting(t) => TargetFrame(db, t);
    case Recording(r) => ReceiptFrame(db, r);
  }

  lemma ReceiptsChangeOnlyByRecording(db: Database, s: Step)
    ensures !s.Recording? ==> Apply(db, s).receipts == db.receipts
  {
    hide TryControl, TryLease, TryOutbox, TryPreview, TryOAuth, TryTarget, TryReceipt;
    match s
    case Tick(_) =>
    case Control(c) => ControlFrame(db, c);
    case Leasing(l) => LeaseFrame(db, l);
    case Queueing(q) => OutboxFrame(db, q);
    case Previewing(p) => PreviewFrame(db, p);
    case Connecting(c) => OAuthFrame(db, c);
    case Targeting(t) => TargetFrame(db, t);
    case Recording(_) =>
  }

  /** A guarded write that takes effect does so at its App's present generation exactly when no step has raised the
      generation since the write's token was granted. */
  lemma CurrentIffNotRaisedSinceGranted(
    states: seq<Database>, steps: seq<Step>, i: nat, j: nat, a: Id, g: nat, granted: nat, t: Token)
    requires IsRun(states, steps) && i < j < |steps| && Grants(states, steps, i, a, granted, t)
    requires Guard(states[j], steps[j]) == Some((a, g, t)) && Try(states[j], steps[j]).Some?
    ensures a in states[j].apps && g == granted
    ensures states[j].apps[a].generation == g <==> forall k | i <= k < j :: !Raises(states, k, a)
  {
    hide Try, Guard, Apply;
    GuardedStepsHoldTheLease(states[j], steps[j]);
    GrantKeepsItsGeneration(states, steps, i, j, a, granted, t);
    GrantIsIssued(states, steps, i, a, granted, t);
    SameGenerationIffNotRaised(states, steps, i, j, a);
  }

  /** The grant that the equivalence speaks of is there for every guarded write of every run. */
  lemma GuardedWritesWereGranted(states: seq<Database>, steps: seq<Step>, j: nat) returns (i: nat)
    requires IsRun(states, steps) && j < |steps| && Guard(states[j], steps[j]).Some? && Try(states[j], steps[j]).Some?
    ensures var (a, g, t) := Guard(states[j], steps[j]).value; i < j && Grants(states, steps, i, a, g, t)
  {
    hide Try, Guard, Apply;
    GuardedStepsHoldTheLease(states[j], steps[j]);
    i := LeasesWereGranted(states, steps, j, Guard(states[j], steps[j]).value.0);
  }

  /** Steps that compare the App's own generation as well as the lease's; transitionDeploymentPhase and failOutboxByKey
      do not. */
  predicate ChecksAppGeneration(s: Step) {
    || (s.Control? && (s.control.DoMarkDeploying? || s.control.DoComplete? || s.control.DoFail?))
    || (s.Queueing? && s.outbox.DoCompleteByKey?)
  }

  lemma CheckedStepsAreCurrent(db: Database, s: Step)
    requires Guard(db, s).Some? && Try(db, s).Some? && ChecksAppGeneration(s)
    ensures var (a, g, _) := Guard(db, s).value; a in db.apps && db.apps[a].generation == g
  {
    hide HoldsLease, Terminal, StatusAfterFailure, WithPhase, WithStatus, WithOutboxState;
  }

  /** Publishing, completing and failing a deployment, and completing its outbox row, never come after a step that
      raised the generation since the writer's token was granted. */
  lemma CheckedWritesAreNeverStale(
    states: seq<Database>, steps: seq<Step>, i: nat, k: nat, j: nat, a: Id, g: nat, granted: nat, t: Token)
    requires IsRun(states, steps) && i <= k < j < |steps| && Grants(states, steps, i, a, granted, t)
    requires Guard(states[j], steps[j]) == Some((a, g, t)) && Try(states[j], steps[j]).Some?
    requires ChecksAppGeneration(steps[j])
    ensures !Raises(states, k, a) && states[j].apps[a].generation == g
  {
    hide Try, Guard, Apply, ChecksAppGeneration;
    CheckedStepsAreCurrent(states[j], steps[j]);
    CurrentIffNotRaisedSinceGranted(states, steps, i, j, a, g, granted, t);
  }

  // ----- how long a stale lease lasts -----

  lemma {:induction false} LeasesAreShort(states: seq<Database>, steps: seq<Step>, j: nat, a: Id)
    requires IsRun(states, steps) && j < |states| && a in states[j].leases
    ensures states[j].leases[a].expiresAt <= states[j].now + MAX_LEASE_MS
    decreases j
  {
    hide Inv, Apply, CoreEvolves, OutboxEvolves, AttemptsEvolve, ReceiptsEvolve;
    if j > 0 {
      RunEvolves(states, steps, j - 1);
      assert LeaseEvolves(states[j - 1], a, states[j].leases[a]);
      if a in states[j - 1].leases {
        LeasesAreShort(states, steps, j - 1, a);
      }
    }
  }

  /** A lease of a generation the App has left is never extended. */
  lemma {:induction false} StaleLeasesRunOut(states: seq<Database>, steps: seq<Step>, i: nat, j: nat, a: Id)
    requires IsRun(states, steps) && i <= j < |states| && a in states[i].apps && a in states[j].leases
    requires states[j].leases[a].generation < states[i].apps[a].generation
    ensures states[j].leases[a].expiresAt <= states[i].now + MAX_LEASE_MS
    decreases j
  {
    hide Inv, Apply, CoreEvolves, OutboxEvolves, AttemptsEvolve, ReceiptsEvolve;
    if i == j {
      LeasesAreShort(states, steps, j, a);
    } else {
      RunEvolves(states, steps, j - 1);
      ServedVersionNeverGoesBack(states, steps, i, j - 1, a);
      assert LeaseEvolves(states[j - 1], a, states[j].leases[a]);
      StaleLeasesRunOut(states, steps, i, j - 1, a);
    }
  }

  /** Stale guarded writes stop at most the longest lease after the App has left their generation. */
  lemma StaleWritesEndWithTheLease(states: seq<Database>, steps: seq<Step>, i: nat, j: nat, a: Id, g: nat, t: Token)
    requires IsRun(states, steps) && i <= j < |steps| && a in states[i].apps && g < states[i].apps[a].generation
    requires Guard(states[j], steps[j]) == Some((a, g, t)) && Try(states[j], steps[j]).Some?
    ensures states[j].now < states[i].now + MAX_LEASE_MS
  {
    hide Try, Guard, Apply;
    GuardedStepsHoldTheLease(states[j], steps[j]);
    StaleLeasesRunOut(states, steps, i, j, a);
  }

  // ----- a stale write that takes effect: the lease outlives the publish that made its generation stale -----

  const FIRST := Publish(0, true, 0, 10, 0, 0, None, None)
  const AGAIN := Publish(0, false, 1, 11, 0, 0, None, None)
  const STALE_STEPS: seq<Step> := [
    Control(DoBegin(FIRST)),
    Targeting(DoSelect(0, Byoc(5), 0)),
    Leasing(DoAcquire(0, 3, 1, 300_000, 7)),
    Control(DoBegin(AGAIN)),
    Targeting(DoTransition(0, 1, 7, Queued, Provisioning))]

  /** First publish, target selection and lease of the example. */
  lemma StaleExamplePrefix() returns (db: Database)
    ensures db == Apply(Apply(Apply(EMPTY, STALE_STEPS[0]), STALE_STEPS[1]), STALE_STEPS[2])
    ensures db.now == 0 && db.leases == map[0 := Lease(7, 3, 1, 300_000)] && db.receipts == EMPTY.receipts
    ensures db.apps == map[0 := App(1, NeedsAction, None, Byoc(5), 0, 0)]
    ensures db.deployments == map[0 := Deployment(0, 1, 1, 10, None, 0, 0, Queued, Byoc(5), None, None)]
  {
    var one := Apply(EMPTY, STALE_STEPS[0]);
    assert VersionsOf(EMPTY, 0) == {};
    assert one == EMPTY.(apps := map[0 := App(1, NeedsAction, None, Unassigned, 0, 0)],
                         deployments := map[0 :=
                           Deployment(0, 1, 1, 10, None, 0, 0, AwaitingTarget, Unassigned, None, None)]);
    var two := Apply(one, STALE_STEPS[1]);
    assert two.apps == map[0 := App(1, NeedsAction, None, Byoc(5), 0, 0)];
    assert two.deployments == map[0 := Deployment(0, 1, 1, 10, None, 0, 0, Queued, Byoc(5), None, None)];
    db := Apply(two, STALE_STEPS[2]);
  }

  /** Publishing again moves the App on and leaves everything else as it is. */
  lemma RepublishMovesOn(db: Database, phase: Phase)
    requires db.apps == map[0 := App(1, NeedsAction, None, Byoc(5), 0, 0)]
    requires db.deployments == map[0 := Deployment(0, 1, 1, 10, None, 0, 0, phase, Byoc(5), None, None)]
    ensures var next := Apply(db, Control(DoBegin(AGAIN)));
      && next.apps.Keys == {0} && next.apps[0].generation == 2
      && next.leases == db.leases && next.now == db.now && next.receipts == db.receipts
      && 0 in next.deployments && next.deployments[0] == db.deployments[0]
  {
  }

  /** A reachable state in which the transition still writes although the App has moved to generation 2. */
  lemma StaleTransitionTakesEffect() returns (states: seq<Database>)
    ensures IsRun(states, STALE_STEPS)
    ensures Try(states[4], STALE_STEPS[4]).Some? && states[5].deployments[0].phase.Provisioning?
    ensures Guard(states[4], STALE_STEPS[4]) == Some((0, 1, 7)) && states[4].apps[0].generation == 2
  {
    hide TryControl, TryLease, SelectTarget;
    var three := StaleExamplePrefix();
    RepublishMovesOn(three, Queued);
    var one := Apply(EMPTY, STALE_STEPS[0]);
    var four := Apply(three, STALE_STEPS[3]);
    states := [EMPTY, one, Apply(one, STALE_STEPS[1]), three, four, Apply(four, STALE_STEPS[4])];
  }
}
