/**
 Safety over whole interleavings: whatever order the steps of any number of workers, UI calls,
 OAuth callbacks and sweepers commit in, the statements below hold of every state reached.
 */
module AppSafety {
  import opened Options
  import opened AppTables
  import opened AppSteps
  import opened AppCore
  import opened AppLeases
  import opened AppAttempts
  import opened AppOutbox
  import opened AppClaims
  import opened AppReceipts

  ghost predicate Inv(db: Database) {
    && CoreInv(db.apps, db.deployments)
    && LeasesInv(db.apps, db.leases, db.issued)
    && OutboxInv(db.deployments, db.outbox)
    && VerifiersFit(db.oauth)
    && SecretsFit(db.previews)
    && OneOpenPreview(db.previews)
    && ReceiptsInv(db.deployments, db.issued, db.receipts)
  }

  ghost predicate Evolves(db: Database, db': Database) {
    && CoreEvolves(db.apps, db.deployments, db'.apps, db'.deployments)
    && TokensEvolve(db, db')
    && OutboxEvolves(db, db'.outbox)
    && AttemptsEvolve(db.oauth, db'.oauth)
    && ReceiptsEvolve(db.receipts, db'.receipts)
  }

  lemma StepKeepsInv(db: Database, s: Step)
    requires Inv(db)
    ensures Inv(Apply(db, s)) && Evolves(db, Apply(db, s))
  {
    assert forall a | a in db.leases :: db.leases[a].token in db.issued;
    hide CoreInv, LeasesInv, OutboxInv, VerifiersFit, SecretsFit, OneOpenPreview, ReceiptsInv;
    hide CoreEvolves, TokensEvolve, OutboxEvolves, AttemptsEvolve, ReceiptsEvolve, Apply;
    StepsKeepCore(db, s);
    StepsKeepLeases(db, s);
    StepsKeepOutbox(db, s);
    StepsKeepAttempts(db, s);
    StepsKeepSecrets(db, s);
    StepsKeepOneOpen(db, s);
    StepsKeepReceipts(db, s);
  }

  lemma EmptyTablesAreFine()
    ensures Inv(EMPTY) && ClaimsInv(EMPTY)
  {
  }

  lemma {:induction false} RunKeepsInv(states: seq<Database>, steps: seq<Step>, i: nat)
    requires IsRun(states, steps) && i < |states|
    ensures Inv(states[i])
  {
    hide Apply, Inv;
    if i == 0 {
      EmptyTablesAreFine();
    } else {
      RunKeepsInv(states, steps, i - 1);
      StepKeepsInv(states[i - 1], steps[i - 1]);
    }
  }

  lemma RunEvolves(states: seq<Database>, steps: seq<Step>, i: nat)
    requires IsRun(states, steps) && i < |steps|
    ensures Inv(states[i]) && Inv(states[i + 1]) && Evolves(states[i], states[i + 1])
  {
    hide Inv, Evolves, Apply;
    RunKeepsInv(states, steps, i);
    StepKeepsInv(states[i], steps[i]);
  }

  // ----- generations, versions and the current deployment -----

  /** Generations never decrease and the version being served never goes backwards. */
  lemma {:induction false} ServedVersionNeverGoesBack(states: seq<Database>, steps: seq<Step>, i: nat, j: nat, a: Id)
    requires IsRun(states, steps) && i <= j < |states| && a in states[i].apps
    ensures a in states[j].apps
    ensures states[i].apps[a].generation <= states[j].apps[a].generation
    ensures VersionOf(states[i].deployments, states[i].apps[a].current)
         <= VersionOf(states[j].deployments, states[j].apps[a].current)
    decreases j - i
  {
    hide Inv, Apply, TokensEvolve, OutboxEvolves, AttemptsEvolve, DeploymentsEvolve;
    if i < j {
      RunEvolves(states, steps, i);
      assert AppEvolves(a, states[i].apps[a], states[i].deployments, states[i + 1].apps[a], states[i + 1].deployments);
      ServedVersionNeverGoesBack(states, steps, i + 1, j, a);
    }
  }

  /** In every reachable state a generation, like an idempotency key, names one deployment of its App, versions
      are ordered as generations are, and no deployment is ahead of its App. */
  lemma OneDeploymentPerGeneration(states: seq<Database>, steps: seq<Step>, i: nat, d: Id, e: Id)
    requires IsRun(states, steps) && i < |states| && d in states[i].deployments && e in states[i].deployments
    requires states[i].deployments[d].app == states[i].deployments[e].app
    ensures var ds := states[i].deployments;
      && (ds[d].generation == ds[e].generation ==> d == e)
      && (ds[d].key == ds[e].key ==> d == e)
      && (ds[d].generation < ds[e].generation <==> ds[d].version < ds[e].version)
      && ds[d].app in states[i].apps && ds[d].generation <= states[i].apps[ds[d].app].generation
  {
    RunKeepsInv(states, steps, i);
    assert RowsOrdered(d, states[i].deployments[d], e, states[i].deployments[e]);
  }

  // ----- phases -----

  /** No step lowers a deployment's rank, and ready, expired, failed and cancelled are final. */
  lemma {:induction false} PhasesNeverGoBack(states: seq<Database>, steps: seq<Step>, i: nat, j: nat, d: Id)
    requires IsRun(states, steps) && i <= j < |states| && d in states[i].deployments
    ensures d in states[j].deployments && RowEvolves(states[i].deployments[d], states[j].deployments[d])
    decreases j - i
  {
    hide Inv, Apply, TokensEvolve, OutboxEvolves, AttemptsEvolve, AppsEvolve;
    if i < j {
      RunEvolves(states, steps, i);
      PhasesNeverGoBack(states, steps, i + 1, j, d);
    }
  }

  /** Step `i` takes the deployment out of `deploying` into ready or temporary_ready. */
  ghost predicate Serves(states: seq<Database>, i: nat, d: Id) {
    && i + 1 < |states|
    && d in states[i].deployments && states[i].deployments[d].phase.Deploying?
    && d in states[i + 1].deployments
    && (states[i + 1].deployments[d].phase.Ready? || states[i + 1].deployments[d].phase.TemporaryReady?)
  }

  /** However often its outbox row is replayed, a deployment is served at most once. */
  lemma ServedAtMostOnce(states: seq<Database>, steps: seq<Step>, i: nat, j: nat, d: Id)
    requires IsRun(states, steps) && Serves(states, i, d) && Serves(states, j, d)
    ensures i == j
  {
    hide Apply;
    if i < j {
      PhasesNeverGoBack(states, steps, i + 1, j, d);
    } else if j < i {
      PhasesNeverGoBack(states, steps, j + 1, i, d);
    }
  }

  // ----- status -----

  lemma StepKeepsClaims(db: Database, s: Step)
    requires Inv(db)
    ensures ClaimsInv(db) && ServesByCompletion(s) ==> ClaimsInv(Apply(db, s))
  {
    hide Apply, ClaimsInv, CoreInv, VerifiersFit, LeasesInv, OutboxInv, SecretsFit, OneOpenPreview, ReceiptsInv;
    if ClaimsInv(db) && ServesByCompletion(s) {
      StepsKeepClaims(db, s);
    }
  }

  lemma {:induction false} RunKeepsClaims(states: seq<Database>, steps: seq<Step>, i: nat)
    requires IsRun(states, steps) && (forall k | 0 <= k < |steps| :: ServesByCompletion(steps[k])) && i < |states|
    ensures ClaimsInv(states[i])
  {
    hide Apply, ClaimsInv, CoreInv, VerifiersFit, LeasesInv, OutboxInv, SecretsFit;
    if i == 0 {
      EmptyTablesAreFine();
    } else {
      RunKeepsInv(states, steps, i - 1);
      RunKeepsClaims(states, steps, i - 1);
      StepsKeepClaims(states[i - 1], steps[i - 1]);
    }
  }

  /** An App that reports `ready` serves a ready deployment of its own, through completion, failure, expiry,
      rollback and OAuth failure alike. */
  lemma ReadyIsTruthful(states: seq<Database>, steps: seq<Step>, i: nat, a: Id)
    requires IsRun(states, steps) && (forall k | 0 <= k < |steps| :: ServesByCompletion(steps[k]))
    requires i < |states| && a in states[i].apps && states[i].apps[a].status.StatusReady?
    ensures states[i].apps[a].current.Some?
    ensures var c := states[i].apps[a].current.value;
      c in states[i].deployments && states[i].deployments[c].app == a && states[i].deployments[c].phase.Ready?
  {
    hide Apply;
    RunKeepsInv(states, steps, i);
    RunKeepsClaims(states, steps, i);
    assert ReadyIsReady(states[i].apps[a], states[i].deployments);
  }

  /** A failing claim attempt never takes the `else 'ready'` arm: its deployment is current while its generation is. */
  lemma ClaimFailureNeverReportsReady(states: seq<Database>, steps: seq<Step>, i: nat, o: Id)
    requires IsRun(states, steps) && (forall k | 0 <= k < |steps| :: ServesByCompletion(steps[k]))
    requires i < |states| && o in states[i].oauth && states[i].oauth[o].preview.Some?
    requires var w := states[i].oauth[o]; w.app in states[i].apps && states[i].apps[w.app].generation == w.generation
    ensures var w := states[i].oauth[o];
      && states[i].apps[w.app].current == Some(w.deployment)
      && StatusAfterOAuthFailure(states[i].apps[w.app], w.deployment).StatusFailed?
  {
    hide Apply;
    RunKeepsClaims(states, steps, i);
    var w := states[i].oauth[o];
    assert ClaimHolds(states[i].apps, states[i].deployments, w.app, w.deployment, w.generation);
  }

  // ----- OAuth attempts and previews -----

  lemma {:induction false} AttemptsNeverGoBack(states: seq<Database>, steps: seq<Step>, i: nat, j: nat, o: Id)
    requires IsRun(states, steps) && i <= j < |states| && o in states[i].oauth
    ensures o in states[j].oauth
    ensures states[j].oauth[o].status.OAuthPending? ==> states[j].oauth[o] == states[i].oauth[o]
    decreases j - i
  {
    hide Inv, Apply, TokensEvolve, OutboxEvolves, CoreEvolves;
    if i < j {
      RunEvolves(states, steps, i);
      AttemptsNeverGoBack(states, steps, i + 1, j, o);
    }
  }

  /** Step `i` hands the attempt's verifier to the code exchange. */
  ghost predicate Exchanges(states: seq<Database>, i: nat, o: Id) {
    && i + 1 < |states|
    && o in states[i].oauth && !states[i].oauth[o].status.Exchanging?
    && o in states[i + 1].oauth && states[i + 1].oauth[o].status.Exchanging?
  }

  /** Each OAuth state reaches code exchange at most once, whatever finish, cancel and cleanup do. */
  lemma ExchangedAtMostOnce(states: seq<Database>, steps: seq<Step>, i: nat, j: nat, o: Id)
    requires IsRun(states, steps) && Exchanges(states, i, o) && Exchanges(states, j, o)
    ensures i == j
  {
    hide Apply, Inv, TokensEvolve, OutboxEvolves, CoreEvolves;
    RunEvolves(states, steps, i);
    RunEvolves(states, steps, j);
    assert AttemptEvolves(states[i].oauth[o], states[i + 1].oauth[o]);
    assert AttemptEvolves(states[j].oauth[o], states[j + 1].oauth[o]);
    if i < j {
      AttemptsNeverGoBack(states, steps, i + 1, j, o);
    } else if j < i {
      AttemptsNeverGoBack(states, steps, j + 1, i, o);
    }
  }

  /** Whatever provisioning calls overlap, an App never has two previews that are provisioning, ready or claiming. */
  lemma NeverTwoOpenPreviews(states: seq<Database>, steps: seq<Step>, i: nat, p: Id, q: Id)
    requires IsRun(states, steps) && i < |states| && p in states[i].previews && q in states[i].previews
    requires OpenPreview(states[i].previews[p]) && OpenPreview(states[i].previews[q])
    requires states[i].previews[p].app == states[i].previews[q].app
    ensures p == q
  {
    hide CoreInv, LeasesInv, OutboxInv, ReceiptsInv, SecretsFit, Apply;
    RunKeepsInv(states, steps, i);
  }

  /** In every reachable state secrets are stored exactly while they may still be used. */
  lemma SecretsExactlyWhileUsable(states: seq<Database>, steps: seq<Step>, i: nat)
    requires IsRun(states, steps) && i < |states|
    ensures forall o | o in states[i].oauth ::
      states[i].oauth[o].verifier.Some? <==> states[i].oauth[o].status.OAuthPending?
    ensures forall p | p in states[i].previews ::
      states[i].previews[p].secrets.Some? <==> ActivePreview(states[i].previews[p])
  {
    hide CoreInv, LeasesInv, OutboxInv, Apply;
    RunKeepsInv(states, steps, i);
  }

  // ----- outbox -----

  /** Completed and failed rows are final, and a row always names the deployment it was enqueued for. */
  lemma {:induction false} SettledRowsStaySettled(states: seq<Database>, steps: seq<Step>, i: nat, j: nat, o: Id)
    requires IsRun(states, steps) && i <= j < |states| && o in states[i].outbox
    ensures o in states[j].outbox
    ensures Settled(states[i].outbox[o].state) ==> states[j].outbox[o].state == states[i].outbox[o].state
    ensures states[j].outbox[o].deployment == states[i].outbox[o].deployment
    ensures states[j].outbox[o].generation == states[i].outbox[o].generation
    decreases j - i
  {
    hide Inv, Apply, TokensEvolve, CoreEvolves, AttemptsEvolve, RowIsCurrent;
    if i < j {
      RunEvolves(states, steps, i);
      assert OutboxRowEvolves(states[i], states[i].outbox[o], states[i + 1].outbox[o]);
      SettledRowsStaySettled(states, steps, i + 1, j, o);
    }
  }

  /** A row completes only at an instant when its generation is its App's. */
  lemma CompletesOnlyWhenCurrent(states: seq<Database>, steps: seq<Step>, i: nat, o: Id)
    requires IsRun(states, steps) && i < |steps| && o in states[i].outbox
    requires !states[i].outbox[o].state.Completed?
    requires o in states[i + 1].outbox && states[i + 1].outbox[o].state.Completed?
    ensures var r := states[i].outbox[o];
      r.app in states[i].apps && states[i].apps[r.app].generation == r.generation
  {
    hide Inv, Apply, TokensEvolve, CoreEvolves, AttemptsEvolve;
    RunEvolves(states, steps, i);
    assert OutboxRowEvolves(states[i], states[i].outbox[o], states[i + 1].outbox[o]);
  }

  ghost predicate Returns(states: seq<Database>, i: nat, o: Id) {
    && i + 1 < |states|
    && o in states[i].outbox && states[i].outbox[o].state.Leased?
    && o in states[i + 1].outbox && states[i + 1].outbox[o].state.Pending?
  }

  /** How many of the first `n` steps put the row back to pending. */
  ghost function ReturnCount(states: seq<Database>, n: nat, o: Id): nat {
    if n == 0 then 0 else ReturnCount(states, n - 1, o) + if Returns(states, n - 1, o) then 1 else 0
  }

  lemma {:induction false} ReturnsArePaidByAttempts(states: seq<Database>, steps: seq<Step>, n: nat, o: Id)
    requires IsRun(states, steps) && n < |states|
    ensures ReturnCount(states, n, o) <= 9
    ensures o !in states[n].outbox ==> ReturnCount(states, n, o) == 0
    ensures o in states[n].outbox && states[n].outbox[o].state.Pending? ==>
              ReturnCount(states, n, o) <= states[n].outbox[o].attempts
    ensures o in states[n].outbox && states[n].outbox[o].state.Leased? ==>
              ReturnCount(states, n, o) < states[n].outbox[o].attempts
  {
    hide CoreInv, LeasesInv, VerifiersFit, SecretsFit, Apply, TokensEvolve, CoreEvolves, AttemptsEvolve,
        RowIsCurrent, SharesKey;
    if n > 0 {
      ReturnsArePaidByAttempts(states, steps, n - 1, o);
      RunEvolves(states, steps, n - 1);
      if o in states[n - 1].outbox {
        assert OutboxRowEvolves(states[n - 1], states[n - 1].outbox[o], states[n].outbox[o]);
      }
      if o in states[n].outbox {
        assert RowFits(states[n].deployments, states[n].outbox[o]);
      }
    }
  }

  /** A row goes back to pending at most nine times, however often it is claimed or its lease runs out. */
  lemma ReturnsToPendingAtMostNineTimes(states: seq<Database>, steps: seq<Step>, o: Id)
    requires IsRun(states, steps)
    ensures ReturnCount(states, |steps|, o) <= 9
  {
    hide Apply;
    ReturnsArePaidByAttempts(states, steps, |steps|, o);
  }
}
