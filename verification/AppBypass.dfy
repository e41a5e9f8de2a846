/**
 Why a preview must be served by completion.  The transition table also lets a lease holder move a
 deployment from deploying to temporary_ready; then it is served without being current, and when
 its claim fails the App reports `ready` although what it serves is not.
 */
module AppBypass {
  import opened Options
  import opened AppTables
  import opened AppSteps

  const CLAIM := OAuthDraft(0, 1, 2, Some(9))

  const STEPS: seq<Step> := [
    Control(DoBegin(Publish(0, true, 0, 10, 0, 0, None, None))),
    Previewing(DoInsertPreview(9, 0)),
    Previewing(DoProvisioned(9, 30, 31, 1_000)),
    Targeting(DoSelect(0, Temporary(9), 0)),
    Leasing(DoAcquire(0, 3, 1, 300_000, 7)),
    Control(DoMarkDeploying(0, 0, 1, 7)),
    Control(DoComplete(0, 0, 1, 7, true, 40, 41)),
    Control(DoBegin(Publish(0, false, 1, 11, 0, 0, None, None))),
    Targeting(DoSelect(1, Temporary(9), 1)),
    Leasing(DoAcquire(0, 3, 2, 300_000, 8)),
    Control(DoMarkDeploying(0, 1, 2, 8)),
    Targeting(DoTransition(1, 2, 8, Deploying, TemporaryReady)),
    Previewing(DoOpenClaim(9, 1)),
    Connecting(DoAwait(CLAIM)),
    Connecting(DoInsertAttempt(CLAIM, 20, 50)),
    Connecting(DoConsume(20)),
    Connecting(DoFailAttempt(20))]

  // ----- the states of the run, one after the other -----

  function AppRow(g: nat, s: Status, current: Option<Id>, target: Target): (m: map<Id, App>) {
    map[0 := App(g, s, current, target, 0, 0)]
  }

  function FirstRow(p: Phase, target: Target, artifact: Option<Id>, v: Option<Id>): (r: Deployment) {
    Deployment(0, 1, 1, 10, None, 0, 0, p, target, artifact, v)
  }

  function SecondRow(p: Phase, target: Target): (r: Deployment) {
    Deployment(0, 2, 2, 11, None, 0, 0, p, target, None, None)
  }

  const SERVED := FirstRow(TemporaryReady, Temporary(9), Some(40), Some(41))

  const S1 := EMPTY.(apps := AppRow(1, NeedsAction, None, Unassigned),
                     deployments := map[0 := FirstRow(AwaitingTarget, Unassigned, None, None)])
  const S2 := S1.(previews := map[9 := PreviewRow(0, PreviewProvisioning, None, None, 0, None)])
  const S3 := S2.(previews := map[9 := PreviewRow(0, PreviewReady, Some(30), Some(31), 0, Some(1_000))])
  const S4 := S3.(apps := AppRow(1, NeedsAction, None, Temporary(9)),
                  deployments := map[0 := FirstRow(Queued, Temporary(9), None, None)],
                  outbox := map[0 := OutboxRow(0, Deploy, 10, 1, 0, Temporary(9), Pending, 0, 0)])
  const S5 := S4.(leases := map[0 := Lease(7, 3, 1, 300_000)], issued := {7})
  const S6 := S5.(apps := AppRow(1, StatusDeploying, None, Temporary(9)),
                  deployments := map[0 := FirstRow(Deploying, Temporary(9), None, None)])
  const S7 := S6.(apps := AppRow(1, Preview, Some(0), Temporary(9)), deployments := map[0 := SERVED])
  const S8 := S7.(apps := AppRow(2, NeedsAction, Some(0), Temporary(9)),
                  deployments := map[0 := SERVED, 1 := SecondRow(AwaitingTarget, Unassigned)])
  const S9 := S8.(deployments := map[0 := SERVED, 1 := SecondRow(Queued, Temporary(9))],
                  outbox := map[0 := OutboxRow(0, Deploy, 10, 1, 0, Temporary(9), Pending, 0, 0),
                                1 := OutboxRow(0, Deploy, 11, 2, 1, Temporary(9), Pending, 0, 0)])
  const S10 := S9.(leases := map[0 := Lease(8, 3, 2, 300_000)], issued := {7, 8})
  const S11 := S10.(apps := AppRow(2, StatusDeploying, Some(0), Temporary(9)),
                    deployments := map[0 := SERVED, 1 := SecondRow(Deploying, Temporary(9))])
  const S12 := S11.(deployments := map[0 := SERVED, 1 := SecondRow(TemporaryReady, Temporary(9))])
  const S13 := S12.(deployments := map[0 := SERVED, 1 := SecondRow(ClaimPending, Temporary(9))],
                    previews := map[9 := PreviewRow(0, Claiming, Some(30), Some(31), 0, Some(1_000))])
  const S14 := S13.(drafts := {CLAIM})
  const S15 := S14.(drafts := {}, oauth := map[20 := OAuthRow(0, 1, 2, Some(9), OAuthPending, Some(50), 600_000)])
  const S16 := S15.(oauth := map[20 := OAuthRow(0, 1, 2, Some(9), Exchanging, None, 600_000)])
  const S17 := S16.(oauth := map[20 := OAuthRow(0, 1, 2, Some(9), OAuthFailed, None, 600_000)],
                    deployments := map[0 := SERVED, 1 := SecondRow(Failed, Temporary(9))],
                    apps := AppRow(2, StatusReady, Some(0), Temporary(9)))

  lemma VersionsAreOneAndTwo()
    ensures NextVersion(EMPTY, 0) == 1 && NextVersion(S7, 0) == 2
  {
    assert VersionsOf(EMPTY, 0) == {};
    assert S7.deployments == map[0 := SERVED];
    assert VersionsOf(S7, 0) == {1} by { assert 0 in S7.deployments && S7.deployments[0].version == 1; }
    assert MaxOf({1}) in {1};
  }

  lemma Step0()
    ensures Try(EMPTY, STEPS[0]) == Some(S1)
  {
    VersionsAreOneAndTwo();
    hide NextVersion;
    assert !KeyUsed(EMPTY, 0, 10);
    var r := Try(EMPTY, STEPS[0]).value;
    assert r.apps == S1.apps && r.deployments == S1.deployments;
  }

  lemma Step1()
    ensures Try(S1, STEPS[1]) == Some(S2)
  {
    var r := Try(S1, STEPS[1]).value;
    assert r.previews == S2.previews;
  }

  lemma Step2()
    ensures Try(S2, STEPS[2]) == Some(S3)
  {
    var r := Try(S2, STEPS[2]).value;
    assert r.previews == S3.previews;
  }

  lemma Step3()
    ensures Try(S3, STEPS[3]) == Some(S4)
  {
    var r := Try(S3, STEPS[3]).value;
    assert r.apps == S4.apps && r.deployments == S4.deployments && r.outbox == S4.outbox;
  }

  lemma Step4()
    ensures Try(S4, STEPS[4]) == Some(S5)
  {
    var r := Try(S4, STEPS[4]).value;
    assert r.leases == S5.leases && r.issued == S5.issued;
  }

  lemma Step5()
    ensures Try(S5, STEPS[5]) == Some(S6)
  {
    var r := Try(S5, STEPS[5]).value;
    assert r.apps == S6.apps && r.deployments == S6.deployments;
  }

  lemma Step6()
    ensures Try(S6, STEPS[6]) == Some(S7)
  {
    var r := Try(S6, STEPS[6]).value;
    assert r.apps == S7.apps && r.deployments == S7.deployments;
  }

  lemma Step7()
    ensures Try(S7, STEPS[7]) == Some(S8)
  {
    VersionsAreOneAndTwo();
    hide NextVersion;
    assert !KeyUsed(S7, 0, 11);
    var r := Try(S7, STEPS[7]).value;
    assert r.apps == S8.apps && r.deployments == S8.deployments;
  }

  lemma Step8()
    ensures Try(S8, STEPS[8]) == Some(S9)
  {
    var r := Try(S8, STEPS[8]).value;
    assert r.apps == S9.apps && r.deployments == S9.deployments && r.outbox == S9.outbox;
  }

  lemma Step9()
    ensures Try(S9, STEPS[9]) == Some(S10)
  {
    var r := Try(S9, STEPS[9]).value;
    assert r.leases == S10.leases && r.issued == S10.issued;
  }

  lemma Step10()
    ensures Try(S10, STEPS[10]) == Some(S11)
  {
    var r := Try(S10, STEPS[10]).value;
    assert r.apps == S11.apps && r.deployments == S11.deployments;
  }

  lemma Step11()
    ensures Try(S11, STEPS[11]) == Some(S12)
  {
    var r := Try(S11, STEPS[11]).value;
    assert r.deployments == S12.deployments;
  }

  lemma Step12()
    ensures Try(S12, STEPS[12]) == Some(S13)
  {
    assert ClaimRow(S12, 9, 1) by { assert ClaimCandidate(S12, 9, 1) && !ClaimCandidate(S12, 9, 0); }
    var r := Try(S12, STEPS[12]).value;
    assert r.deployments == S13.deployments && r.previews == S13.previews;
  }

  lemma Step13()
    ensures Try(S13, STEPS[13]) == Some(S14)
  {
    var r := Try(S13, STEPS[13]).value;
    assert r.drafts == S14.drafts;
  }

  lemma Step14()
    ensures Try(S14, STEPS[14]) == Some(S15)
  {
    var r := Try(S14, STEPS[14]).value;
    assert r.drafts == S15.drafts && r.oauth == S15.oauth;
  }

  lemma Step15()
    ensures Try(S15, STEPS[15]) == Some(S16)
  {
    var r := Try(S15, STEPS[15]).value;
    assert r.oauth == S16.oauth;
  }

  lemma Step16()
    ensures Try(S16, STEPS[16]) == Some(S17)
  {
    var r := Try(S16, STEPS[16]).value;
    assert r.oauth == S17.oauth && r.deployments == S17.deployments && r.apps == S17.apps;
  }

  /** A reachable state in which the App reports `ready` and serves a deployment that is not ready: all steps of the
      run but the transition serve by completion. */
  lemma BypassReportsReadyFalsely() returns (states: seq<Database>)
    ensures IsRun(states, STEPS) && |states| == 18
    ensures forall k | 0 <= k < |STEPS| :: ServesByCompletion(STEPS[k]) <==> k != 11
    ensures 0 in states[17].apps && states[17].apps[0].status.StatusReady? && states[17].apps[0].current == Some(0)
    ensures 0 in states[17].deployments && states[17].deployments[0].phase.TemporaryReady?
  {
    Step0(); Step1(); Step2(); Step3(); Step4(); Step5(); Step6(); Step7(); Step8();
    Step9(); Step10(); Step11(); Step12(); Step13(); Step14(); Step15(); Step16();
    hide Try;
    states := [EMPTY, S1, S2, S3, S4, S5, S6, S7, S8, S9, S10, S11, S12, S13, S14, S15, S16, S17];
  }
}
