/**
 OAuth attempts and temporary previews: which secrets are stored when, and in which order
 an attempt moves.
 */
module AppAttempts {
  import opened Options
  import opened AppTables
  import opened AppSteps
  import opened AppFrames

  type Attempts = map<Id, OAuthRow>
  type Previews = map<Id, PreviewRow>

  /** A PKCE verifier is stored exactly while its attempt is pending. */
  ghost predicate VerifiersFit(oauth: Attempts) {
    forall o | o in oauth :: oauth[o].verifier.Some? <==> oauth[o].status.OAuthPending?
  }

  /** A preview's credential and claim secrets are stored exactly while it is ready or claiming. */
  ghost predicate SecretsFit(previews: Previews) {
    forall p | p in previews :: previews[p].secrets.Some? <==> ActivePreview(previews[p])
  }

  predicate OpenPreview(p: PreviewRow) {
    p.status.PreviewProvisioning? || ActivePreview(p)
  }

  /** An App has at most one preview that is provisioning, ready or claiming. */
  ghost predicate OneOpenPreview(previews: Previews) {
    forall p, q | p in previews && q in previews && OpenPreview(previews[p]) && OpenPreview(previews[q])
      && previews[p].app == previews[q].app :: p == q
  }

  /** Consumption is one way: only a pending attempt can start exchanging, and none becomes pending again. */
  predicate AttemptEvolves(w: OAuthRow, w': OAuthRow) {
    && w'.app == w.app && w'.deployment == w.deployment && w'.generation == w.generation && w'.preview == w.preview
    && (w'.status.OAuthPending? ==> w == w')
    && (w'.status.Exchanging? ==> w.status.OAuthPending? || w.status.Exchanging?)
  }

  ghost predicate AttemptsEvolve(oauth: Attempts, oauth': Attempts) {
    forall o | o in oauth :: o in oauth' && AttemptEvolves(oauth[o], oauth'[o])
  }

  ghost predicate AttemptsKept(oauth: Attempts, oauth': Attempts) {
    VerifiersFit(oauth') && AttemptsEvolve(oauth, oauth')
  }

  lemma AttemptsStay(oauth: Attempts)
    requires VerifiersFit(oauth)
    ensures AttemptsKept(oauth, oauth)
  {
  }

  lemma SettleKeepsAttempts(oauth: Attempts, o: Id, s: OAuthStatus)
    requires VerifiersFit(oauth) && o in oauth && !s.OAuthPending?
    requires s.Exchanging? ==> oauth[o].status.OAuthPending?
    ensures AttemptsKept(oauth, Settle(oauth, o, s))
  {
  }

  lemma OAuthStepKeepsAttempts(db: Database, s: OAuthStep)
    requires VerifiersFit(db.oauth)
    ensures TryOAuth(db, s).Some? ==> AttemptsKept(db.oauth, TryOAuth(db, s).value.oauth)
  {
    hide AttemptsKept, Settle, AtGeneration, Enqueue, AccountMatches, FailClaimRow, FailClaimApp, WithPhase, WithStatus;
    AttemptsStay(db.oauth);
    match s
    case DoAwait(_) =>
    case DoInsertAttempt(w, o, verifier) => InsertKeepsAttempts(db, w, o, verifier);
    case DoExpireAttempts => ExpireKeepsAttempts(db);
    case _ =>
      if s.attempt in db.oauth {
        var o := s.attempt;
        SettleKeepsAttempts(db.oauth, o, OAuthExpired);
        SettleKeepsAttempts(db.oauth, o, OAuthFailed);
        SettleKeepsAttempts(db.oauth, o, OAuthCompleted);
        if db.oauth[o].status.OAuthPending? {
          SettleKeepsAttempts(db.oauth, o, Exchanging);
        }
      }
  }

  lemma InsertKeepsAttempts(db: Database, w: OAuthDraft, o: Id, verifier: Id)
    requires VerifiersFit(db.oauth)
    ensures InsertOAuth(db, w, o, verifier).Some? ==>
              AttemptsKept(db.oauth, InsertOAuth(db, w, o, verifier).value.oauth)
  {
  }

  lemma ExpireKeepsAttempts(db: Database)
    requires VerifiersFit(db.oauth)
    ensures AttemptsKept(db.oauth, ExpireOAuth(db).oauth)
  {
  }

  lemma StepsKeepAttempts(db: Database, s: Step)
    requires VerifiersFit(db.oauth)
    ensures AttemptsKept(db.oauth, Apply(db, s).oauth)
  {
    hide AttemptsKept, VerifiersFit;
    hide TryControl, TryLease, TryOutbox, TryPreview, TryOAuth, TryTarget, TryReceipt;
    AttemptsStay(db.oauth);
    match s
    case Tick(_) =>
    case Control(c) => ControlFrame(db, c);
    case Leasing(l) => LeaseFrame(db, l);
    case Queueing(q) => OutboxFrame(db, q);
    case Previewing(p) => PreviewFrame(db, p);
    case Connecting(c) => OAuthStepKeepsAttempts(db, c);
    case Targeting(t) => TargetFrame(db, t);
    case Recording(r) => ReceiptFrame(db, r);
  }

  lemma PreviewStepKeepsSecrets(db: Database, s: PreviewStep)
    requires SecretsFit(db.previews)
    ensures TryPreview(db, s).Some? ==> SecretsFit(TryPreview(db, s).value.previews)
  {
    hide OtherOpenPreview, PreviewReferenced, SweptDeployment, SweptApp, ClaimRow, AtGeneration, WithPhase;
  }

  lemma OAuthStepKeepsSecrets(db: Database, s: OAuthStep)
    requires SecretsFit(db.previews)
    ensures TryOAuth(db, s).Some? ==> SecretsFit(TryOAuth(db, s).value.previews)
  {
    hide Settle, AtGeneration, Enqueue, FailClaimRow, FailClaimApp, WithPhase, WithStatus;
  }

  lemma StepsKeepSecrets(db: Database, s: Step)
    requires SecretsFit(db.previews)
    ensures SecretsFit(Apply(db, s).previews)
  {
    hide SecretsFit;
    hide TryControl, TryLease, TryOutbox, TryPreview, TryOAuth, TryTarget, TryReceipt;
    match s
    case Tick(_) =>
    case Control(c) => ControlFrame(db, c);
    case Leasing(l) => LeaseFrame(db, l);
    case Queueing(q) => OutboxFrame(db, q);
    case Previewing(p) => PreviewStepKeepsSecrets(db, p);
    case Connecting(c) => OAuthStepKeepsSecrets(db, c);
    case Targeting(t) => TargetFrame(db, t);
    case Recording(r) => ReceiptFrame(db, r);
  }

  /** Rows that only close, or stay as open as they were, keep the rule; so does one that opens with no other open. */
  lemma ClosingKeepsOneOpen(previews: Previews, previews': Previews)
    requires OneOpenPreview(previews) && previews'.Keys == previews.Keys
    requires forall p | p in previews ::
      previews'[p].app == previews[p].app && (OpenPreview(previews'[p]) ==> OpenPreview(previews[p]))
    ensures OneOpenPreview(previews')
  {
  }

  lemma OpeningKeepsOneOpen(db: Database, p: Id, row: PreviewRow)
    requires OneOpenPreview(db.previews) && !OtherOpenPreview(db, row.app, p)
    ensures OneOpenPreview(db.previews[p := row])
  {
  }

  lemma PreviewStepKeepsOneOpen(db: Database, s: PreviewStep)
    requires OneOpenPreview(db.previews)
    ensures TryPreview(db, s).Some? ==> OneOpenPreview(TryPreview(db, s).value.previews)
  {
    hide OneOpenPreview, OtherOpenPreview, PreviewReferenced, SweptDeployment, SweptApp, ClaimRow, AtGeneration,
        WithPhase;
    var r := TryPreview(db, s);
    if r.Some? {
      match s
      case DoInsertPreview(p, _) => OpeningKeepsOneOpen(db, p, r.value.previews[p]);
      case DoProvisioned(p, _, _, _) => OpeningKeepsOneOpen(db, p, r.value.previews[p]);
      case _ => ClosingKeepsOneOpen(db.previews, r.value.previews);
    }
  }

  lemma OAuthStepKeepsOneOpen(db: Database, s: OAuthStep)
    requires OneOpenPreview(db.previews)
    ensures TryOAuth(db, s).Some? ==> OneOpenPreview(TryOAuth(db, s).value.previews)
  {
    hide OneOpenPreview, Settle, AtGeneration, Enqueue, FailClaimRow, FailClaimApp, WithPhase, WithStatus;
    var r := TryOAuth(db, s);
    if r.Some? {
      ClosingKeepsOneOpen(db.previews, r.value.previews);
    }
  }

  lemma StepsKeepOneOpen(db: Database, s: Step)
    requires OneOpenPreview(db.previews)
    ensures OneOpenPreview(Apply(db, s).previews)
  {
    hide OneOpenPreview;
    hide TryControl, TryLease, TryOutbox, TryPreview, TryOAuth, TryTarget, TryReceipt;
    match s
    case Tick(_) =>
    case Control(c) => ControlFrame(db, c);
    case Leasing(l) => LeaseFrame(db, l);
    case Queueing(q) => OutboxFrame(db, q);
    case Previewing(p) => PreviewStepKeepsOneOpen(db, p);
    case Connecting(c) => OAuthStepKeepsOneOpen(db, c);
    case Targeting(t) => TargetFrame(db, t);
    case Recording(r) => ReceiptFrame(db, r);
  }
}
