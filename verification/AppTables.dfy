/**
 Rows of the shared Postgres tables that App deployment steps read and write.
 Identifiers, lease tokens, idempotency keys and secrets are opaque values compared
 only for equality, so they are numbers here.  The `Database` value is one snapshot
 of all tables together with the clock; it has no ghost parts.
 */
module AppTables {
  import opened Options

  type Id = nat
  type Token = nat
  type Time = nat

  datatype Phase =
    | Building | AwaitingTarget | AwaitingOAuth | Queued | Provisioning | Deploying
    | TemporaryReady | ClaimPending | VerifyingClaim
    | Ready | Expired | Failed | Cancelled

  datatype Status = StatusBuilding | NeedsAction | StatusDeploying | Preview | StatusReady | StatusFailed | Archived

  /** The target columns; their check constraint admits exactly these combinations. */
  datatype Target = Unassigned | Temporary(preview: Id) | Byoc(connection: Id)

  datatype App = App(
    generation: nat,
    status: Status,
    current: Option<Id>,
    target: Target,
    session: Id,
    sessionGeneration: nat)

  datatype Deployment = Deployment(
    app: Id,
    version: nat,
    generation: nat,
    key: Id,
    rollbackOf: Option<Id>,
    session: Id,
    sessionGeneration: nat,
    phase: Phase,
    target: Target,
    artifact: Option<Id>,
    providerVersion: Option<Id>)

  datatype Lease = Lease(token: Token, holder: Id, generation: nat, expiresAt: Time)

  datatype Operation = Deploy | Rollback

  datatype OutboxState = Pending | Leased(owner: Id, until: Time) | Completed | OutboxFailed

  datatype OutboxRow = OutboxRow(
    app: Id,
    operation: Operation,
    key: Id,
    generation: nat,
    deployment: Id,
    target: Target,
    state: OutboxState,
    attempts: nat,
    availableAt: Time)

  datatype OAuthStatus = OAuthPending | Exchanging | OAuthCompleted | OAuthFailed | OAuthExpired

  /** `preview` is set exactly for claim attempts; a direct attempt has none. */
  datatype OAuthRow = OAuthRow(
    app: Id,
    deployment: Id,
    generation: nat,
    preview: Option<Id>,
    status: OAuthStatus,
    verifier: Option<Id>,
    expiresAt: Time)

  datatype PreviewStatus = PreviewProvisioning | PreviewReady | Claiming | Claimed | PreviewExpired | PreviewFailed

  /** `secrets` stands for the credential and claim envelopes, which are always set and cleared together. */
  datatype PreviewRow = PreviewRow(
    app: Id,
    status: PreviewStatus,
    account: Option<Id>,
    secrets: Option<Id>,
    createdAt: Time,
    expiresAt: Option<Time>)

  /** A startOAuth call between its phase update and its insert of the OAuth row. */
  datatype OAuthDraft = OAuthDraft(app: Id, deployment: Id, generation: nat, preview: Option<Id>)

  /** Worker and assets are the only kinds a temporary preview may have; the others are bindings. */
  datatype ResourceKind = WorkerKind | AssetsKind | BindingKind(binding: Id)

  datatype ReceiptKey = ReceiptKey(deployment: Id, kind: ResourceKind, logical: Id)

  /** `created` tells created resources from adopted ones. */
  datatype ReceiptRow = ReceiptRow(created: bool, stepStatus: Id)

  /** A recordResourceReceipt call between its SELECT and its upsert, and whether the upsert has happened. */
  datatype ReceiptCall = ReceiptCall(
    app: Id, generation: nat, token: Token, at: ReceiptKey, row: ReceiptRow, done: bool)

  /** The table app_resource_receipts and the calls under way on it. */
  datatype Receipts = Receipts(rows: map<ReceiptKey, ReceiptRow>, calls: map<Id, ReceiptCall>)

  datatype Database = Database(
    now: Time,
    apps: map<Id, App>,
    deployments: map<Id, Deployment>,
    leases: map<Id, Lease>,
    issued: set<Token>,
    outbox: map<Id, OutboxRow>,
    drafts: set<OAuthDraft>,
    oauth: map<Id, OAuthRow>,
    previews: map<Id, PreviewRow>,
    receipts: Receipts)

  const EMPTY := Database(0, map[], map[], map[], {}, map[], {}, map[], map[], Receipts(map[], map[]))

  const MIN_LEASE_MS := 1_000
  const MAX_LEASE_MS := 300_000

  predicate Terminal(p: Phase) {
    p.Ready? || p.Expired? || p.Failed? || p.Cancelled?
  }

  predicate ActivePreview(p: PreviewRow) {
    p.status.PreviewReady? || p.status.Claiming?
  }

  /** requireActiveLease: an unexpired lease row of this App, generation and token. */
  predicate HoldsLease(db: Database, a: Id, g: nat, t: Token) {
    a in db.leases && db.leases[a].generation == g && db.leases[a].token == t && db.leases[a].expiresAt > db.now
  }

  /** The token that may currently act for the App, whatever its generation. */
  predicate Live(db: Database, a: Id, t: Token) {
    a in db.leases && db.leases[a].token == t && db.leases[a].expiresAt > db.now
  }
}
