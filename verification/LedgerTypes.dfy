/** Rows of the job ledger tables (db/migrations/0003_job_ledger.sql, 0004). */
module LedgerTypes {
  import opened Basics

  /** Canonical text of a uuid: 36 characters, dashes at fixed positions. */
  type Uuid = s: string | |s| == 36 witness seq(36, _ => '0')
  type JobId = Uuid
  type Token = Uuid

  /** A flat jsonb object; the value is what `->>` yields. */
  type Json = map<string, string>

  /** timestamptz as microseconds. */
  type Time = int
  const SECOND: int := 1_000_000

  datatype Status =
    | Queued | Leased | Running | WaitingApproval | RetryWait | ReconciliationRequired
    | Succeeded | Failed | Denied | Cancelled | DeadLetter

  datatype Risk = L0 | L1 | L2 | L3
  datatype Classification = PUBLIC | INTERNAL | CONFIDENTIAL | SECRET
  datatype Decision = Allow | ApprovalRequired | Deny
  datatype EffectState = EffectStarted | EffectCommitted

  /** The columns protected by the jobs_immutable_definition trigger, except
      created_at, which has its own field in JobRow. */
  datatype Definition = Definition(
    kind: string, idempotencyKey: string, payload: Json, sideEffecting: bool,
    risk: Risk, action: string, classification: Classification, maxAttempts: int)

  datatype JobRow = JobRow(
    def: Definition, priority: int, createdAt: Time,
    status: Status, attemptCount: int, leaseCount: int, nextEligibleAt: Time,
    leaseOwner: Option<string>, leaseToken: Option<Token>, leaseExpiresAt: Option<Time>,
    result: Option<Json>, lastErrorCode: Option<string>, lastErrorSummary: Option<string>,
    updatedAt: Time, terminalAt: Option<Time>)

  datatype Attempt = Attempt(
    number: int, workerId: string, token: Token, leasedAt: Time, initialLeaseExpiresAt: Time)

  datatype GateEvidence = GateEvidence(
    requestSha256: string, policySha256: string, auditEventId: Uuid, reason: string)

  datatype GateDecision = GateDecision(decision: Decision, evidence: GateEvidence, recordedAt: Time)

  /** `attempt` is the position of the owning row among the job's attempts. */
  datatype Effect = Effect(
    attempt: nat, state: EffectState, startedAt: Time, committedAt: Option<Time>, receipt: Option<string>)

  /** event_type together with the details column. */
  datatype EventKind =
    | EvSubmitted(idempotencyKey: string)
    | EvLeased(expiresAt: Time, leaseSequence: int, budgetConsumed: int, maxAttempts: int)
    | EvGateAllowed(evidence: GateEvidence)
    | EvWaitingApproval(evidence: GateEvidence)
    | EvGateDenied(evidence: GateEvidence)
    | EvStarted
    | EvEffectStarted(key: string)
    | EvEffectCommitted(key: string, receipt: Option<string>)
    | EvSucceeded(result: Json)
    | EvAttemptFailed(code: string, summary: string, retryable: bool)
    | EvLeaseExpired(budgetConsumed: int, leaseSequence: int)
    | EvCancelled(reason: string)

  /** from_status is free text: lease events store 'queued_or_retry_wait'. */
  datatype FromStatus = Known(status: Status) | QueuedOrRetryWait

  datatype Event = Event(
    attempt: Option<nat>, kind: EventKind, from: Option<FromStatus>, to: Status, actor: string, at: Time)

  /** Everything the tables hold about one job. Attempts and events are in
      insertion order; gate rows are keyed by attempt (UNIQUE (attempt_id)). */
  datatype JobRecord = JobRecord(
    row: JobRow, attempts: seq<Attempt>, gates: map<nat, GateDecision>,
    effects: map<string, Effect>, events: seq<Event>)

  /** Calls that carry a lease token. */
  datatype Call =
    | RecordGate(decision: Decision, evidence: GateEvidence, actor: string)
    | Start(actor: string)
    | Heartbeat(seconds: int)
    | BeginEffect(key: string, actor: string)
    | CommitEffect(key: string, receipt: Option<string>, actor: string)
    | Complete(result: Option<Json>, actor: string)
    | Fail(code: string, summary: string, retryable: bool, delaySeconds: int, actor: string)

  /** `Raised`: the function raised, so its transaction rolled back. */
  datatype Reply =
    | Raised
    | GateStatus(status: Status)
    | StartOk
    | LeaseUntil(expiresAt: Time)
    | EffectIs(state: EffectState)
    | CommitOk
    | CompleteOk
    | FailedTo(status: Status)

  datatype Answer = Answer(rec: JobRecord, reply: Reply)

  predicate Terminal(s: Status) {
    s in {Succeeded, Failed, Denied, Cancelled, DeadLetter}
  }

  predicate Holding(s: Status) {
    s in {Leased, Running}
  }
}
