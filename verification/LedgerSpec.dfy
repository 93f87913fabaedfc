/** What each ledger function does, first to the record of one job and then to
    the whole ledger. A call that raises leaves the record as it was. */
module LedgerSpec {
  import opened Basics
  import opened LedgerTypes

  // ---- column constraints a caller can trip over ----

  predicate ActorOk(actor: string) { 1 <= |actor| <= 128 }

  predicate IsLowerHex(s: string, n: nat) {
    |s| == n && forall i :: 0 <= i < n ==> '0' <= s[i] <= '9' || 'a' <= s[i] <= 'f'
  }

  predicate EvidenceOk(e: GateEvidence) {
    IsLowerHex(e.requestSha256, 64) && IsLowerHex(e.policySha256, 64) && 1 <= |e.reason| <= 512
  }

  predicate LeaseSecondsOk(seconds: int) { 15 <= seconds <= 3600 }

  predicate KindChar(c: char, first: bool) {
    'a' <= c <= 'z' || '0' <= c <= '9' || (!first && c in "_.-")
  }

  predicate KindOk(kind: string) {
    1 <= |kind| <= 128 && forall i :: 0 <= i < |kind| ==> KindChar(kind[i], i == 0)
  }

  predicate DefinitionOk(d: Definition) {
    KindOk(d.kind) && 1 <= |d.idempotencyKey| <= 256 && 1 <= |d.action| <= 128 && 1 <= d.maxAttempts <= 20
  }

  predicate WorkerOk(worker: string) {
    |worker| <= 128 && exists i :: 0 <= i < |worker| && worker[i] != ' '
  }

  function Left(text: string, n: nat): string {
    if |text| <= n then text else text[..n]
  }

  function Max(a: int, b: int): int { if a >= b then a else b }

  // ---- lookups ----

  predicate Live(now: Time, row: JobRow, t: Token) {
    row.leaseToken == Some(t) && row.leaseExpiresAt.Some? && now < row.leaseExpiresAt.value
  }

  /** SELECT attempt_id ... WHERE job_id = ? AND lease_token = ? */
  function FindAttempt(attempts: seq<Attempt>, t: Token): Option<nat> {
    if |attempts| == 0 then None
    else if attempts[|attempts| - 1].token == t then Some(|attempts| - 1)
    else FindAttempt(attempts[..|attempts| - 1], t)
  }

  predicate Allowed(r: JobRecord, a: Option<nat>) {
    a.Some? && a.value in r.gates && r.gates[a.value].decision == Allow
  }

  predicate HasEffect(r: JobRecord, a: Option<nat>) {
    exists k :: k in r.effects && Some(r.effects[k].attempt) == a
  }

  predicate HasUncommittedEffect(r: JobRecord, a: Option<nat>) {
    exists k :: k in r.effects && Some(r.effects[k].attempt) == a && r.effects[k].state != EffectCommitted
  }

  predicate Leasable(now: Time, row: JobRow) {
    row.status in {Queued, RetryWait} && row.nextEligibleAt <= now && row.attemptCount < row.def.maxAttempts
  }

  predicate Expired(now: Time, row: JobRow) {
    Holding(row.status) && row.leaseExpiresAt.Some? && row.leaseExpiresAt.value <= now
  }

  function Cleared(row: JobRow): JobRow {
    row.(leaseOwner := None, leaseToken := None, leaseExpiresAt := None)
  }

  function Logged(r: JobRecord, e: Event): JobRecord {
    r.(events := r.events + [e])
  }

  // ---- one job ----

  function NewRecord(now: Time, d: Definition, priority: int, notBefore: Time, actor: string): JobRecord {
    JobRecord(
      JobRow(d, priority, now, Queued, 0, 0, notBefore, None, None, None, None, None, None, now, None),
      [], map[], map[],
      [Event(None, EvSubmitted(d.idempotencyKey), None, Queued, actor, now)])
  }

  /** lease_next_job, once the job is chosen. The unique index on
      (job_id, lease_token) rejects a token this job has seen before. */
  function LeaseOn(now: Time, r: JobRecord, worker: string, seconds: int, t: Token): JobRecord {
    if !LeaseSecondsOk(seconds) || !WorkerOk(worker) || !Leasable(now, r.row) || FindAttempt(r.attempts, t).Some? then r
    else
      var expiry := now + seconds * SECOND;
      var row := r.row.(
        status := Leased, attemptCount := r.row.attemptCount + 1, leaseCount := r.row.leaseCount + 1,
        leaseOwner := Some(worker), leaseToken := Some(t), leaseExpiresAt := Some(expiry), updatedAt := now);
      var r1 := r.(row := row, attempts := r.attempts + [Attempt(row.leaseCount, worker, t, now, expiry)]);
      Logged(r1, Event(Some(|r.attempts|), EvLeased(expiry, row.leaseCount, row.attemptCount, row.def.maxAttempts),
                       Some(QueuedOrRetryWait), Leased, worker, now))
  }

  function RecordGateOn(now: Time, r: JobRecord, t: Token, d: Decision, e: GateEvidence, actor: string): Answer {
    var a := FindAttempt(r.attempts, t);
    if !EvidenceOk(e) || r.row.status != Leased || !Live(now, r.row, t) || a.None? || a.value in r.gates
        || !ActorOk(actor) then
      Answer(r, Raised)
    else
      var r1 := r.(gates := r.gates[a.value := GateDecision(d, e, now)]);
      match d
      case Allow =>
        Answer(Logged(r1, Event(a, EvGateAllowed(e), Some(Known(Leased)), Leased, actor, now)), GateStatus(Leased))
      case ApprovalRequired =>
        var row := Cleared(r.row).(
          status := WaitingApproval, attemptCount := Max(r.row.attemptCount - 1, 0), terminalAt := None,
          updatedAt := now);
        Answer(Logged(r1.(row := row),
                      Event(a, EvWaitingApproval(e), Some(Known(Leased)), WaitingApproval, actor, now)),
               GateStatus(WaitingApproval))
      case Deny =>
        var row := Cleared(r.row).(status := Denied, terminalAt := Some(now), updatedAt := now);
        Answer(Logged(r1.(row := row), Event(a, EvGateDenied(e), Some(Known(Leased)), Denied, actor, now)),
               GateStatus(Denied))
  }

  function StartOn(now: Time, r: JobRecord, t: Token, actor: string): Answer {
    var a := FindAttempt(r.attempts, t);
    if r.row.status != Leased || !Live(now, r.row, t) || (r.row.def.sideEffecting && !Allowed(r, a))
        || !ActorOk(actor) then
      Answer(r, Raised)
    else
      Answer(Logged(r.(row := r.row.(status := Running, updatedAt := now)),
                    Event(a, EvStarted, Some(Known(Leased)), Running, actor, now)), StartOk)
  }

  function HeartbeatOn(now: Time, r: JobRecord, t: Token, seconds: int): Answer {
    if !LeaseSecondsOk(seconds) || !Holding(r.row.status) || !Live(now, r.row, t) then Answer(r, Raised)
    else
      var expiry := now + seconds * SECOND;
      Answer(r.(row := r.row.(leaseExpiresAt := Some(expiry), updatedAt := now)), LeaseUntil(expiry))
  }

  /** `elsewhere`: the key is the primary key of an effect row of another job. */
  function BeginEffectOn(now: Time, r: JobRecord, elsewhere: bool, t: Token, key: string, actor: string): Answer {
    var a := FindAttempt(r.attempts, t);
    if r.row.status != Running || !Live(now, r.row, t) || !r.row.def.sideEffecting || !Allowed(r, a)
        || !(1 <= |key| <= 256) then
      Answer(r, Raised)
    else if key in r.effects then
      if r.effects[key].attempt == a.value then Answer(r, EffectIs(r.effects[key].state)) else Answer(r, Raised)
    else if elsewhere || !ActorOk(actor) then Answer(r, Raised)
    else
      Answer(Logged(r.(effects := r.effects[key := Effect(a.value, EffectStarted, now, None, None)]),
                    Event(a, EvEffectStarted(key), Some(Known(Running)), Running, actor, now)),
             EffectIs(EffectStarted))
  }

  /** The UPDATE of commit_job_effect and what follows it; takes no lock on the job. */
  function CommitUpdateOn(now: Time, r: JobRecord, a: Option<nat>, key: string, receipt: Option<string>,
                          actor: string): Answer {
    if key !in r.effects || Some(r.effects[key].attempt) != a then Answer(r, Raised)
    else if r.effects[key].state == EffectCommitted then Answer(r, CommitOk)
    else if !ActorOk(actor) then Answer(r, Raised)
    else
      var e := r.effects[key].(state := EffectCommitted, committedAt := Some(now), receipt := receipt);
      Answer(Logged(r.(effects := r.effects[key := e]),
                    Event(a, EvEffectCommitted(key, receipt), Some(Known(Running)), Running, actor, now)), CommitOk)
  }

  function CommitEffectOn(now: Time, r: JobRecord, t: Token, key: string, receipt: Option<string>,
                          actor: string): Answer {
    if r.row.status != Running || !Live(now, r.row, t) then Answer(r, Raised)
    else CommitUpdateOn(now, r, FindAttempt(r.attempts, t), key, receipt, actor)
  }

  function CompleteOn(now: Time, r: JobRecord, t: Token, result: Option<Json>, actor: string): Answer {
    var a := FindAttempt(r.attempts, t);
    if r.row.status != Running || !Live(now, r.row, t)
       || (r.row.def.sideEffecting && (!HasEffect(r, a) || HasUncommittedEffect(r, a))) || !ActorOk(actor) then
      Answer(r, Raised)
    else
      var value := if result.Some? then result.value else map[];
      var row := Cleared(r.row).(status := Succeeded, result := Some(value), terminalAt := Some(now), updatedAt := now);
      Answer(Logged(r.(row := row), Event(a, EvSucceeded(value), Some(Known(Running)), Succeeded, actor, now)),
             CompleteOk)
  }

  /** The status chosen when an attempt ends without success. */
  function AfterAttempt(r: JobRecord, a: Option<nat>, retryable: bool): Status {
    if HasEffect(r, a) then ReconciliationRequired
    else if retryable && r.row.attemptCount < r.row.def.maxAttempts then RetryWait
    else if retryable then DeadLetter
    else Failed
  }

  function FailOn(now: Time, r: JobRecord, t: Token, code: string, summary: string, retryable: bool, delaySeconds: int,
                  actor: string): Answer {
    var a := FindAttempt(r.attempts, t);
    if !Holding(r.row.status) || !Live(now, r.row, t) || !ActorOk(actor) then Answer(r, Raised)
    else
      var next := AfterAttempt(r, a, retryable);
      var row := Cleared(r.row).(
        status := next, lastErrorCode := Some(code), lastErrorSummary := Some(Left(summary, 2048)),
        nextEligibleAt := if next == RetryWait then now + Max(0, delaySeconds) * SECOND else r.row.nextEligibleAt,
        terminalAt := if next in {Failed, DeadLetter} then Some(now) else None, updatedAt := now);
      Answer(Logged(r.(row := row), Event(a, EvAttemptFailed(code, Left(summary, 2048), retryable),
                                          Some(Known(r.row.status)), next, actor, now)), FailedTo(next))
  }

  function CallOn(now: Time, r: JobRecord, elsewhere: bool, t: Token, c: Call): Answer {
    match c
    case RecordGate(d, e, actor) => RecordGateOn(now, r, t, d, e, actor)
    case Start(actor) => StartOn(now, r, t, actor)
    case Heartbeat(seconds) => HeartbeatOn(now, r, t, seconds)
    case BeginEffect(key, actor) => BeginEffectOn(now, r, elsewhere, t, key, actor)
    case CommitEffect(key, receipt, actor) => CommitEffectOn(now, r, t, key, receipt, actor)
    case Complete(result, actor) => CompleteOn(now, r, t, result, actor)
    case Fail(code, summary, retryable, delay, actor) => FailOn(now, r, t, code, summary, retryable, delay, actor)
  }

  /** One iteration of the reap_expired_jobs loop. */
  function ReapOn(now: Time, r: JobRecord, actor: string): JobRecord {
    if !Expired(now, r.row) then r
    else
      var a := if r.row.leaseToken.Some? then FindAttempt(r.attempts, r.row.leaseToken.value) else None;
      var next := AfterAttempt(r, a, true);
      var row := Cleared(r.row).(
        status := next, nextEligibleAt := if next == RetryWait then now else r.row.nextEligibleAt,
        lastErrorCode := Some("lease_expired"),
        lastErrorSummary := Some("worker lease expired before terminal acknowledgement"),
        terminalAt := if next == DeadLetter then Some(now) else None, updatedAt := now);
      Logged(r.(row := row), Event(a, EvLeaseExpired(r.row.attemptCount, r.row.leaseCount),
                                   Some(Known(r.row.status)), next, actor, now))
  }

  predicate Cancellable(s: Status) {
    s in {Queued, RetryWait, WaitingApproval, ReconciliationRequired}
  }

  function CancelOn(now: Time, r: JobRecord, reason: string, actor: string): JobRecord {
    if !Cancellable(r.row.status) || !ActorOk(actor) then r
    else
      var row := r.row.(
        status := Cancelled, terminalAt := Some(now), updatedAt := now,
        lastErrorCode := Some("cancelled"), lastErrorSummary := Some(Left(reason, 2048)));
      Logged(r.(row := row),
             Event(None, EvCancelled(Left(reason, 2048)), Some(Known(r.row.status)), Cancelled, actor, now))
  }

  /** Everything that can happen to the record of an existing job in one step. */
  datatype RecordStep =
    | Idle
    | TakeLease(worker: string, seconds: int, token: Token)
    | TokenCall(elsewhere: bool, token: Token, call: Call)
    | Reap(actor: string)
    | Cancel(reason: string, actor: string)

  function StepOn(now: Time, r: JobRecord, step: RecordStep): JobRecord {
    match step
    case Idle => r
    case TakeLease(worker, seconds, t) => LeaseOn(now, r, worker, seconds, t)
    case TokenCall(elsewhere, t, c) => CallOn(now, r, elsewhere, t, c).rec
    case Reap(actor) => ReapOn(now, r, actor)
    case Cancel(reason, actor) => CancelOn(now, r, reason, actor)
  }

  // ---- the whole ledger ----

  datatype State = State(now: Time, recs: map<JobId, JobRecord>)

  /** ORDER BY priority, next_eligible_at, created_at, job_id. */
  predicate Precedes(i: JobId, a: JobRow, j: JobId, b: JobRow) {
    a.priority < b.priority || (a.priority == b.priority && (
    a.nextEligibleAt < b.nextEligibleAt || (a.nextEligibleAt == b.nextEligibleAt && (
    a.createdAt < b.createdAt || (a.createdAt == b.createdAt && StrLess(i, j))))))
  }

  /** Rows the lease query considers; `locked` are those SKIP LOCKED passes over. */
  predicate Candidate(s: State, kind: Option<string>, locked: set<JobId>, j: JobId) {
    j in s.recs && j !in locked && Leasable(s.now, s.recs[j].row)
        && (kind.None? || s.recs[j].row.def.kind == kind.value)
  }

  ghost predicate IsNext(s: State, kind: Option<string>, locked: set<JobId>, j: JobId) {
    Candidate(s, kind, locked, j)
    && forall i :: Candidate(s, kind, locked, i) && i != j ==> Precedes(j, s.recs[j].row, i, s.recs[i].row)
  }

  /** The row the lease query locks, if there is one. */
  ghost function NextJob(s: State, kind: Option<string>, locked: set<JobId>): Option<JobId> {
    if exists j :: IsNext(s, kind, locked, j) then (var j :| IsNext(s, kind, locked, j); Some(j)) else None
  }

  predicate SameKey(a: Definition, b: Definition) {
    a.kind == b.kind && a.idempotencyKey == b.idempotencyKey
  }

  ghost predicate Holds(s: State, d: Definition, j: JobId) {
    j in s.recs && SameKey(s.recs[j].row.def, d)
  }

  /** The row that already has this (job_kind, idempotency_key). */
  ghost function JobFor(s: State, d: Definition): Option<JobId> {
    if exists j :: Holds(s, d, j) then (var j :| Holds(s, d, j); Some(j)) else None
  }

  predicate KeyElsewhere(s: State, j: JobId, key: string) {
    exists i :: i in s.recs && i != j && key in s.recs[i].effects
  }

  datatype Op =
    | SubmitJob(id: JobId, def: Definition, priority: int, notBefore: Time, actor: string)
    | LeaseNext(worker: string, seconds: int, kind: Option<string>, token: Token, locked: set<JobId>)
    | Invoke(job: JobId, token: Token, call: Call)
    | ReapExpired(locked: set<JobId>, actor: string)
    | CancelJob(job: JobId, reason: string, actor: string)
    | Tick(elapsed: nat)

  function Put(s: State, j: JobId, r: JobRecord): State {
    s.(recs := s.recs[j := r])
  }

  /** The id submit_job returns, or None when it raises. */
  ghost function SubmittedId(s: State, id: JobId, d: Definition, priority: int, actor: string): Option<JobId> {
    if !DefinitionOk(d) || !(0 <= priority <= 1000) then None
    else if JobFor(s, d).Some? then
      if s.recs[JobFor(s, d).value].row.def == d then JobFor(s, d) else None
    else if id in s.recs || !ActorOk(actor) then None
    else Some(id)
  }

  ghost function Submit(s: State, id: JobId, d: Definition, priority: int, notBefore: Time, actor: string): State {
    if JobFor(s, d).Some? || SubmittedId(s, id, d, priority, actor).None? then s
    else Put(s, id, NewRecord(s.now, d, priority, notBefore, actor))
  }

  ghost function LeaseNextJob(s: State, worker: string, seconds: int, kind: Option<string>, t: Token,
                              locked: set<JobId>): State {
    var next := NextJob(s, kind, locked);
    if next.Some? then Put(s, next.value, LeaseOn(s.now, s.recs[next.value], worker, seconds, t))
    else s
  }

  function InvokeAnswer(s: State, j: JobId, t: Token, c: Call): (State, Reply) {
    if j !in s.recs then (s, Raised)
    else
      var elsewhere := c.BeginEffect? && KeyElsewhere(s, j, c.key);
      var answer := CallOn(s.now, s.recs[j], elsewhere, t, c);
      (Put(s, j, answer.rec), answer.reply)
  }

  predicate ToReap(s: State, locked: set<JobId>, j: JobId) {
    j in s.recs && j !in locked && Expired(s.now, s.recs[j].row)
  }

  function ReapAll(s: State, locked: set<JobId>, actor: string): State {
    if ActorOk(actor) then
      s.(recs := map j | j in s.recs :: if ToReap(s, locked, j) then ReapOn(s.now, s.recs[j], actor) else s.recs[j])
    else s
  }

  ghost function Apply(s: State, op: Op): State {
    match op
    case SubmitJob(id, d, priority, notBefore, actor) => Submit(s, id, d, priority, notBefore, actor)
    case LeaseNext(worker, seconds, kind, t, locked) => LeaseNextJob(s, worker, seconds, kind, t, locked)
    case Invoke(j, t, c) => InvokeAnswer(s, j, t, c).0
    case ReapExpired(locked, actor) => ReapAll(s, locked, actor)
    case CancelJob(j, reason, actor) => if j in s.recs then Put(s, j, CancelOn(s.now, s.recs[j], reason, actor)) else s
    case Tick(elapsed) => s.(now := s.now + elapsed)
  }

  /** Any finite run, first operation first. */
  ghost function Run(s: State, ops: seq<Op>): State
    decreases |ops|
  {
    if |ops| == 0 then s else Run(Apply(s, ops[0]), ops[1..])
  }

  function Empty(now: Time): State { State(now, map[]) }
}
