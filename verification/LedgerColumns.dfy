/** The ledger read column by column: when each call goes through, what it makes
    of each column, and how a job moves from status to status. */
module LedgerColumns {
  import opened Basics
  import opened LedgerTypes
  import opened LedgerSpec
  import opened LedgerInvariant
  import opened LedgerReplay
  import opened LedgerRuns
  import LedgerTables

  // ---- when a call goes through ----

  /** The job is leased or running under token `t`, which is that of its newest
      attempt, and the lease has not run out. */
  predicate HeldBy(now: Time, r: JobRecord, t: Token) {
    && (r.row.status == Leased || r.row.status == Running)
    && |r.attempts| > 0 && r.attempts[|r.attempts| - 1].token == t
    && r.row.leaseExpiresAt.Some? && now < r.row.leaseExpiresAt.value
  }

  predicate DecidedTo(r: JobRecord, a: int, d: Decision) {
    a in r.gates && r.gates[a].decision == d
  }

  lemma HeldIsLive(now: Time, r: JobRecord, t: Token)
    requires RecordInv(r)
    ensures HeldBy(now, r, t) <==> Holding(r.row.status) && Live(now, r.row, t)
    ensures HeldBy(now, r, t) ==> FindAttempt(r.attempts, t) == Some(|r.attempts| - 1)
  {
    if Holding(r.row.status) { CurrentAttempt(r); }
  }

  predicate HexDigits(text: string, n: nat) {
    |text| == n && forall i :: 0 <= i < n ==> text[i] in "0123456789abcdef"
  }

  lemma HexIsChecked(text: string, n: nat)
    ensures IsLowerHex(text, n) <==> HexDigits(text, n)
  {}

  lemma EvidenceIsChecked(e: GateEvidence)
    ensures EvidenceOk(e) <==>
              HexDigits(e.requestSha256, 64) && HexDigits(e.policySha256, 64) && 1 <= |e.reason| <= 512
  {
    HexIsChecked(e.requestSha256, 64);
    HexIsChecked(e.policySha256, 64);
  }

  /** A gate decision is recorded once per attempt, before the start. */
  lemma GateGoesThrough(now: Time, r: JobRecord, t: Token, d: Decision, e: GateEvidence, actor: string)
    requires RecordInv(r)
    ensures RecordGateOn(now, r, t, d, e, actor).reply != Raised <==>
              HeldBy(now, r, t) && r.row.status == Leased && |r.attempts| - 1 !in r.gates && EvidenceOk(e)
              && 1 <= |actor| <= 128
  {
    HeldIsLive(now, r, t);
  }

  /** A job that has no side effects needs no gate decision to start. */
  lemma StartGoesThrough(now: Time, r: JobRecord, t: Token, actor: string)
    requires RecordInv(r)
    ensures StartOn(now, r, t, actor).reply != Raised <==>
              HeldBy(now, r, t) && r.row.status == Leased && 1 <= |actor| <= 128
              && (r.row.def.sideEffecting ==> DecidedTo(r, |r.attempts| - 1, Allow))
  {
    HeldIsLive(now, r, t);
  }

  lemma HeartbeatGoesThrough(now: Time, r: JobRecord, t: Token, seconds: int)
    requires RecordInv(r)
    ensures HeartbeatOn(now, r, t, seconds).reply != Raised <==> HeldBy(now, r, t) && 15 <= seconds <= 3600
  {
    HeldIsLive(now, r, t);
  }

  /** While the job runs, any effect key that is there belongs to the caller. */
  lemma BeginGoesThrough(now: Time, r: JobRecord, elsewhere: bool, t: Token, key: string, actor: string)
    requires RecordInv(r)
    ensures BeginEffectOn(now, r, elsewhere, t, key, actor).reply != Raised <==>
              HeldBy(now, r, t) && r.row.status == Running && r.row.def.sideEffecting && 1 <= |key| <= 256
              && (key in r.effects || (!elsewhere && 1 <= |actor| <= 128))
    ensures BeginEffectOn(now, r, elsewhere, t, key, actor).reply != Raised ==>
              BeginEffectOn(now, r, elsewhere, t, key, actor).reply
                == EffectIs(if key in r.effects then r.effects[key].state else EffectStarted)
  {
    HeldIsLive(now, r, t);
  }

  lemma CommitGoesThrough(now: Time, r: JobRecord, t: Token, key: string, receipt: Option<string>, actor: string)
    requires RecordInv(r)
    ensures CommitEffectOn(now, r, t, key, receipt, actor).reply != Raised <==>
              HeldBy(now, r, t) && r.row.status == Running && key in r.effects
              && (r.effects[key].state == EffectCommitted || 1 <= |actor| <= 128)
  {
    HeldIsLive(now, r, t);
  }

  /** A side-effecting job must have had its effects, all of them committed. */
  lemma CompleteGoesThrough(now: Time, r: JobRecord, t: Token, result: Option<Json>, actor: string)
    requires RecordInv(r)
    ensures CompleteOn(now, r, t, result, actor).reply != Raised <==>
              HeldBy(now, r, t) && r.row.status == Running && 1 <= |actor| <= 128
              && (r.row.def.sideEffecting ==>
                    r.effects != map[] && forall k :: k in r.effects ==> r.effects[k].state == EffectCommitted)
  {
    HeldIsLive(now, r, t);
    if r.effects != map[] { var k :| k in r.effects; }
  }

  lemma FailGoesThrough(now: Time, r: JobRecord, t: Token, code: string, summary: string, retryable: bool, delay: int,
                        actor: string)
    requires RecordInv(r)
    ensures FailOn(now, r, t, code, summary, retryable, delay, actor).reply != Raised <==>
              HeldBy(now, r, t) && 1 <= |actor| <= 128
  {
    HeldIsLive(now, r, t);
  }

  /** Queued or waiting for a retry, due, within its budget, and the token is new to it. */
  lemma LeaseGoesThrough(now: Time, r: JobRecord, worker: string, seconds: int, t: Token)
    requires RecordInv(r)
    ensures LeaseOn(now, r, worker, seconds, t) != r <==>
              && (r.row.status == Queued || r.row.status == RetryWait) && r.row.nextEligibleAt <= now
              && r.row.attemptCount < r.row.def.maxAttempts && 15 <= seconds <= 3600
              && |worker| <= 128 && (exists i :: 0 <= i < |worker| && worker[i] != ' ')
              && forall i :: 0 <= i < |r.attempts| ==> r.attempts[i].token != t
  {
    FindAttemptFinds(r.attempts, t);
    var r' := LeaseOn(now, r, worker, seconds, t);
    if FindAttempt(r.attempts, t).None? && LeaseSecondsOk(seconds) && WorkerOk(worker) && Leasable(now, r.row) {
      assert |r'.attempts| == |r.attempts| + 1;
    }
  }

  /** Leased or running, with a lease that has run out. */
  lemma ReapGoesThrough(now: Time, r: JobRecord, actor: string)
    requires RecordInv(r)
    ensures ReapOn(now, r, actor) != r <==>
              && (r.row.status == Leased || r.row.status == Running)
              && r.row.leaseExpiresAt.Some? && r.row.leaseExpiresAt.value <= now
  {
    if Expired(now, r.row) { assert |ReapOn(now, r, actor).events| == |r.events| + 1; }
  }

  /** Neither held by a worker nor at its end. */
  lemma CancelGoesThrough(now: Time, r: JobRecord, reason: string, actor: string)
    requires RecordInv(r)
    ensures CancelOn(now, r, reason, actor) != r <==>
              r.row.leaseToken.None? && r.row.terminalAt.None? && 1 <= |actor| <= 128
  {
    if Cancellable(r.row.status) && ActorOk(actor) {
      assert |CancelOn(now, r, reason, actor).events| == |r.events| + 1;
    }
  }

  // ---- from status to status ----

  /** The moves of a job, and what may cause them. */
  predicate Moves(step: RecordStep, a: Status, b: Status) {
    match step
    case Idle => false
    case TakeLease(_, _, _) => (a == Queued || a == RetryWait) && b == Leased
    case TokenCall(_, _, RecordGate(d, _, _)) =>
      a == Leased && b == (match d case Allow => Leased case ApprovalRequired => WaitingApproval case Deny => Denied)
    case TokenCall(_, _, Start(_)) => a == Leased && b == Running
    case TokenCall(_, _, Heartbeat(_)) => a == b && (a == Leased || a == Running)
    case TokenCall(_, _, BeginEffect(_, _)) => a == b == Running
    case TokenCall(_, _, CommitEffect(_, _, _)) => a == b == Running
    case TokenCall(_, _, Complete(_, _)) => a == Running && b == Succeeded
    case TokenCall(_, _, Fail(_, _, retryable, _, _)) =>
      || (a == Running && b == ReconciliationRequired)
      || ((a == Leased || a == Running) && (if retryable then b == RetryWait || b == DeadLetter else b == Failed))
    case Reap(_) =>
      || (a == Running && b == ReconciliationRequired)
      || ((a == Leased || a == Running) && (b == RetryWait || b == DeadLetter))
    case Cancel(_, _) =>
      b == Cancelled && (a == Queued || a == RetryWait || a == WaitingApproval || a == ReconciliationRequired)
  }

  lemma CallMoves(now: Time, r: JobRecord, elsewhere: bool, t: Token, c: Call)
    requires RecordInv(r) && CallOn(now, r, elsewhere, t, c).rec != r
    ensures Moves(TokenCall(elsewhere, t, c), r.row.status, CallOn(now, r, elsewhere, t, c).rec.row.status)
  {
    HeldIsLive(now, r, t);
  }

  /** Whatever changes a job moves it along this diagram. */
  lemma StatusDiagram(now: Time, r: JobRecord, step: RecordStep)
    requires RecordInv(r) && StepOn(now, r, step) != r
    ensures Moves(step, r.row.status, StepOn(now, r, step).row.status)
  {
    match step
    case TokenCall(elsewhere, t, c) => CallMoves(now, r, elsewhere, t, c);
    case Reap(actor) => CurrentAttempt(r);
    case _ =>
  }

  /** The three cases of an attempt that ends without success: effects are
      quarantined, otherwise the budget decides, unless a retry is not wanted. */
  predicate EndsAs(r: JobRecord, retryable: bool, b: Status) {
    b == if r.effects != map[] then ReconciliationRequired
         else if !retryable then Failed
         else if r.row.attemptCount < r.row.def.maxAttempts then RetryWait else DeadLetter
  }

  lemma FailEnds(now: Time, r: JobRecord, t: Token, code: string, summary: string, retryable: bool, delay: int,
                 actor: string)
    requires RecordInv(r) && FailOn(now, r, t, code, summary, retryable, delay, actor).reply != Raised
    ensures var answer := FailOn(now, r, t, code, summary, retryable, delay, actor);
            EndsAs(r, retryable, answer.rec.row.status) && answer.reply == FailedTo(answer.rec.row.status)
  {
    HeldIsLive(now, r, t);
    EffectsAreNewest(r);
  }

  /** The row after a failure reported as retryable. */
  predicate Reported(now: Time, r: JobRecord, code: string, delay: int, row: JobRow) {
    && EndsAs(r, true, row.status) && row.lastErrorCode == Some(code)
    && (row.status == RetryWait ==> row.nextEligibleAt == now + (if delay >= 0 then delay else 0) * SECOND)
  }

  lemma ReapEnds(now: Time, r: JobRecord, actor: string)
    requires RecordInv(r) && ReapOn(now, r, actor) != r
    ensures EndsAs(r, true, ReapOn(now, r, actor).row.status)
  {
    CurrentAttempt(r);
    EffectsAreNewest(r);
  }

  lemma EffectsAreNewest(r: JobRecord)
    requires RecordInv(r)
    ensures HasEffect(r, Newest(r)) <==> r.effects != map[]
  {
    if r.effects != map[] { var k :| k in r.effects; }
  }

  // ---- column by column ----

  /** The budget: a lease takes one, a decision for approval gives it back. */
  predicate BudgetColumns(step: RecordStep, a: JobRow, b: JobRow) {
    && b.leaseCount == a.leaseCount + (if step.TakeLease? then 1 else 0)
    && b.attemptCount == a.attemptCount + (if step.TakeLease? then 1 else if b.status == WaitingApproval then -1 else 0)
  }

  /** The lease columns: set by the lease, prolonged by a heartbeat, empty when the
      job is not held, and otherwise left alone. */
  predicate LeaseColumns(now: Time, step: RecordStep, a: JobRow, b: JobRow) {
    if !Holding(b.status) then b.leaseOwner.None? && b.leaseToken.None? && b.leaseExpiresAt.None?
    else match step
      case TakeLease(worker, seconds, t) =>
        b.leaseOwner == Some(worker) && b.leaseToken == Some(t) && b.leaseExpiresAt == Some(now + seconds * SECOND)
      case TokenCall(_, _, Heartbeat(seconds)) =>
        b.leaseOwner == a.leaseOwner && b.leaseToken == a.leaseToken
        && b.leaseExpiresAt == Some(now + seconds * SECOND)
      case _ =>
        b.leaseOwner == a.leaseOwner && b.leaseToken == a.leaseToken && b.leaseExpiresAt == a.leaseExpiresAt
  }

  /** The dates: terminal_at is the moment of the end, next_eligible_at moves only
      on the way to a retry, created_at and priority never change. */
  predicate DateColumns(now: Time, step: RecordStep, a: JobRow, b: JobRow) {
    && b.def == a.def && b.priority == a.priority && b.createdAt == a.createdAt
    && (b != a ==> b.updatedAt == now)
    && b.terminalAt == (if Terminal(b.status) then Some(now) else None)
    && b.nextEligibleAt ==
         (match step
          case TokenCall(_, _, Fail(_, _, _, delay, _)) =>
            if b.status == RetryWait then now + (if delay >= 0 then delay else 0) * SECOND else a.nextEligibleAt
          case Reap(_) => if b.status == RetryWait then now else a.nextEligibleAt
          case _ => a.nextEligibleAt)
  }

  function FirstChars(text: string): string { if |text| <= 2048 then text else text[..2048] }

  /** The outcome: the result of a completion; code and summary of the last thing that went wrong. */
  predicate OutcomeColumns(step: RecordStep, a: JobRow, b: JobRow) {
    match step
    case TokenCall(_, _, Complete(result, _)) =>
      && b.result == Some(if result.Some? then result.value else map[])
      && b.lastErrorCode == a.lastErrorCode && b.lastErrorSummary == a.lastErrorSummary
    case TokenCall(_, _, Fail(code, summary, _, _, _)) =>
      b.result == a.result && b.lastErrorCode == Some(code) && b.lastErrorSummary == Some(FirstChars(summary))
    case Reap(_) =>
      && b.result == a.result && b.lastErrorCode == Some("lease_expired")
      && b.lastErrorSummary == Some("worker lease expired before terminal acknowledgement")
    case Cancel(reason, _) =>
      b.result == a.result && b.lastErrorCode == Some("cancelled") && b.lastErrorSummary == Some(FirstChars(reason))
    case _ =>
      b.result == a.result && b.lastErrorCode == a.lastErrorCode && b.lastErrorSummary == a.lastErrorSummary
  }

  predicate RowColumns(now: Time, step: RecordStep, a: JobRow, b: JobRow) {
    && BudgetColumns(step, a, b) && LeaseColumns(now, step, a, b)
    && DateColumns(now, step, a, b) && OutcomeColumns(step, a, b)
  }

  lemma CallBudget(now: Time, r: JobRecord, elsewhere: bool, t: Token, c: Call)
    requires RecordInv(r) && CallOn(now, r, elsewhere, t, c).rec != r
    ensures BudgetColumns(TokenCall(elsewhere, t, c), r.row, CallOn(now, r, elsewhere, t, c).rec.row)
  {
    CallMoves(now, r, elsewhere, t, c);
  }

  lemma CallLease(now: Time, r: JobRecord, elsewhere: bool, t: Token, c: Call)
    requires RecordInv(r) && CallOn(now, r, elsewhere, t, c).rec != r
    ensures LeaseColumns(now, TokenCall(elsewhere, t, c), r.row, CallOn(now, r, elsewhere, t, c).rec.row)
  {
    CallInv(now, r, elsewhere, t, c);
  }

  lemma CallDates(now: Time, r: JobRecord, elsewhere: bool, t: Token, c: Call)
    requires RecordInv(r) && CallOn(now, r, elsewhere, t, c).rec != r
    ensures DateColumns(now, TokenCall(elsewhere, t, c), r.row, CallOn(now, r, elsewhere, t, c).rec.row)
  {
    CallMoves(now, r, elsewhere, t, c);
  }

  lemma CallOutcome(now: Time, r: JobRecord, elsewhere: bool, t: Token, c: Call)
    requires RecordInv(r) && CallOn(now, r, elsewhere, t, c).rec != r
    ensures OutcomeColumns(TokenCall(elsewhere, t, c), r.row, CallOn(now, r, elsewhere, t, c).rec.row)
  {}

  lemma CallColumns(now: Time, r: JobRecord, elsewhere: bool, t: Token, c: Call)
    requires RecordInv(r) && CallOn(now, r, elsewhere, t, c).rec != r
    ensures RowColumns(now, TokenCall(elsewhere, t, c), r.row, CallOn(now, r, elsewhere, t, c).rec.row)
  {
    CallBudget(now, r, elsewhere, t, c);
    CallLease(now, r, elsewhere, t, c);
    CallDates(now, r, elsewhere, t, c);
    CallOutcome(now, r, elsewhere, t, c);
  }

  lemma TakenColumns(now: Time, r: JobRecord, worker: string, seconds: int, t: Token)
    requires RecordInv(r) && LeaseOn(now, r, worker, seconds, t) != r
    ensures RowColumns(now, TakeLease(worker, seconds, t), r.row, LeaseOn(now, r, worker, seconds, t).row)
  {}

  lemma ReportGoesThrough(s: State, j: JobId, t: Token, code: string, delay: int, actor: string)
    requires j in s.recs && RecordInv(s.recs[j]) && HeldBy(s.now, s.recs[j], t) && 1 <= |actor| <= 128
    ensures var answer := InvokeAnswer(s, j, t, Fail(code, "", true, delay, actor));
            j in answer.0.recs && Reported(s.now, s.recs[j], code, delay, answer.0.recs[j].row)
  {
    FailGoesThrough(s.now, s.recs[j], t, code, "", true, delay, actor);
    FailEnds(s.now, s.recs[j], t, code, "", true, delay, actor);
  }

  lemma HeartbeatProlongs(s: State, j: JobId, t: Token, seconds: int)
    requires j in s.recs && RecordInv(s.recs[j]) && HeldBy(s.now, s.recs[j], t) && 15 <= seconds <= 3600
    ensures var answer := InvokeAnswer(s, j, t, Heartbeat(seconds));
            && answer.1 == LeaseUntil(s.now + seconds * SECOND) && j in answer.0.recs
            && answer.0.recs[j].row.leaseExpiresAt == Some(s.now + seconds * SECOND)
  {
    HeldIsLive(s.now, s.recs[j], t);
  }

  lemma ReapedColumns(now: Time, r: JobRecord, actor: string)
    requires RecordInv(r) && ReapOn(now, r, actor) != r
    ensures RowColumns(now, Reap(actor), r.row, ReapOn(now, r, actor).row)
  {
    CurrentAttempt(r);
  }

  lemma CancelledColumns(now: Time, r: JobRecord, reason: string, actor: string)
    requires RecordInv(r) && CancelOn(now, r, reason, actor) != r
    ensures RowColumns(now, Cancel(reason, actor), r.row, CancelOn(now, r, reason, actor).row)
  {}

  /** Every column of the job after whatever changed it. */
  lemma StepColumns(now: Time, r: JobRecord, step: RecordStep)
    requires RecordInv(r) && StepOn(now, r, step) != r
    ensures RowColumns(now, step, r.row, StepOn(now, r, step).row)
  {
    match step
    case TakeLease(worker, seconds, t) => TakenColumns(now, r, worker, seconds, t);
    case TokenCall(elsewhere, t, c) => CallColumns(now, r, elsewhere, t, c);
    case Reap(actor) => ReapedColumns(now, r, actor);
    case Cancel(reason, actor) => CancelledColumns(now, r, reason, actor);
    case Idle =>
  }

  // ---- the other tables ----

  /** A lease adds one attempt, its number the lease sequence. */
  predicate AttemptRows(now: Time, r: JobRecord, step: RecordStep, r': JobRecord) {
    match step
    case TakeLease(worker, seconds, t) =>
      && |r'.attempts| == |r.attempts| + 1 && r.attempts <= r'.attempts
      && r'.attempts[|r.attempts|] == Attempt(r'.row.leaseCount, worker, t, now, now + seconds * SECOND)
    case _ => r'.attempts == r.attempts
  }

  /** A gate decision is stored under the newest attempt, with what it rests on. */
  predicate GateRows(now: Time, r: JobRecord, step: RecordStep, r': JobRecord) {
    match step
    case TokenCall(_, _, RecordGate(d, e, _)) =>
      && r'.gates.Keys == r.gates.Keys + {|r.attempts| - 1} && r'.gates[|r.attempts| - 1] == GateDecision(d, e, now)
      && forall a :: a in r.gates ==> r'.gates[a] == r.gates[a]
    case _ => r'.gates == r.gates
  }

  /** An effect is begun under its key by the newest attempt, and committed with its receipt. */
  predicate EffectRows(now: Time, r: JobRecord, step: RecordStep, r': JobRecord) {
    match step
    case TokenCall(_, _, BeginEffect(key, _)) =>
      && |r.attempts| > 0 && r'.effects.Keys == r.effects.Keys + {key}
      && (key !in r.effects ==> r'.effects[key] == Effect(|r.attempts| - 1, EffectStarted, now, None, None))
      && forall k :: k in r.effects ==> r'.effects[k] == r.effects[k]
    case TokenCall(_, _, CommitEffect(key, receipt, _)) =>
      && |r.attempts| > 0 && r'.effects.Keys == r.effects.Keys && key in r.effects
      && r'.effects[key] == Effect(|r.attempts| - 1, EffectCommitted, r.effects[key].startedAt, Some(now), receipt)
      && forall k :: k in r.effects && k != key ==> r'.effects[k] == r.effects[k]
    case _ => r'.effects == r.effects
  }

  /** The event a step logs says who did what to which attempt, and when. */
  predicate SaysWhat(now: Time, r: JobRecord, step: RecordStep, e: Event) {
    match step
    case TakeLease(worker, seconds, _) =>
      e.actor == worker && e.kind == EvLeased(now + seconds * SECOND, r.row.leaseCount + 1, r.row.attemptCount + 1,
                                              r.row.def.maxAttempts)
    case TokenCall(_, _, RecordGate(d, evidence, actor)) =>
      e.actor == actor && e.kind == (match d case Allow => EvGateAllowed(evidence)
                                             case ApprovalRequired => EvWaitingApproval(evidence)
                                             case Deny => EvGateDenied(evidence))
    case TokenCall(_, _, Start(actor)) => e.actor == actor && e.kind == EvStarted
    case TokenCall(_, _, BeginEffect(key, actor)) => e.actor == actor && e.kind == EvEffectStarted(key)
    case TokenCall(_, _, CommitEffect(key, receipt, actor)) =>
      e.actor == actor && e.kind == EvEffectCommitted(key, receipt)
    case TokenCall(_, _, Complete(result, actor)) =>
      e.actor == actor && e.kind == EvSucceeded(if result.Some? then result.value else map[])
    case TokenCall(_, _, Fail(code, summary, retryable, _, actor)) =>
      e.actor == actor && e.kind == EvAttemptFailed(code, FirstChars(summary), retryable)
    case Reap(actor) => e.actor == actor && e.kind == EvLeaseExpired(r.row.attemptCount, r.row.leaseCount)
    case Cancel(reason, actor) => e.actor == actor && e.kind == EvCancelled(FirstChars(reason))
    case _ => false
  }

  /** One event for every change but a heartbeat. */
  predicate EventRows(now: Time, r: JobRecord, step: RecordStep, r': JobRecord) {
    if step.TokenCall? && step.call.Heartbeat? then r'.events == r.events
    else
      && |r'.events| == |r.events| + 1 && r.events <= r'.events
      && (var e := r'.events[|r.events|];
          && e.at == now && e.to == r'.row.status
          && e.from == Some(if step.TakeLease? then QueuedOrRetryWait else Known(r.row.status))
          && e.attempt == (if step.Cancel? then None else Some(|r'.attempts| - 1))
          && SaysWhat(now, r, step, e))
  }

  lemma CallTables(now: Time, r: JobRecord, elsewhere: bool, t: Token, c: Call)
    requires RecordInv(r) && CallOn(now, r, elsewhere, t, c).rec != r
    ensures var step, r' := TokenCall(elsewhere, t, c), CallOn(now, r, elsewhere, t, c).rec;
            AttemptRows(now, r, step, r') && GateRows(now, r, step, r') && EffectRows(now, r, step, r')
  {
    HeldIsLive(now, r, t);
  }

  lemma CallEvent(now: Time, r: JobRecord, elsewhere: bool, t: Token, c: Call)
    requires RecordInv(r) && CallOn(now, r, elsewhere, t, c).rec != r
    ensures EventRows(now, r, TokenCall(elsewhere, t, c), CallOn(now, r, elsewhere, t, c).rec)
  {
    HeldIsLive(now, r, t);
  }

  lemma OtherTables(now: Time, r: JobRecord, step: RecordStep)
    requires RecordInv(r) && StepOn(now, r, step) != r && !step.TokenCall?
    ensures var r' := StepOn(now, r, step);
            AttemptRows(now, r, step, r') && GateRows(now, r, step, r') && EffectRows(now, r, step, r')
            && EventRows(now, r, step, r')
  {
    if step.Reap? { CurrentAttempt(r); }
  }

  /** Every row of the other tables after whatever changed the job. */
  lemma StepTables(now: Time, r: JobRecord, step: RecordStep)
    requires RecordInv(r) && StepOn(now, r, step) != r
    ensures var r' := StepOn(now, r, step);
            AttemptRows(now, r, step, r') && GateRows(now, r, step, r') && EffectRows(now, r, step, r')
            && EventRows(now, r, step, r')
  {
    match step
    case TokenCall(elsewhere, t, c) =>
      CallTables(now, r, elsewhere, t, c);
      CallEvent(now, r, elsewhere, t, c);
    case _ => OtherTables(now, r, step);
  }

  // ---- over whole runs ----

  /** What a gate decision other than allow has made of the job. */
  predicate GatesTell(r: JobRecord) {
    && (forall a :: a in r.gates && r.gates[a].decision == Deny ==> a == |r.attempts| - 1 && r.row.status == Denied)
    && (r.row.status == Denied ==> DecidedTo(r, |r.attempts| - 1, Deny))
    && (DecidedTo(r, |r.attempts| - 1, ApprovalRequired) ==>
          r.row.status == WaitingApproval || r.row.status == Cancelled)
    && (r.row.status == WaitingApproval ==> DecidedTo(r, |r.attempts| - 1, ApprovalRequired))
  }

  lemma CallGatesTell(now: Time, r: JobRecord, elsewhere: bool, t: Token, c: Call)
    requires RecordInv(r) && GatesTell(r)
    ensures GatesTell(CallOn(now, r, elsewhere, t, c).rec)
  {
    var r' := CallOn(now, r, elsewhere, t, c).rec;
    if r' != r {
      CallMoves(now, r, elsewhere, t, c);
      CallTables(now, r, elsewhere, t, c);
      if c.RecordGate? { GateGoesThrough(now, r, t, c.decision, c.evidence, c.actor); }
    }
  }

  lemma StepGatesTell(now: Time, r: JobRecord, step: RecordStep)
    requires RecordInv(r) && GatesTell(r)
    ensures GatesTell(StepOn(now, r, step))
  {
    match step
    case TokenCall(elsewhere, t, c) => CallGatesTell(now, r, elsewhere, t, c);
    case Reap(_) => if StepOn(now, r, step) != r { StatusDiagram(now, r, step); OtherTables(now, r, step); }
    case Cancel(_, _) => if StepOn(now, r, step) != r { StatusDiagram(now, r, step); OtherTables(now, r, step); }
    case TakeLease(_, _, _) => if StepOn(now, r, step) != r { StatusDiagram(now, r, step); OtherTables(now, r, step); }
    case Idle =>
  }

  ghost predicate AllTell(s: State) { forall j :: j in s.recs ==> GatesTell(s.recs[j]) }

  lemma ApplyTells(s: State, op: Op)
    requires Inv(s) && AllTell(s)
    ensures AllTell(Apply(s, op))
  {
    forall j | j in Apply(s, op).recs ensures GatesTell(Apply(s, op).recs[j]) {
      if j in s.recs {
        ApplyIsStep(s, op, j);
        StepGatesTell(s.now, s.recs[j], StepFor(s, op, j));
      } else {
        ApplyNew(s, op, j);
      }
    }
  }

  lemma {:induction false} RunTells(s: State, ops: seq<Op>)
    requires Inv(s) && AllTell(s)
    ensures AllTell(Run(s, ops))
    decreases |ops|
  {
    if |ops| > 0 {
      ApplyTells(s, ops[0]);
      ApplyInv(s, ops[0]);
      RunTells(Apply(s, ops[0]), ops[1..]);
    }
  }

  /** In every reachable state a job is denied if and only if some gate decision
      on it is deny, and that is the one on its newest attempt; it waits for
      approval only if the decision on its newest attempt asks for one, and once
      it does the job waits or is cancelled. */
  lemma DeniedIffDecided(s: State, j: JobId)
    requires Reachable(s) && j in s.recs
    ensures var r := s.recs[j];
            && (r.row.status == Denied <==> exists a :: DecidedTo(r, a, Deny))
            && (forall a :: DecidedTo(r, a, Deny) ==> a == |r.attempts| - 1)
            && (r.row.status == WaitingApproval ==> DecidedTo(r, |r.attempts| - 1, ApprovalRequired))
            && (DecidedTo(r, |r.attempts| - 1, ApprovalRequired) ==>
                  r.row.status == WaitingApproval || r.row.status == Cancelled)
  {
    var start, ops :| s == Run(Empty(start), ops);
    RunTells(Empty(start), ops);
  }

  /** What a gate decision that goes through makes of the row: allow nothing; the
      others end the lease, approval gives the budget back, deny ends the job. */
  lemma DecisionOutcome(now: Time, r: JobRecord, t: Token, d: Decision, e: GateEvidence, actor: string)
    requires RecordInv(r) && RecordGateOn(now, r, t, d, e, actor).reply != Raised
    ensures var answer := RecordGateOn(now, r, t, d, e, actor);
            var row := answer.rec.row;
            match d
            case Allow => row == r.row && answer.reply == GateStatus(Leased)
            case ApprovalRequired =>
              && row.status == WaitingApproval && answer.reply == GateStatus(WaitingApproval)
              && row.attemptCount == r.row.attemptCount - 1 && row.leaseToken.None? && row.terminalAt.None?
            case Deny =>
              && row.status == Denied && answer.reply == GateStatus(Denied)
              && row.attemptCount == r.row.attemptCount && row.leaseToken.None? && row.terminalAt == Some(now)
  {}

  /** After a pass of the reaper an unlocked job is not held beyond its lease; a
      job changes only if it was held and its lease had run out, and then it does. */
  lemma ReaperColumns(s: State, locked: set<JobId>, actor: string, j: JobId)
    requires Reachable(s) && j in s.recs && 1 <= |actor| <= 128
    ensures var row, row' := s.recs[j].row, ReapAll(s, locked, actor).recs[j].row;
            && (j !in locked && (row'.status == Leased || row'.status == Running) ==>
                  row'.leaseExpiresAt.Some? && s.now < row'.leaseExpiresAt.value)
            && (ReapAll(s, locked, actor).recs[j] != s.recs[j] <==>
                  j !in locked && (row.status == Leased || row.status == Running)
                  && row.leaseExpiresAt.Some? && row.leaseExpiresAt.value <= s.now)
  {
    ReachableInv(s);
    ReapGoesThrough(s.now, s.recs[j], actor);
    ReapInv(s.now, s.recs[j], actor);
  }

  // ---- the order of leases ----

  /** The job is waiting to be leased: unlocked, of the kind asked for, due and within its budget. */
  predicate Waits(s: State, kind: Option<string>, locked: set<JobId>, j: JobId) {
    && j in s.recs && j !in locked && (kind.Some? ==> s.recs[j].row.def.kind == kind.value)
    && (s.recs[j].row.status == Queued || s.recs[j].row.status == RetryWait)
    && s.recs[j].row.nextEligibleAt <= s.now && s.recs[j].row.attemptCount < s.recs[j].row.def.maxAttempts
  }

  predicate ComesFirst(j: JobId, a: JobRow, i: JobId, b: JobRow) {
    && a.priority <= b.priority
    && (a.priority == b.priority ==> a.nextEligibleAt <= b.nextEligibleAt)
    && (a.priority == b.priority && a.nextEligibleAt == b.nextEligibleAt ==> a.createdAt <= b.createdAt)
    && (a.priority == b.priority && a.nextEligibleAt == b.nextEligibleAt && a.createdAt == b.createdAt ==>
          StrLess(j, i))
  }

  /** A lease goes to a job that waits, before which no other that waits has a
      smaller priority number, with equal priority none is due earlier, then none
      was created earlier, then none has a smaller id. Nothing else changes. */
  lemma LeaseOrder(s: State, worker: string, seconds: int, kind: Option<string>, t: Token, locked: set<JobId>, j: JobId)
    requires Reachable(s) && j in s.recs && LeaseNextJob(s, worker, seconds, kind, t, locked).recs[j] != s.recs[j]
    ensures Waits(s, kind, locked, j)
    ensures forall i: JobId :: Waits(s, kind, locked, i) && i != j ==> ComesFirst(j, s.recs[j].row, i, s.recs[i].row)
    ensures forall i: JobId :: i in s.recs && i != j ==>
              LeaseNextJob(s, worker, seconds, kind, t, locked).recs[i] == s.recs[i]
  {
    assert NextJob(s, kind, locked) == Some(j);
    assert IsNext(s, kind, locked, j);
  }

  /** If any job waits, and the worker asks properly with a token that is new to
      all of them, one of them is leased. */
  lemma SomeoneIsLeased(s: State, worker: string, seconds: int, kind: Option<string>, t: Token, locked: set<JobId>,
                         i: JobId)
    requires Reachable(s) && Waits(s, kind, locked, i) && WorkerOk(worker) && 15 <= seconds <= 3600
    requires forall j, a :: j in s.recs && a in s.recs[j].attempts ==> a.token != t
    ensures exists j :: j in s.recs && LeaseNextJob(s, worker, seconds, kind, t, locked).recs[j] != s.recs[j]
  {
    ReachableInv(s);
    LedgerTables.NextExists(s, kind, locked, i);
    var j := NextJob(s, kind, locked).value;
    LeaseGoesThrough(s.now, s.recs[j], worker, seconds, t);
  }

  // ---- new jobs ----

  /** By its ASCII code. */
  predicate LowerOrDigit(c: char) { 97 <= c as int <= 122 || 48 <= c as int <= 57 }

  /** A job kind starts with a lower-case letter or a digit and goes on with these, '_', '.' and '-'. */
  predicate Submittable(d: Definition) {
    && 1 <= |d.kind| <= 128 && LowerOrDigit(d.kind[0])
    && (forall i :: 1 <= i < |d.kind| ==> LowerOrDigit(d.kind[i]) || d.kind[i] in ['_', '.', '-'])
    && 1 <= |d.idempotencyKey| <= 256 && 1 <= |d.action| <= 128 && 1 <= d.maxAttempts <= 20
  }

  /** A definition whose key is new is accepted if and only if it fits the columns. */
  lemma SubmitGoesThrough(s: State, id: JobId, d: Definition, priority: int, actor: string)
    requires id !in s.recs && forall j :: j in s.recs ==> !SameKey(s.recs[j].row.def, d)
    ensures SubmittedId(s, id, d, priority, actor) == Some(id) <==>
              Submittable(d) && 0 <= priority <= 1000 && 1 <= |actor| <= 128
  {
    assert forall j :: !Holds(s, d, j);
  }

  /** A new job is stored as it was submitted: queued, due at not_before, its whole budget left. */
  lemma SubmittedColumns(s: State, id: JobId, d: Definition, priority: int, notBefore: Time, actor: string)
    requires Reachable(s) && DefinitionOk(d) && 0 <= priority <= 1000 && 1 <= |actor| <= 128 && id !in s.recs
    requires forall j :: j in s.recs ==> !SameKey(s.recs[j].row.def, d)
    ensures var s' := Submit(s, id, d, priority, notBefore, actor);
            && s'.recs.Keys == s.recs.Keys + {id} && (forall j :: j in s.recs ==> s'.recs[j] == s.recs[j])
            && SubmittedId(s, id, d, priority, actor) == Some(id)
            && (var r := s'.recs[id];
                && r.row.def == d && r.row.priority == priority && r.row.createdAt == s.now
                && r.row.status == Queued && r.row.attemptCount == 0 == r.row.leaseCount
                && r.row.nextEligibleAt == notBefore && r.row.leaseToken.None? && r.row.terminalAt.None?
                && r.row.result.None? && r.attempts == [] && r.gates == map[] && r.effects == map[]
                && r.events == [Event(None, EvSubmitted(d.idempotencyKey), None, Queued, actor, s.now)])
  {
    assert forall j :: !Holds(s, d, j);
  }

  /** Until it is first leased a job stays due at the moment it was submitted for. */
  predicate Unleased(r: JobRecord, notBefore: Time) {
    if r.attempts == [] then r.row.nextEligibleAt == notBefore && (r.row.status == Queued || r.row.status == Cancelled)
    else notBefore <= r.attempts[0].leasedAt
  }

  lemma StepUnleased(now: Time, r: JobRecord, step: RecordStep, notBefore: Time)
    requires RecordInv(r) && Unleased(r, notBefore)
    ensures Unleased(StepOn(now, r, step), notBefore)
  {
    var r' := StepOn(now, r, step);
    if r' != r {
      StatusDiagram(now, r, step);
      StepColumns(now, r, step);
      StepTables(now, r, step);
      if step.TakeLease? { LeaseGoesThrough(now, r, step.worker, step.seconds, step.token); }
    }
  }

  lemma {:induction false} RunUnleased(s: State, ops: seq<Op>, j: JobId, notBefore: Time)
    requires Inv(s) && j in s.recs && Unleased(s.recs[j], notBefore)
    ensures j in Run(s, ops).recs && Unleased(Run(s, ops).recs[j], notBefore)
    decreases |ops|
  {
    if |ops| > 0 {
      ApplyIsStep(s, ops[0], j);
      StepUnleased(s.now, s.recs[j], StepFor(s, ops[0], j), notBefore);
      ApplyInv(s, ops[0]);
      RunUnleased(Apply(s, ops[0]), ops[1..], j, notBefore);
    }
  }

  /** However the run goes on, a job is never leased before its not_before. */
  lemma NotBeforeIsKept(s: State, id: JobId, d: Definition, priority: int, notBefore: Time, actor: string, ops: seq<Op>)
    requires Reachable(s) && id !in s.recs && id in Submit(s, id, d, priority, notBefore, actor).recs
    ensures var r := Run(Submit(s, id, d, priority, notBefore, actor), ops).recs;
            id in r && (r[id].attempts != [] ==> notBefore <= r[id].attempts[0].leasedAt)
  {
    var op := SubmitJob(id, d, priority, notBefore, actor);
    ReachableInv(s);
    ApplyInv(s, op);
    RunUnleased(Apply(s, op), ops, id, notBefore);
  }
}
