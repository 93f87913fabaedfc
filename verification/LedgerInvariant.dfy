/** What every function of the ledger keeps true of every job. */
module LedgerInvariant {
  import opened Basics
  import opened LedgerTypes
  import opened LedgerSpec

  // ---- the invariant ----

  /** The CHECK constraints of fzh.jobs that mention mutable columns. */
  predicate ChecksHold(row: JobRow) {
    && (row.leaseOwner.Some? <==> row.leaseToken.Some?)
    && (row.leaseToken.Some? <==> row.leaseExpiresAt.Some?)
    && (Holding(row.status) <==> row.leaseToken.Some?)
    && (Terminal(row.status) <==> row.terminalAt.Some?)
    && 0 <= row.attemptCount <= row.def.maxAttempts
    && 0 <= row.leaseCount
    && DefinitionOk(row.def) && 0 <= row.priority <= 1000
  }

  predicate TokensDistinct(attempts: seq<Attempt>) {
    forall i, k :: 0 <= i < k < |attempts| ==> attempts[i].token != attempts[k].token
  }

  /** One attempt row per lease, numbered 1..lease_count; a held lease is the newest one. */
  predicate AttemptsOk(r: JobRecord) {
    && |r.attempts| == r.row.leaseCount
    && (forall i :: 0 <= i < |r.attempts| ==> r.attempts[i].number == i + 1)
    && TokensDistinct(r.attempts)
    && (Holding(r.row.status) ==> |r.attempts| > 0 && r.row.leaseToken == Some(r.attempts[|r.attempts| - 1].token))
  }

  /** The newest attempt, if there is one. */
  function Newest(r: JobRecord): Option<nat> {
    if |r.attempts| == 0 then None else Some(|r.attempts| - 1)
  }

  predicate GatesOk(r: JobRecord) {
    && (forall a :: a in r.gates ==> a < |r.attempts|)
    && (Holding(r.row.status) && Newest(r).Some? && Newest(r).value in r.gates ==> Allowed(r, Newest(r)))
  }

  /** Quarantine and evidence: an effect belongs to the newest attempt of a
      side-effecting job, that attempt was allowed, and the job cannot be leased again. */
  predicate EffectsOk(r: JobRecord) {
    && (forall k :: k in r.effects ==>
          Some(r.effects[k].attempt) == Newest(r)
              && (r.effects[k].state == EffectCommitted <==> r.effects[k].committedAt.Some?))
    && (r.effects != map[] ==>
          r.row.def.sideEffecting && Allowed(r, Newest(r))
          && r.row.status in {Running, ReconciliationRequired, Succeeded, Cancelled})
  }

  predicate EvidenceHolds(r: JobRecord) {
    && (r.row.status == Running && r.row.def.sideEffecting ==> Allowed(r, Newest(r)))
    && (r.row.status == Succeeded && r.row.def.sideEffecting ==>
          r.effects != map[] && forall k :: k in r.effects ==> r.effects[k].state == EffectCommitted)
  }

  function Refunds(events: seq<Event>): nat {
    if |events| == 0 then 0
    else Refunds(events[..|events| - 1]) + if events[|events| - 1].kind.EvWaitingApproval? then 1 else 0
  }

  /** Every lease either still counts against the budget or was refunded. */
  predicate BudgetOk(r: JobRecord) {
    && r.row.attemptCount + Refunds(r.events) == r.row.leaseCount
    && (Holding(r.row.status) ==> r.row.attemptCount >= 1)
  }

  predicate RecordInv(r: JobRecord) {
    ChecksHold(r.row) && AttemptsOk(r) && GatesOk(r) && EffectsOk(r) && EvidenceHolds(r) && BudgetOk(r)
  }

  // ---- helpers ----

  lemma RefundsSnoc(events: seq<Event>, e: Event)
    ensures Refunds(events + [e]) == Refunds(events) + if e.kind.EvWaitingApproval? then 1 else 0
  {}

  /** With distinct tokens, looking up the newest token finds the newest attempt. */
  lemma CurrentAttempt(r: JobRecord)
    requires AttemptsOk(r) && Holding(r.row.status)
    ensures r.row.leaseToken.Some? && FindAttempt(r.attempts, r.row.leaseToken.value) == Newest(r)
  {}

  lemma {:induction false} FindAttemptFinds(attempts: seq<Attempt>, t: Token)
    ensures match FindAttempt(attempts, t)
            case None => forall i :: 0 <= i < |attempts| ==> attempts[i].token != t
            case Some(a) => a < |attempts| && attempts[a].token == t
  {
    if |attempts| > 0 && attempts[|attempts| - 1].token != t {
      FindAttemptFinds(attempts[..|attempts| - 1], t);
    }
  }

  // ---- preservation, one function at a time ----

  lemma NewRecordInv(now: Time, d: Definition, priority: int, notBefore: Time, actor: string)
    requires DefinitionOk(d) && 0 <= priority <= 1000
    ensures RecordInv(NewRecord(now, d, priority, notBefore, actor))
  {}

  lemma LeaseInv(now: Time, r: JobRecord, worker: string, seconds: int, t: Token)
    requires RecordInv(r)
    ensures RecordInv(LeaseOn(now, r, worker, seconds, t))
  {
    var r' := LeaseOn(now, r, worker, seconds, t);
    if r' != r {
      FindAttemptFinds(r.attempts, t);
      RefundsSnoc(r.events, r'.events[|r.events|]);
    }
  }

  /** An allow decision for the newest attempt leaves the row alone. */
  lemma GateAllowsInv(r: JobRecord, r': JobRecord, g: GateDecision, e: Event)
    requires RecordInv(r) && r.row.status == Leased && Newest(r).Some? && g.decision == Allow
    requires r' == r.(gates := r.gates[Newest(r).value := g], events := r.events + [e]) && !e.kind.EvWaitingApproval?
    ensures RecordInv(r')
  {
    RefundsSnoc(r.events, e);
  }

  /** Any other decision ends the lease; approval_required gives the budget back. */
  lemma GateEndsInv(r: JobRecord, r': JobRecord, g: GateDecision, e: Event, refund: nat)
    requires RecordInv(r) && r.row.status == Leased && Newest(r).Some?
        && refund == (if e.kind.EvWaitingApproval? then 1 else 0)
    requires r' == r.(row := r'.row, gates := r.gates[Newest(r).value := g], events := r.events + [e])
    requires r'.row.def == r.row.def && r'.row.leaseCount == r.row.leaseCount
    requires r'.row.attemptCount == r.row.attemptCount - refund && ChecksHold(r'.row)
        && r'.row.status in {WaitingApproval, Denied}
    ensures RecordInv(r')
  {
    RefundsSnoc(r.events, e);
  }

  lemma RecordGateInv(now: Time, r: JobRecord, t: Token, d: Decision, e: GateEvidence, actor: string)
    requires RecordInv(r)
    ensures RecordInv(RecordGateOn(now, r, t, d, e, actor).rec)
  {
    var answer := RecordGateOn(now, r, t, d, e, actor);
    if answer.reply != Raised {
      CurrentAttempt(r);
      var r', g := answer.rec, GateDecision(d, e, now);
      if d == Allow {
        GateAllowsInv(r, r', g, LastEvent(r'));
      } else {
        GateEndsInv(r, r', g, LastEvent(r'), if d == ApprovalRequired then 1 else 0);
      }
    }
  }

  /** `r'` is `r` with another row status and one more event. */
  predicate RowLogged(r: JobRecord, r': JobRecord, e: Event) {
    && r'.attempts == r.attempts && r'.gates == r.gates && r'.effects == r.effects && r'.events == r.events + [e]
    && r'.row.def == r.row.def && r'.row.leaseCount == r.row.leaseCount && r'.row.attemptCount == r.row.attemptCount
    && !e.kind.EvWaitingApproval?
    && (Holding(r'.row.status) ==> Holding(r.row.status) && r'.row.leaseToken == r.row.leaseToken)
  }

  lemma RowInv(r: JobRecord, r': JobRecord, e: Event)
    requires RecordInv(r) && RowLogged(r, r', e) && ChecksHold(r'.row) && EvidenceHolds(r')
    requires r.effects != map[] ==> r'.row.status in {Running, ReconciliationRequired, Succeeded, Cancelled}
    ensures RecordInv(r')
  {
    RefundsSnoc(r.events, e);
  }

  function LastEvent(r: JobRecord): Event
    requires r.events != []
  {
    r.events[|r.events| - 1]
  }

  lemma StartInv(now: Time, r: JobRecord, t: Token, actor: string)
    requires RecordInv(r)
    ensures RecordInv(StartOn(now, r, t, actor).rec)
  {
    var answer := StartOn(now, r, t, actor);
    if answer.reply != Raised {
      CurrentAttempt(r);
      RowInv(r, answer.rec, LastEvent(answer.rec));
    }
  }

  lemma BeginEffectInv(now: Time, r: JobRecord, elsewhere: bool, t: Token, key: string, actor: string)
    requires RecordInv(r)
    ensures RecordInv(BeginEffectOn(now, r, elsewhere, t, key, actor).rec)
  {}

  /** Holds for the UPDATE alone, whatever happened to the job since the check. */
  lemma CommitUpdateInv(now: Time, r: JobRecord, a: Option<nat>, key: string, receipt: Option<string>, actor: string)
    requires RecordInv(r)
    ensures RecordInv(CommitUpdateOn(now, r, a, key, receipt, actor).rec)
  {}

  lemma CompleteInv(now: Time, r: JobRecord, t: Token, result: Option<Json>, actor: string)
    requires RecordInv(r)
    ensures RecordInv(CompleteOn(now, r, t, result, actor).rec)
  {
    var answer := CompleteOn(now, r, t, result, actor);
    if answer.reply != Raised {
      CurrentAttempt(r);
      RowInv(r, answer.rec, LastEvent(answer.rec));
    }
  }

  /** The status after an attempt that ended without success suits the job's effects. */
  lemma AfterAttemptInv(r: JobRecord, retryable: bool)
    requires RecordInv(r)
    ensures var next := AfterAttempt(r, Newest(r), retryable);
            && next in {ReconciliationRequired, RetryWait, DeadLetter, Failed}
            && (r.effects != map[] ==> next == ReconciliationRequired)
  {}

  lemma FailInv(now: Time, r: JobRecord, t: Token, code: string, summary: string, retryable: bool, delay: int,
                actor: string)
    requires RecordInv(r)
    ensures RecordInv(FailOn(now, r, t, code, summary, retryable, delay, actor).rec)
  {
    var answer := FailOn(now, r, t, code, summary, retryable, delay, actor);
    if answer.reply != Raised {
      CurrentAttempt(r);
      AfterAttemptInv(r, retryable);
      RowInv(r, answer.rec, LastEvent(answer.rec));
    }
  }

  lemma CallInv(now: Time, r: JobRecord, elsewhere: bool, t: Token, c: Call)
    requires RecordInv(r)
    ensures RecordInv(CallOn(now, r, elsewhere, t, c).rec)
  {
    match c
    case RecordGate(d, e, actor) => RecordGateInv(now, r, t, d, e, actor);
    case Start(actor) => StartInv(now, r, t, actor);
    case Heartbeat(seconds) =>
    case BeginEffect(key, actor) => BeginEffectInv(now, r, elsewhere, t, key, actor);
    case CommitEffect(key, receipt, actor) => CommitUpdateInv(now, r, FindAttempt(r.attempts, t), key, receipt, actor);
    case Complete(result, actor) => CompleteInv(now, r, t, result, actor);
    case Fail(code, summary, retryable, delay, actor) => FailInv(now, r, t, code, summary, retryable, delay, actor);
  }

  lemma ReapInv(now: Time, r: JobRecord, actor: string)
    requires RecordInv(r)
    ensures RecordInv(ReapOn(now, r, actor))
  {
    if Expired(now, r.row) {
      CurrentAttempt(r);
      AfterAttemptInv(r, true);
      RowInv(r, ReapOn(now, r, actor), LastEvent(ReapOn(now, r, actor)));
    }
  }

  lemma CancelInv(now: Time, r: JobRecord, reason: string, actor: string)
    requires RecordInv(r)
    ensures RecordInv(CancelOn(now, r, reason, actor))
  {
    if Cancellable(r.row.status) && ActorOk(actor) {
      RowInv(r, CancelOn(now, r, reason, actor), LastEvent(CancelOn(now, r, reason, actor)));
    }
  }

  lemma StepInv(now: Time, r: JobRecord, step: RecordStep)
    requires RecordInv(r)
    ensures RecordInv(StepOn(now, r, step))
  {
    match step
    case Idle =>
    case TakeLease(worker, seconds, t) => LeaseInv(now, r, worker, seconds, t);
    case TokenCall(elsewhere, t, c) => CallInv(now, r, elsewhere, t, c);
    case Reap(actor) => ReapInv(now, r, actor);
    case Cancel(reason, actor) => CancelInv(now, r, reason, actor);
  }
}
