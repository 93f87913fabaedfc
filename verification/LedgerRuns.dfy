/** Properties of every run of the ledger: any operations, by anyone, in any
    order, with any clock that does not go back. */
module LedgerRuns {
  import opened Basics
  import opened LedgerTypes
  import opened LedgerSpec
  import opened LedgerInvariant
  import opened LedgerReplay

  // ---- how one record changes over time ----

  ghost predicate EffectKept(e: Effect, e': Effect) {
    e'.attempt == e.attempt && e'.startedAt == e.startedAt && (e.state == EffectCommitted ==> e' == e)
  }

  predicate Quarantined(r: JobRecord) { r.effects != map[] }

  /** The definition never changes, the evidence tables only grow, effects only
      move from started to committed, a terminal row is final, and a job with
      an effect gets no further attempt. */
  ghost predicate Evolves(r: JobRecord, r': JobRecord) {
    && r'.row.def == r.row.def && r'.row.createdAt == r.row.createdAt && r'.row.priority == r.row.priority
    && r.attempts <= r'.attempts
    && r.events <= r'.events
    && (forall a :: a in r.gates ==> a in r'.gates && r'.gates[a] == r.gates[a])
    && (forall k :: k in r.effects ==> k in r'.effects && EffectKept(r.effects[k], r'.effects[k]))
    && (Terminal(r.row.status) ==> r'.row == r.row)
    && (Quarantined(r) ==> r'.attempts == r.attempts && Quarantined(r'))
  }

  lemma EvolvesReflexive(r: JobRecord)
    ensures Evolves(r, r)
  {}

  lemma EvolvesTransitive(a: JobRecord, b: JobRecord, c: JobRecord)
    requires Evolves(a, b) && Evolves(b, c)
    ensures Evolves(a, c)
  {}

  lemma RecordGateEvolves(now: Time, r: JobRecord, t: Token, d: Decision, e: GateEvidence, actor: string)
    requires RecordInv(r)
    ensures Evolves(r, RecordGateOn(now, r, t, d, e, actor).rec)
  {}

  lemma BeginEffectEvolves(now: Time, r: JobRecord, elsewhere: bool, t: Token, key: string, actor: string)
    requires RecordInv(r)
    ensures Evolves(r, BeginEffectOn(now, r, elsewhere, t, key, actor).rec)
  {}

  /** Changing the row of a job that is not terminal, and logging it. */
  lemma RowEvolves(r: JobRecord, r': JobRecord)
    requires !Terminal(r.row.status) && r'.row.def == r.row.def && r'.row.createdAt == r.row.createdAt
    requires r'.row.priority == r.row.priority && r.events <= r'.events
    requires r'.attempts == r.attempts && r'.gates == r.gates && r'.effects == r.effects
    ensures Evolves(r, r')
  {}

  lemma FailEvolves(now: Time, r: JobRecord, t: Token, code: string, summary: string, retryable: bool, delay: int,
                    actor: string)
    ensures Evolves(r, FailOn(now, r, t, code, summary, retryable, delay, actor).rec)
  {
    EvolvesReflexive(r);
    var answer := FailOn(now, r, t, code, summary, retryable, delay, actor);
    if answer.reply != Raised { RowEvolves(r, answer.rec); }
  }

  lemma StartEvolves(now: Time, r: JobRecord, t: Token, actor: string)
    ensures Evolves(r, StartOn(now, r, t, actor).rec)
  {}

  lemma HeartbeatEvolves(now: Time, r: JobRecord, t: Token, seconds: int)
    ensures Evolves(r, HeartbeatOn(now, r, t, seconds).rec)
  {}

  lemma CompleteEvolves(now: Time, r: JobRecord, t: Token, result: Option<Json>, actor: string)
    ensures Evolves(r, CompleteOn(now, r, t, result, actor).rec)
  {}

  lemma CallEvolves(now: Time, r: JobRecord, elsewhere: bool, t: Token, c: Call)
    requires RecordInv(r)
    ensures Evolves(r, CallOn(now, r, elsewhere, t, c).rec)
  {
    match c
    case RecordGate(d, e, actor) => RecordGateEvolves(now, r, t, d, e, actor);
    case Start(actor) => StartEvolves(now, r, t, actor);
    case Heartbeat(seconds) => HeartbeatEvolves(now, r, t, seconds);
    case BeginEffect(key, actor) => BeginEffectEvolves(now, r, elsewhere, t, key, actor);
    case CommitEffect(key, receipt, actor) =>
      CommitUpdateEvolves(now, r, FindAttempt(r.attempts, t), key, receipt, actor);
    case Complete(result, actor) => CompleteEvolves(now, r, t, result, actor);
    case Fail(code, summary, retryable, delay, actor) => FailEvolves(now, r, t, code, summary, retryable, delay, actor);
  }

  lemma CommitUpdateEvolves(now: Time, r: JobRecord, a: Option<nat>, key: string, receipt: Option<string>,
                            actor: string)
    ensures Evolves(r, CommitUpdateOn(now, r, a, key, receipt, actor).rec)
  {}

  lemma LeaseEvolves(now: Time, r: JobRecord, worker: string, seconds: int, t: Token)
    requires RecordInv(r)
    ensures Evolves(r, LeaseOn(now, r, worker, seconds, t))
  {}

  lemma ReapEvolves(now: Time, r: JobRecord, actor: string)
    ensures Evolves(r, ReapOn(now, r, actor))
  {
    EvolvesReflexive(r);
    if Expired(now, r.row) { RowEvolves(r, ReapOn(now, r, actor)); }
  }

  lemma CancelEvolves(now: Time, r: JobRecord, reason: string, actor: string)
    ensures Evolves(r, CancelOn(now, r, reason, actor))
  {}

  lemma StepEvolves(now: Time, r: JobRecord, step: RecordStep)
    requires RecordInv(r)
    ensures Evolves(r, StepOn(now, r, step))
  {
    match step
    case Idle => EvolvesReflexive(r);
    case TakeLease(worker, seconds, t) => LeaseEvolves(now, r, worker, seconds, t);
    case TokenCall(elsewhere, t, c) => CallEvolves(now, r, elsewhere, t, c);
    case Reap(actor) => ReapEvolves(now, r, actor);
    case Cancel(reason, actor) => CancelEvolves(now, r, reason, actor);
  }

  // ---- fencing ----

  /** A token this job once issued that no longer stands for a live lease. */
  predicate Superseded(now: Time, r: JobRecord, t: Token) {
    FindAttempt(r.attempts, t).Some? && !Live(now, r.row, t)
  }

  /** Every call carrying such a token raises and changes nothing. */
  lemma SupersededRaises(now: Time, r: JobRecord, elsewhere: bool, t: Token, c: Call)
    requires Superseded(now, r, t)
    ensures CallOn(now, r, elsewhere, t, c) == Answer(r, Raised)
  {}

  /** A call that changes the lease carries its token, and never sets another one. */
  lemma CallKeepsToken(now: Time, r: JobRecord, elsewhere: bool, t: Token, c: Call)
    ensures var r' := CallOn(now, r, elsewhere, t, c).rec;
            && r'.attempts == r.attempts && r'.row.def == r.row.def
            && (r'.row == r.row || (r.row.leaseToken == Some(t) && r'.row.leaseToken in {None, Some(t)}))
  {}

  /** Once superseded or expired, a token stays so. */
  lemma SupersededStep(now: Time, later: Time, r: JobRecord, step: RecordStep, t: Token)
    requires Superseded(now, r, t) && now <= later
    ensures Superseded(later, StepOn(now, r, step), t)
  {
    match step
    case Idle =>
    case TakeLease(worker, seconds, issued) =>
      var r' := StepOn(now, r, step);
      if r' != r {
        assert r'.attempts[..|r'.attempts| - 1] == r.attempts;
        assert issued != t;
      }
    case TokenCall(elsewhere, u, c) =>
      if u == t { SupersededRaises(now, r, elsewhere, t, c); } else { CallKeepsToken(now, r, elsewhere, u, c); }
    case Reap(_) =>
    case Cancel(_, _) =>
  }

  /** No step changes the definition of a job. */
  lemma StepKeepsDefinition(now: Time, r: JobRecord, step: RecordStep)
    ensures StepOn(now, r, step).row.def == r.row.def
  {
    if step.TokenCall? { CallKeepsToken(now, r, step.elsewhere, step.token, step.call); }
  }

  // ---- operations act on each record separately ----

  /** What an operation of the whole ledger does to one existing job. */
  ghost function StepFor(s: State, op: Op, j: JobId): RecordStep
    requires j in s.recs
  {
    match op
    case SubmitJob(_, _, _, _, _) => Idle
    case LeaseNext(worker, seconds, kind, t, locked) =>
      if NextJob(s, kind, locked) == Some(j) then TakeLease(worker, seconds, t) else Idle
    case Invoke(i, t, c) => if i == j then TokenCall(c.BeginEffect? && KeyElsewhere(s, j, c.key), t, c) else Idle
    case ReapExpired(locked, actor) => if ActorOk(actor) && ToReap(s, locked, j) then RecordStep.Reap(actor) else Idle
    case CancelJob(i, reason, actor) => if i == j then RecordStep.Cancel(reason, actor) else Idle
    case Tick(_) => Idle
  }

  lemma ApplyIsStep(s: State, op: Op, j: JobId)
    requires j in s.recs
    ensures j in Apply(s, op).recs && Apply(s, op).recs[j] == StepOn(s.now, s.recs[j], StepFor(s, op, j))
    ensures s.now <= Apply(s, op).now
  {}

  /** A job appears only by submission. */
  lemma ApplyNew(s: State, op: Op, j: JobId)
    requires j !in s.recs && j in Apply(s, op).recs
    ensures op.SubmitJob? && j == op.id && DefinitionOk(op.def) && 0 <= op.priority <= 1000
    ensures JobFor(s, op.def).None?
    ensures Apply(s, op) == Put(s, j, NewRecord(s.now, op.def, op.priority, op.notBefore, op.actor))
  {}

  // ---- the global invariant ----

  predicate SafeRecord(r: JobRecord) {
    RecordInv(r) && WithinBound(r)
  }

  /** UNIQUE (job_kind, idempotency_key). */
  ghost predicate KeysUnique(s: State) {
    forall i, j :: i in s.recs && j in s.recs && SameKey(s.recs[i].row.def, s.recs[j].row.def) ==> i == j
  }

  /** effect_key is a primary key. */
  ghost predicate EffectKeysUnique(s: State) {
    forall i, j, k :: i in s.recs && j in s.recs && k in s.recs[i].effects && k in s.recs[j].effects ==> i == j
  }

  /** Everything but the event chain, which needs commit_job_effect to be atomic. */
  ghost predicate Safe(s: State) {
    (forall j :: j in s.recs ==> SafeRecord(s.recs[j])) && KeysUnique(s) && EffectKeysUnique(s)
  }

  ghost predicate Inv(s: State) {
    Safe(s) && forall j :: j in s.recs ==> HistoryOk(s.recs[j])
  }

  lemma NewSafe(now: Time, d: Definition, priority: int, notBefore: Time, actor: string)
    requires DefinitionOk(d) && 0 <= priority <= 1000
    ensures SafeRecord(NewRecord(now, d, priority, notBefore, actor))
  {
    NewRecordInv(now, d, priority, notBefore, actor);
    NewRecordWithinBound(now, d, priority, notBefore, actor);
  }

  lemma StepSafe(now: Time, r: JobRecord, step: RecordStep)
    requires SafeRecord(r)
    ensures SafeRecord(StepOn(now, r, step)) && Evolves(r, StepOn(now, r, step))
  {
    StepInv(now, r, step);
    StepPays(now, r, step);
    StepEvolves(now, r, step);
  }

  /** A step adds at most one effect key, and only by a begin with no owner elsewhere. */
  lemma StepEffectKeys(now: Time, r: JobRecord, step: RecordStep, k: string)
    requires k in StepOn(now, r, step).effects && k !in r.effects
    ensures step.TokenCall? && step.call.BeginEffect? && step.call.key == k && !step.elsewhere
  {}

  lemma ApplyEffectKeys(s: State, op: Op)
    requires EffectKeysUnique(s)
    ensures EffectKeysUnique(Apply(s, op))
  {
    var s' := Apply(s, op);
    forall i, j, k | i in s'.recs && j in s'.recs && k in s'.recs[i].effects && k in s'.recs[j].effects ensures i == j {
      if i !in s.recs { ApplyNew(s, op, i); } else { ApplyIsStep(s, op, i); }
      if j !in s.recs { ApplyNew(s, op, j); } else { ApplyIsStep(s, op, j); }
      if i in s.recs && j in s.recs && i != j {
        if k !in s.recs[i].effects {
          StepEffectKeys(s.now, s.recs[i], StepFor(s, op, i), k);
        } else if k !in s.recs[j].effects {
          StepEffectKeys(s.now, s.recs[j], StepFor(s, op, j), k);
        }
      }
    }
  }

  ghost predicate AllEvolve(s: State, s': State) {
    s.now <= s'.now && forall j :: j in s.recs ==> j in s'.recs && Evolves(s.recs[j], s'.recs[j])
  }

  lemma AllEvolveTransitive(a: State, b: State, c: State)
    requires AllEvolve(a, b) && AllEvolve(b, c)
    ensures AllEvolve(a, c)
  {
    forall j | j in a.recs ensures j in c.recs && Evolves(a.recs[j], c.recs[j]) {
      EvolvesTransitive(a.recs[j], b.recs[j], c.recs[j]);
    }
  }

  /** A new job has a key no other job has. */
  lemma NewKeyIsUnique(s: State, op: Op, i: JobId, j: JobId)
    requires i !in s.recs && i in Apply(s, op).recs && j in s.recs
    ensures !SameKey(Apply(s, op).recs[i].row.def, s.recs[j].row.def)
  {
    ApplyNew(s, op, i);
    assert !Holds(s, op.def, j);
  }

  lemma ApplyKeepsDefinition(s: State, op: Op, j: JobId)
    requires j in s.recs
    ensures j in Apply(s, op).recs && Apply(s, op).recs[j].row.def == s.recs[j].row.def
  {
    ApplyIsStep(s, op, j);
    StepKeepsDefinition(s.now, s.recs[j], StepFor(s, op, j));
  }

  lemma ApplyKeysUnique(s: State, op: Op)
    requires KeysUnique(s)
    ensures KeysUnique(Apply(s, op))
  {
    var s' := Apply(s, op);
    forall i, j | i in s'.recs && j in s'.recs && SameKey(s'.recs[i].row.def, s'.recs[j].row.def) ensures i == j {
      if i in s.recs { ApplyKeepsDefinition(s, op, i); }
      if j in s.recs { ApplyKeepsDefinition(s, op, j); }
      if i !in s.recs && j !in s.recs {
        ApplyNew(s, op, i);
        ApplyNew(s, op, j);
      } else if i !in s.recs {
        NewKeyIsUnique(s, op, i, j);
      } else if j !in s.recs {
        NewKeyIsUnique(s, op, j, i);
      }
    }
  }

  lemma PutKeysUnique(s: State, j: JobId, r: JobRecord)
    requires KeysUnique(s) && j in s.recs && r.row.def == s.recs[j].row.def
    ensures KeysUnique(Put(s, j, r))
  {}

  lemma AllEvolveReflexive(s: State)
    ensures AllEvolve(s, s)
  {}

  lemma PutEvolves(s: State, j: JobId, r: JobRecord)
    requires j in s.recs && Evolves(s.recs[j], r)
    ensures AllEvolve(s, Put(s, j, r))
  {}

  lemma PutEffectKeys(s: State, j: JobId, r: JobRecord)
    requires EffectKeysUnique(s) && j in s.recs && r.effects.Keys == s.recs[j].effects.Keys
    ensures EffectKeysUnique(Put(s, j, r))
  {}

  /** Replacing one record by one it may evolve into, with the same effect keys. */
  lemma PutSafe(s: State, j: JobId, r: JobRecord)
    requires Safe(s) && j in s.recs && SafeRecord(r) && Evolves(s.recs[j], r)
    requires r.effects.Keys == s.recs[j].effects.Keys
    ensures Safe(Put(s, j, r)) && AllEvolve(s, Put(s, j, r))
  {
    PutKeysUnique(s, j, r);
    PutEffectKeys(s, j, r);
    PutEvolves(s, j, r);
  }

  lemma ApplySafe(s: State, op: Op)
    requires Safe(s)
    ensures Safe(Apply(s, op)) && AllEvolve(s, Apply(s, op))
  {
    var s' := Apply(s, op);
    forall j | j in s.recs ensures j in s'.recs && SafeRecord(s'.recs[j]) && Evolves(s.recs[j], s'.recs[j]) {
      ApplyIsStep(s, op, j);
      StepSafe(s.now, s.recs[j], StepFor(s, op, j));
    }
    forall j | j in s'.recs && j !in s.recs ensures SafeRecord(s'.recs[j]) {
      ApplyNew(s, op, j);
      NewSafe(s.now, op.def, op.priority, op.notBefore, op.actor);
    }
    ApplyKeysUnique(s, op);
    ApplyEffectKeys(s, op);
  }

  lemma ApplyInv(s: State, op: Op)
    requires Inv(s)
    ensures Inv(Apply(s, op)) && AllEvolve(s, Apply(s, op))
  {
    ApplySafe(s, op);
    forall j | j in Apply(s, op).recs ensures HistoryOk(Apply(s, op).recs[j]) {
      if j in s.recs {
        ApplyIsStep(s, op, j);
        StepHistory(s.now, s.recs[j], StepFor(s, op, j));
      } else {
        ApplyNew(s, op, j);
        NewRecordHistory(s.now, op.def, op.priority, op.notBefore, op.actor);
      }
    }
  }

  /** The invariant holds in every state of every run, and every record
      evolves from what it was. */
  lemma {:induction false} RunInv(s: State, ops: seq<Op>)
    requires Inv(s)
    ensures Inv(Run(s, ops)) && AllEvolve(s, Run(s, ops))
    decreases |ops|
  {
    if |ops| == 0 {
    } else {
      ApplyInv(s, ops[0]);
      RunInv(Apply(s, ops[0]), ops[1..]);
      AllEvolveTransitive(s, Apply(s, ops[0]), Run(s, ops));
    }
  }

  ghost predicate Reachable(s: State) {
    exists start, ops :: s == Run(Empty(start), ops)
  }

  lemma ReachableInv(s: State)
    requires Reachable(s)
    ensures Inv(s)
  {
    var start, ops :| s == Run(Empty(start), ops);
    RunInv(Empty(start), ops);
  }

  // ---- what follows for every reachable state and every run from it ----

  /** What quarantine means for the record of a job. */
  ghost predicate Sealed(r: JobRecord) {
    && Newest(r).Some? && Allowed(r, Newest(r))
    && (forall k :: k in r.effects ==> Some(r.effects[k].attempt) == Newest(r))
    && r.row.status in {Running, ReconciliationRequired, Succeeded, Cancelled}
    && forall now :: !Leasable(now, r.row)
  }

  lemma QuarantinedIsSealed(r: JobRecord)
    requires RecordInv(r) && Quarantined(r)
    ensures Sealed(r)
  {}

  /** Once an attempt owns an effect it is the job's last attempt in every
      later state, and the job never becomes leasable again. */
  lemma QuarantineIsPermanent(s: State, ops: seq<Op>, j: JobId)
    requires Reachable(s) && j in s.recs && Quarantined(s.recs[j])
    ensures var s' := Run(s, ops);
            j in s'.recs && s'.recs[j].attempts == s.recs[j].attempts && Sealed(s'.recs[j])
  {
    ReachableInv(s);
    RunInv(s, ops);
    QuarantinedIsSealed(Run(s, ops).recs[j]);
  }

  /** The log of every job is a chain, and reading it rebuilds the tables. */
  lemma EventLogReplays(s: State, j: JobId)
    requires Reachable(s) && j in s.recs
    ensures Chained(s.recs[j].events) && Replay(s.recs[j].events) == Some(Stored(s.recs[j]))
  {
    ReachableInv(s);
  }

  /** No job ever logs more than 4 * max_attempts + 2 events besides the effect ones. */
  lemma EventLogIsBounded(s: State, j: JobId)
    requires Reachable(s) && j in s.recs
    ensures Counted(s.recs[j].events) <= 4 * s.recs[j].row.def.maxAttempts + 2
  {
    ReachableInv(s);
    StepPays(s.now, s.recs[j], Idle);
  }

  /** Leases are attempts, numbered 1..lease_count, each charged or refunded. */
  lemma BudgetIsConserved(s: State, j: JobId)
    requires Reachable(s) && j in s.recs
    ensures var r := s.recs[j];
            && r.row.attemptCount + Refunds(r.events) == r.row.leaseCount == |r.attempts|
            && 0 <= r.row.attemptCount <= r.row.def.maxAttempts
            && forall i :: 0 <= i < |r.attempts| ==> r.attempts[i].number == i + 1
  {
    ReachableInv(s);
  }

  /** GREATEST(attempt_count - 1, 0) always takes its first argument. */
  lemma RefundNeverClamps(s: State, j: JobId, t: Token, e: GateEvidence, actor: string)
    requires Reachable(s) && j in s.recs
    ensures var r := s.recs[j];
            var answer := RecordGateOn(s.now, r, t, ApprovalRequired, e, actor);
            answer.reply != Raised ==> answer.rec.row.attemptCount == r.row.attemptCount - 1
  {
    ReachableInv(s);
  }

  /** Nothing side-effecting runs, or leaves an effect, without an allow
      decision for its own attempt; success means every effect is committed. */
  lemma EvidenceIsComplete(s: State, j: JobId)
    requires Reachable(s) && j in s.recs && s.recs[j].row.def.sideEffecting
    ensures var r := s.recs[j];
            && (r.row.status == Running ==> Allowed(r, Newest(r)))
            && (forall k :: k in r.effects ==> Allowed(r, Some(r.effects[k].attempt)))
            && (r.row.status == Succeeded ==>
                  r.effects != map[] && forall k :: k in r.effects ==> r.effects[k].state == EffectCommitted)
  {
    ReachableInv(s);
  }

  /** The CHECK constraints hold everywhere, so none of them ever makes a function raise. */
  lemma ChecksAlwaysHold(s: State, j: JobId)
    requires Reachable(s) && j in s.recs
    ensures ChecksHold(s.recs[j].row) && TokensDistinct(s.recs[j].attempts)
    ensures Holding(s.recs[j].row.status) ==>
              |s.recs[j].attempts| > 0
                  && s.recs[j].row.leaseToken == Some(s.recs[j].attempts[|s.recs[j].attempts| - 1].token)
  {
    ReachableInv(s);
  }

  lemma {:induction false} SupersededRun(s: State, ops: seq<Op>, j: JobId, t: Token)
    requires j in s.recs && Superseded(s.now, s.recs[j], t)
    ensures j in Run(s, ops).recs && Superseded(Run(s, ops).now, Run(s, ops).recs[j], t)
    decreases |ops|
  {
    if |ops| > 0 {
      ApplyIsStep(s, ops[0], j);
      SupersededStep(s.now, Apply(s, ops[0]).now, s.recs[j], StepFor(s, ops[0], j), t);
      SupersededRun(Apply(s, ops[0]), ops[1..], j, t);
    }
  }

  /** An expired or superseded token is refused in every later state: whatever
      it is used for, the call raises and the ledger stays as it is. */
  lemma FencedForever(s: State, ops: seq<Op>, j: JobId, t: Token, c: Call)
    requires j in s.recs && Superseded(s.now, s.recs[j], t)
    ensures InvokeAnswer(Run(s, ops), j, t, c) == (Run(s, ops), Raised)
  {
    SupersededRun(s, ops, j, t);
    var s' := Run(s, ops);
    SupersededRaises(s'.now, s'.recs[j], c.BeginEffect? && KeyElsewhere(s', j, c.key), t, c);
    assert Put(s', j, s'.recs[j]) == s';
  }

  lemma TerminalStep(now: Time, r: JobRecord, step: RecordStep)
    requires RecordInv(r) && Terminal(r.row.status)
    ensures StepOn(now, r, step) == r
  {}

  /** A terminal job keeps its whole record in every later state. */
  lemma {:induction false} TerminalIsFinal(s: State, ops: seq<Op>, j: JobId)
    requires Inv(s) && j in s.recs && Terminal(s.recs[j].row.status)
    ensures j in Run(s, ops).recs && Run(s, ops).recs[j] == s.recs[j]
    decreases |ops|
  {
    if |ops| > 0 {
      ApplyIsStep(s, ops[0], j);
      TerminalStep(s.now, s.recs[j], StepFor(s, ops[0], j));
      ApplyInv(s, ops[0]);
      TerminalIsFinal(Apply(s, ops[0]), ops[1..], j);
    }
  }

  /** waiting_approval has no exit but cancellation. */
  lemma WaitingOnlyCancelled(now: Time, r: JobRecord, step: RecordStep)
    requires RecordInv(r) && r.row.status == WaitingApproval && StepOn(now, r, step) != r
    ensures step.Cancel? && StepOn(now, r, step).row.status == Cancelled
  {}

  /** After a successful submission the returned job has the submitted definition. */
  lemma SubmittedJob(s: State, id: JobId, d: Definition, priority: int, notBefore: Time, actor: string)
    requires SubmittedId(s, id, d, priority, actor).Some?
    ensures var first := SubmittedId(s, id, d, priority, actor).value;
            var s' := Submit(s, id, d, priority, notBefore, actor);
            first in s'.recs && s'.recs[first].row.def == d
  {}

  lemma ResubmitHere(s: State, first: JobId, d: Definition, id: JobId, priority: int, notBefore: Time, actor: string)
    requires KeysUnique(s) && first in s.recs && SameKey(s.recs[first].row.def, d)
    requires DefinitionOk(d) && 0 <= priority <= 1000
    ensures SubmittedId(s, id, d, priority, actor) == (if s.recs[first].row.def == d then Some(first) else None)
    ensures Submit(s, id, d, priority, notBefore, actor) == s
  {
    assert Holds(s, d, first);
    var found := JobFor(s, d);
    assert Holds(s, d, found.value);
    assert SameKey(s.recs[found.value].row.def, s.recs[first].row.def);
  }

  /** Submitting the same definition again, at any later time and under any new
      id, returns the job of the first submission and changes nothing; a
      different definition under the same key is refused and changes nothing. */
  lemma ResubmissionIsStable(s: State, id: JobId, d: Definition, priority: int, notBefore: Time, actor: string,
                             ops: seq<Op>, d': Definition, id': JobId, priority': int, notBefore': Time, actor': string)
    requires Reachable(s) && SubmittedId(s, id, d, priority, actor).Some?
    requires SameKey(d, d') && DefinitionOk(d') && 0 <= priority' <= 1000
    ensures var first := SubmittedId(s, id, d, priority, actor);
            var s' := Run(Submit(s, id, d, priority, notBefore, actor), ops);
            && SubmittedId(s', id', d', priority', actor') == (if d' == d then first else None)
            && Submit(s', id', d', priority', notBefore', actor') == s'
  {
    ReachableInv(s);
    var op := SubmitJob(id, d, priority, notBefore, actor);
    var s1 := Apply(s, op);
    ApplyInv(s, op);
    SubmittedJob(s, id, d, priority, notBefore, actor);
    RunInv(s1, ops);
    var first := SubmittedId(s, id, d, priority, actor).value;
    ResubmitHere(Run(s1, ops), first, d', id', priority', notBefore', actor');
  }

  // ---- time ----

  /** A fresh lease is live for exactly the seconds asked for, and only under its own token. */
  lemma LeaseLasts(now: Time, r: JobRecord, worker: string, seconds: int, t: Token, later: Time, u: Token)
    requires LeaseOn(now, r, worker, seconds, t) != r
    ensures Live(later, LeaseOn(now, r, worker, seconds, t).row, u) <==> u == t && later < now + seconds * SECOND
  {}

  /** A heartbeat sets the remaining time, it does not add to it. */
  lemma HeartbeatLasts(now: Time, r: JobRecord, t: Token, seconds: int, later: Time)
    requires HeartbeatOn(now, r, t, seconds).reply != Raised
    ensures Live(later, HeartbeatOn(now, r, t, seconds).rec.row, t) <==> later < now + seconds * SECOND
  {}

  /** A failed attempt is retried exactly from the end of its delay on, if it is retried at all. */
  lemma RetryWaitsOutDelay(now: Time, r: JobRecord, t: Token, code: string, summary: string, retryable: bool,
                           delay: int, actor: string, later: Time)
    requires FailOn(now, r, t, code, summary, retryable, delay, actor).reply != Raised
    ensures var answer := FailOn(now, r, t, code, summary, retryable, delay, actor);
            Leasable(later, answer.rec.row) <==>
              !HasEffect(r, FindAttempt(r.attempts, t)) && retryable && r.row.attemptCount < r.row.def.maxAttempts
              && now + Max(0, delay) * SECOND <= later
  {}

  /** An expired lease without effects is leasable again at once, within the budget. */
  lemma ReapedIsLeasable(now: Time, r: JobRecord, actor: string)
    requires RecordInv(r) && Expired(now, r.row)
    ensures Leasable(now, ReapOn(now, r, actor).row)
        <==> r.effects == map[] && r.row.attemptCount < r.row.def.maxAttempts
  {
    CurrentAttempt(r);
  }
}
