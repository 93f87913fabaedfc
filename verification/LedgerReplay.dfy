/** The append-only event log determines the operational state of a job, and
    its length is bounded by the retry budget. */
module LedgerReplay {
  import opened Basics
  import opened LedgerTypes
  import opened LedgerSpec
  import opened LedgerInvariant

  // ---- replay ----

  datatype EffectView = EffectView(attempt: Option<nat>, state: EffectState, receipt: Option<string>)

  /** The part of the tables the event log can rebuild. */
  datatype Rebuilt = Rebuilt(
    status: Status, leaseCount: int, attemptCount: int, result: Option<Json>, effects: map<string, EffectView>)

  function Stored(r: JobRecord): Rebuilt {
    Rebuilt(r.row.status, r.row.leaseCount, r.row.attemptCount, r.row.result,
            map k | k in r.effects :: EffectView(Some(r.effects[k].attempt), r.effects[k].state, r.effects[k].receipt))
  }

  /** Reads one event; only a submission can start a log. */
  function Read(before: Option<Rebuilt>, e: Event): Option<Rebuilt> {
    match (before, e.kind)
    case (None, EvSubmitted(_)) => Some(Rebuilt(e.to, 0, 0, None, map[]))
    case (None, _) => None
    case (Some(b), EvSubmitted(_)) => None
    case (Some(b), EvLeased(_, _, _, _)) =>
      Some(b.(status := e.to, leaseCount := b.leaseCount + 1, attemptCount := b.attemptCount + 1))
    case (Some(b), EvWaitingApproval(_)) => Some(b.(status := e.to, attemptCount := b.attemptCount - 1))
    case (Some(b), EvEffectStarted(key)) =>
      Some(b.(status := e.to, effects := b.effects[key := EffectView(e.attempt, EffectStarted, None)]))
    case (Some(b), EvEffectCommitted(key, receipt)) =>
      Some(b.(status := e.to, effects := b.effects[key := EffectView(e.attempt, EffectCommitted, receipt)]))
    case (Some(b), EvSucceeded(result)) => Some(b.(status := e.to, result := Some(result)))
    case (Some(b), _) => Some(b.(status := e.to))
  }

  function Replay(events: seq<Event>): Option<Rebuilt> {
    if |events| == 0 then None else Read(Replay(events[..|events| - 1]), events[|events| - 1])
  }

  predicate FromMatches(before: Option<Rebuilt>, from: Option<FromStatus>) {
    match from
    case None => before.None?
    case Some(Known(status)) => before.Some? && before.value.status == status
    case Some(QueuedOrRetryWait) => before.Some? && before.value.status in {Queued, RetryWait}
  }

  /** The counters some events carry agree with what the log says so far. */
  predicate CountersMatch(before: Option<Rebuilt>, e: Event) {
    match e.kind
    case EvLeased(_, sequence, consumed, _) =>
      before.Some? && sequence == before.value.leaseCount + 1 && consumed == before.value.attemptCount + 1
    case EvLeaseExpired(consumed, sequence) =>
      before.Some? && consumed == before.value.attemptCount && sequence == before.value.leaseCount
    case _ => true
  }

  /** Each event starts where the one before it ended. */
  predicate Chained(events: seq<Event>) {
    |events| == 0 || (
      var before := Replay(events[..|events| - 1]);
      var last := events[|events| - 1];
      Chained(events[..|events| - 1]) && FromMatches(before, last.from) && CountersMatch(before, last))
  }

  predicate HistoryOk(r: JobRecord) {
    Chained(r.events) && Replay(r.events) == Some(Stored(r))
  }

  lemma ReplaySnoc(events: seq<Event>, e: Event)
    ensures Replay(events + [e]) == Read(Replay(events), e)
    ensures Chained(events + [e])
        <==> Chained(events) && FromMatches(Replay(events), e.from) && CountersMatch(Replay(events), e)
  {}

  lemma NewRecordHistory(now: Time, d: Definition, priority: int, notBefore: Time, actor: string)
    ensures HistoryOk(NewRecord(now, d, priority, notBefore, actor))
  {
    var r := NewRecord(now, d, priority, notBefore, actor);
    assert r.events == [] + [r.events[0]];
    ReplaySnoc([], r.events[0]);
    assert Stored(r).effects == map[];
  }

  /** A step that leaves the effects alone keeps their stored view. */
  lemma SameEffects(r: JobRecord, r': JobRecord)
    requires r'.effects == r.effects
    ensures Stored(r').effects == Stored(r).effects
  {}

  lemma StoredEffects(r: JobRecord, r': JobRecord, key: string, e: Effect)
    requires r'.effects == r.effects[key := e]
    ensures Stored(r').effects == Stored(r).effects[key := EffectView(Some(e.attempt), e.state, e.receipt)]
  {}

  /** Logging an event that reads as the change made to the tables keeps the history. */
  lemma LoggedHistory(r: JobRecord, r': JobRecord, e: Event)
    requires HistoryOk(r) && r'.events == r.events + [e]
    requires FromMatches(Some(Stored(r)), e.from) && CountersMatch(Some(Stored(r)), e)
    requires Read(Some(Stored(r)), e) == Some(Stored(r'))
    ensures HistoryOk(r')
  {}

  lemma BeginEffectHistory(now: Time, r: JobRecord, elsewhere: bool, t: Token, key: string, actor: string)
    requires RecordInv(r) && HistoryOk(r)
    ensures HistoryOk(BeginEffectOn(now, r, elsewhere, t, key, actor).rec)
  {
    var r' := BeginEffectOn(now, r, elsewhere, t, key, actor).rec;
    if |r'.events| > |r.events| {
      CurrentAttempt(r);
      StoredEffects(r, r', key, r'.effects[key]);
      LoggedHistory(r, r', r'.events[|r.events|]);
    }
  }

  lemma CommitEffectHistory(now: Time, r: JobRecord, t: Token, key: string, receipt: Option<string>, actor: string)
    requires RecordInv(r) && HistoryOk(r)
    ensures HistoryOk(CommitEffectOn(now, r, t, key, receipt, actor).rec)
  {
    var r' := CommitEffectOn(now, r, t, key, receipt, actor).rec;
    if |r'.events| > |r.events| {
      CurrentAttempt(r);
      StoredEffects(r, r', key, r'.effects[key]);
      LoggedHistory(r, r', r'.events[|r.events|]);
    }
  }

  lemma RecordGateHistory(now: Time, r: JobRecord, t: Token, d: Decision, e: GateEvidence, actor: string)
    requires RecordInv(r) && HistoryOk(r)
    ensures HistoryOk(RecordGateOn(now, r, t, d, e, actor).rec)
  {
    var r' := RecordGateOn(now, r, t, d, e, actor).rec;
    SameEffects(r, r');
    if |r'.events| > |r.events| { LoggedHistory(r, r', r'.events[|r.events|]); }
  }

  lemma StartHistory(now: Time, r: JobRecord, t: Token, actor: string)
    requires RecordInv(r) && HistoryOk(r)
    ensures HistoryOk(StartOn(now, r, t, actor).rec)
  {}

  lemma CompleteHistory(now: Time, r: JobRecord, t: Token, result: Option<Json>, actor: string)
    requires RecordInv(r) && HistoryOk(r)
    ensures HistoryOk(CompleteOn(now, r, t, result, actor).rec)
  {
    var r' := CompleteOn(now, r, t, result, actor).rec;
    SameEffects(r, r');
    if |r'.events| > |r.events| { LoggedHistory(r, r', r'.events[|r.events|]); }
  }

  lemma FailHistory(now: Time, r: JobRecord, t: Token, code: string, summary: string, retryable: bool, delay: int,
                    actor: string)
    requires RecordInv(r) && HistoryOk(r)
    ensures HistoryOk(FailOn(now, r, t, code, summary, retryable, delay, actor).rec)
  {}

  lemma CallHistory(now: Time, r: JobRecord, elsewhere: bool, t: Token, c: Call)
    requires RecordInv(r) && HistoryOk(r)
    ensures HistoryOk(CallOn(now, r, elsewhere, t, c).rec)
  {
    match c
    case RecordGate(d, e, actor) => RecordGateHistory(now, r, t, d, e, actor);
    case BeginEffect(key, actor) => BeginEffectHistory(now, r, elsewhere, t, key, actor);
    case CommitEffect(key, receipt, actor) => CommitEffectHistory(now, r, t, key, receipt, actor);
    case Start(actor) => StartHistory(now, r, t, actor);
    case Heartbeat(seconds) => SameEffects(r, HeartbeatOn(now, r, t, seconds).rec);
    case Complete(result, actor) => CompleteHistory(now, r, t, result, actor);
    case Fail(code, summary, retryable, delay, actor) => FailHistory(now, r, t, code, summary, retryable, delay, actor);
  }

  lemma LeaseHistory(now: Time, r: JobRecord, worker: string, seconds: int, t: Token)
    requires RecordInv(r) && HistoryOk(r)
    ensures HistoryOk(LeaseOn(now, r, worker, seconds, t))
  {}

  lemma ReapHistory(now: Time, r: JobRecord, actor: string)
    requires RecordInv(r) && HistoryOk(r)
    ensures HistoryOk(ReapOn(now, r, actor))
  {
    var r' := ReapOn(now, r, actor);
    SameEffects(r, r');
    if |r'.events| > |r.events| { LoggedHistory(r, r', r'.events[|r.events|]); }
  }

  lemma CancelHistory(now: Time, r: JobRecord, reason: string, actor: string)
    requires RecordInv(r) && HistoryOk(r)
    ensures HistoryOk(CancelOn(now, r, reason, actor))
  {}

  lemma StepHistory(now: Time, r: JobRecord, step: RecordStep)
    requires RecordInv(r) && HistoryOk(r)
    ensures HistoryOk(StepOn(now, r, step))
  {
    match step
    case Idle =>
    case TakeLease(worker, seconds, t) => LeaseHistory(now, r, worker, seconds, t);
    case TokenCall(elsewhere, t, c) => CallHistory(now, r, elsewhere, t, c);
    case Reap(actor) => ReapHistory(now, r, actor);
    case Cancel(reason, actor) => CancelHistory(now, r, reason, actor);
  }

  // ---- a bound on the log ----

  /** Events other than effect_started and effect_committed. */
  function Counted(events: seq<Event>): nat {
    if |events| == 0 then 0
    else
      var kind := events[|events| - 1].kind;
      Counted(events[..|events| - 1]) + if kind.EvEffectStarted? || kind.EvEffectCommitted? then 0 else 1
  }

  /** How many such events a job can still log. */
  function Fuel(r: JobRecord): int {
    var leasesLeft := r.row.def.maxAttempts - r.row.attemptCount;
    match r.row.status
    case Queued => 4 * leasesLeft + 1
    case RetryWait => 4 * leasesLeft + 1
    case Leased => 4 * leasesLeft + if Newest(r).Some? && Newest(r).value in r.gates then 3 else 4
    case Running => 4 * leasesLeft + 2
    case WaitingApproval => 1
    case ReconciliationRequired => 1
    case _ => 0
  }

  lemma CountedSnoc(events: seq<Event>, e: Event)
    ensures Counted(events + [e])
        == Counted(events) + if e.kind.EvEffectStarted? || e.kind.EvEffectCommitted? then 0 else 1
  {}

  /** The cost of one step: every event but the effect ones costs fuel. */
  predicate Pays(r: JobRecord, r': JobRecord) {
    0 <= Fuel(r') && Counted(r'.events) - Counted(r.events) <= Fuel(r) - Fuel(r')
  }

  lemma LoggedPays(r: JobRecord, r': JobRecord, e: Event)
    requires r'.events == r.events + [e] && 0 <= Fuel(r')
    requires Fuel(r') + (if e.kind.EvEffectStarted? || e.kind.EvEffectCommitted? then 0 else 1) <= Fuel(r)
    ensures Pays(r, r')
  {
    CountedSnoc(r.events, e);
  }

  /** The bounds on attempt_count that keep fuel from running below zero. */
  predicate InBudget(r: JobRecord) {
    r.row.attemptCount <= r.row.def.maxAttempts && (Holding(r.row.status) ==> 1 <= r.row.attemptCount)
  }

  lemma RecordGatePays(now: Time, r: JobRecord, t: Token, d: Decision, e: GateEvidence, actor: string)
    requires RecordInv(r)
    ensures Pays(r, RecordGateOn(now, r, t, d, e, actor).rec)
  {
    var answer := RecordGateOn(now, r, t, d, e, actor);
    if answer.reply != Raised {
      CurrentAttempt(r);
      GateUsesFuel(r, answer.rec);
      LoggedPays(r, answer.rec, LastEvent(answer.rec));
    }
  }

  /** A decision is one event, and leaves less to come. */
  lemma GateUsesFuel(r: JobRecord, r': JobRecord)
    requires InBudget(r) && r.row.status == Leased && Newest(r).Some? && Newest(r).value !in r.gates
    requires r'.attempts == r.attempts && Newest(r').value in r'.gates && r'.row.def == r.row.def
    requires r'.row.status in {Leased, WaitingApproval, Denied}
    requires r'.row.status == Leased ==> r'.row.attemptCount == r.row.attemptCount
    ensures 0 <= Fuel(r') < Fuel(r)
  {}

  lemma FailPays(now: Time, r: JobRecord, t: Token, code: string, summary: string, retryable: bool, delay: int,
                 actor: string)
    requires RecordInv(r)
    ensures Pays(r, FailOn(now, r, t, code, summary, retryable, delay, actor).rec)
  {
    var answer := FailOn(now, r, t, code, summary, retryable, delay, actor);
    if answer.reply != Raised {
      EndUsesFuel(r, answer.rec);
      LoggedPays(r, answer.rec, LastEvent(answer.rec));
    }
  }

  /** The end of an attempt without success is one event, and leaves less to come. */
  lemma EndUsesFuel(r: JobRecord, r': JobRecord)
    requires InBudget(r) && Holding(r.row.status) && r'.row.def == r.row.def
        && r'.row.attemptCount == r.row.attemptCount
    requires r'.row.status in {ReconciliationRequired, RetryWait, DeadLetter, Failed}
    ensures 0 <= Fuel(r') < Fuel(r)
  {}

  lemma CompletePays(now: Time, r: JobRecord, t: Token, result: Option<Json>, actor: string)
    requires RecordInv(r)
    ensures Pays(r, CompleteOn(now, r, t, result, actor).rec)
  {
    var answer := CompleteOn(now, r, t, result, actor);
    if answer.reply != Raised { LoggedPays(r, answer.rec, LastEvent(answer.rec)); }
  }

  lemma BeginEffectPays(now: Time, r: JobRecord, elsewhere: bool, t: Token, key: string, actor: string)
    requires RecordInv(r)
    ensures Pays(r, BeginEffectOn(now, r, elsewhere, t, key, actor).rec)
  {
    var r' := BeginEffectOn(now, r, elsewhere, t, key, actor).rec;
    if r' != r { LoggedPays(r, r', LastEvent(r')); }
  }

  lemma CommitUpdatePays(now: Time, r: JobRecord, a: Option<nat>, key: string, receipt: Option<string>, actor: string)
    requires 0 <= Fuel(r)
    ensures Pays(r, CommitUpdateOn(now, r, a, key, receipt, actor).rec)
  {
    var r' := CommitUpdateOn(now, r, a, key, receipt, actor).rec;
    if |r'.events| > |r.events| { LoggedPays(r, r', LastEvent(r')); }
  }

  lemma FuelIsNotNegative(r: JobRecord)
    requires RecordInv(r)
    ensures 0 <= Fuel(r) && InBudget(r)
  {}

  lemma StartPays(now: Time, r: JobRecord, t: Token, actor: string)
    requires RecordInv(r)
    ensures Pays(r, StartOn(now, r, t, actor).rec)
  {
    var answer := StartOn(now, r, t, actor);
    if answer.reply != Raised { LoggedPays(r, answer.rec, LastEvent(answer.rec)); }
  }

  lemma CallPays(now: Time, r: JobRecord, elsewhere: bool, t: Token, c: Call)
    requires RecordInv(r)
    ensures Pays(r, CallOn(now, r, elsewhere, t, c).rec)
  {
    match c
    case RecordGate(d, e, actor) => RecordGatePays(now, r, t, d, e, actor);
    case Start(actor) => StartPays(now, r, t, actor);
    case Heartbeat(seconds) =>
    case BeginEffect(key, actor) => BeginEffectPays(now, r, elsewhere, t, key, actor);
    case CommitEffect(key, receipt, actor) =>
      FuelIsNotNegative(r);
      CommitUpdatePays(now, r, FindAttempt(r.attempts, t), key, receipt, actor);
    case Complete(result, actor) => CompletePays(now, r, t, result, actor);
    case Fail(code, summary, retryable, delay, actor) => FailPays(now, r, t, code, summary, retryable, delay, actor);
  }

  lemma LeasePays(now: Time, r: JobRecord, worker: string, seconds: int, t: Token)
    requires RecordInv(r)
    ensures Pays(r, LeaseOn(now, r, worker, seconds, t))
  {
    var r' := LeaseOn(now, r, worker, seconds, t);
    if r' != r { LoggedPays(r, r', LastEvent(r')); }
  }

  lemma ReapPays(now: Time, r: JobRecord, actor: string)
    requires RecordInv(r)
    ensures Pays(r, ReapOn(now, r, actor))
  {
    if Expired(now, r.row) {
      EndUsesFuel(r, ReapOn(now, r, actor));
      LoggedPays(r, ReapOn(now, r, actor), LastEvent(ReapOn(now, r, actor)));
    }
  }

  lemma CancelPays(now: Time, r: JobRecord, reason: string, actor: string)
    requires RecordInv(r)
    ensures Pays(r, CancelOn(now, r, reason, actor))
  {
    if Cancellable(r.row.status) && ActorOk(actor) {
      LoggedPays(r, CancelOn(now, r, reason, actor), LastEvent(CancelOn(now, r, reason, actor)));
    }
  }

  /** Every event but the effect ones uses up fuel. */
  lemma StepPays(now: Time, r: JobRecord, step: RecordStep)
    requires RecordInv(r)
    ensures Pays(r, StepOn(now, r, step))
  {
    match step
    case Idle =>
    case TakeLease(worker, seconds, t) => LeasePays(now, r, worker, seconds, t);
    case TokenCall(elsewhere, t, c) => CallPays(now, r, elsewhere, t, c);
    case Reap(actor) => ReapPays(now, r, actor);
    case Cancel(reason, actor) => CancelPays(now, r, reason, actor);
  }

  predicate WithinBound(r: JobRecord) {
    Counted(r.events) + Fuel(r) <= 4 * r.row.def.maxAttempts + 2
  }

  lemma NewRecordWithinBound(now: Time, d: Definition, priority: int, notBefore: Time, actor: string)
    ensures WithinBound(NewRecord(now, d, priority, notBefore, actor))
  {}
}
