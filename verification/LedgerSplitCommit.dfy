/** commit_job_effect reads the job without FOR UPDATE, so under READ COMMITTED
    other transactions can act between its check and its UPDATE. Here the two
    halves are separate steps and anything may happen in between. */
module LedgerSplitCommit {
  import opened Basics
  import opened LedgerTypes
  import opened LedgerSpec
  import opened LedgerInvariant
  import opened LedgerReplay
  import opened LedgerRuns

  /** A commit_job_effect that has passed its check; `at` is its transaction's now(). */
  datatype Pending = Pending(job: JobId, attempt: Option<nat>, key: string, receipt: Option<string>, actor: string,
                             at: Time)

  datatype SplitState = SplitState(ledger: State, pending: set<Pending>)

  datatype SplitOp =
    | Whole(op: Op)
    | CheckCommit(job: JobId, token: Token, key: string, receipt: Option<string>, actor: string)
    | FinishCommit(commit: Pending)

  predicate CheckPasses(s: State, j: JobId, t: Token) {
    j in s.recs && s.recs[j].row.status == Running && Live(s.now, s.recs[j].row, t)
  }

  function Finish(s: State, p: Pending): State {
    if p.job in s.recs then
      Put(s, p.job, CommitUpdateOn(p.at, s.recs[p.job], p.attempt, p.key, p.receipt, p.actor).rec)
    else s
  }

  /** What the caller of that commit is told. */
  function CommitReply(s: State, p: Pending): Reply {
    if p.job in s.recs then CommitUpdateOn(p.at, s.recs[p.job], p.attempt, p.key, p.receipt, p.actor).reply else Raised
  }

  ghost function SplitApply(s: SplitState, op: SplitOp): SplitState {
    match op
    case Whole(o) => s.(ledger := Apply(s.ledger, o))
    case CheckCommit(j, t, key, receipt, actor) =>
      if CheckPasses(s.ledger, j, t) then
        s.(pending := s.pending
            + {Pending(j, FindAttempt(s.ledger.recs[j].attempts, t), key, receipt, actor, s.ledger.now)})
      else s
    case FinishCommit(p) =>
      if p in s.pending then SplitState(Finish(s.ledger, p), s.pending - {p}) else s
  }

  ghost function SplitRun(s: SplitState, ops: seq<SplitOp>): SplitState
    decreases |ops|
  {
    if |ops| == 0 then s else SplitRun(SplitApply(s, ops[0]), ops[1..])
  }

  /** Check and UPDATE with nothing in between are the whole of commit_job_effect;
      where the check fails, so does the whole. */
  lemma HalvesMakeWhole(s: SplitState, j: JobId, t: Token, key: string, receipt: Option<string>, actor: string)
    ensures var s1 := SplitApply(s, CheckCommit(j, t, key, receipt, actor));
            var whole := InvokeAnswer(s.ledger, j, t, CommitEffect(key, receipt, actor));
            if CheckPasses(s.ledger, j, t) then
              var p := Pending(j, FindAttempt(s.ledger.recs[j].attempts, t), key, receipt, actor, s.ledger.now);
              && p in s1.pending && SplitApply(s1, FinishCommit(p)).ledger == whole.0
              && CommitReply(s.ledger, p) == whole.1
            else s1 == s && whole == (s.ledger, Raised)
  {
    if j in s.ledger.recs { assert Put(s.ledger, j, s.ledger.recs[j]) == s.ledger; }
  }

  /** The late UPDATE keeps everything but the event chain. */
  lemma FinishSafe(s: State, p: Pending)
    requires Safe(s)
    ensures Safe(Finish(s, p)) && AllEvolve(s, Finish(s, p))
  {
    if p.job in s.recs {
      var r := s.recs[p.job];
      CommitUpdateInv(p.at, r, p.attempt, p.key, p.receipt, p.actor);
      CommitUpdateEvolves(p.at, r, p.attempt, p.key, p.receipt, p.actor);
      FuelIsNotNegative(r);
      CommitUpdatePays(p.at, r, p.attempt, p.key, p.receipt, p.actor);
      PutSafe(s, p.job, CommitUpdateOn(p.at, r, p.attempt, p.key, p.receipt, p.actor).rec);
    } else {
      AllEvolveReflexive(s);
    }
  }

  lemma WholeSafe(s: SplitState, op: Op)
    requires Safe(s.ledger)
    ensures Safe(SplitApply(s, Whole(op)).ledger) && AllEvolve(s.ledger, SplitApply(s, Whole(op)).ledger)
  {
    ApplySafe(s.ledger, op);
  }

  lemma HalfSafe(s: SplitState, op: SplitOp)
    requires Safe(s.ledger) && !op.Whole?
    ensures Safe(SplitApply(s, op).ledger) && AllEvolve(s.ledger, SplitApply(s, op).ledger)
  {
    AllEvolveReflexive(s.ledger);
    if op.FinishCommit? { FinishSafe(s.ledger, op.commit); }
  }

  lemma SplitApplySafe(s: SplitState, op: SplitOp)
    requires Safe(s.ledger)
    ensures Safe(SplitApply(s, op).ledger) && AllEvolve(s.ledger, SplitApply(s, op).ledger)
  {
    if op.Whole? { WholeSafe(s, op.op); } else { HalfSafe(s, op); }
  }

  /** Quarantine, gate evidence, budget, fencing data, uniqueness of effect keys
      and the bound on the log hold in every run with split commits. */
  lemma {:induction false} SplitRunSafe(s: SplitState, ops: seq<SplitOp>)
    requires Safe(s.ledger)
    ensures Safe(SplitRun(s, ops).ledger) && AllEvolve(s.ledger, SplitRun(s, ops).ledger)
    decreases |ops|
  {
    if |ops| == 0 {
    } else {
      SplitApplySafe(s, ops[0]);
      SplitRunSafe(SplitApply(s, ops[0]), ops[1..]);
      AllEvolveTransitive(s.ledger, SplitApply(s, ops[0]).ledger, SplitRun(s, ops).ledger);
    }
  }

  /** In particular, with split commits too, an attempt that owns an effect is
      the job's last one and its job is never leased again. */
  lemma SplitQuarantine(s: SplitState, before: seq<SplitOp>, after: seq<SplitOp>, start: Time, j: JobId)
    requires s == SplitRun(SplitState(Empty(start), {}), before)
    requires j in s.ledger.recs && Quarantined(s.ledger.recs[j])
    ensures var s' := SplitRun(s, after).ledger;
            j in s'.recs && s'.recs[j].attempts == s.ledger.recs[j].attempts && Sealed(s'.recs[j])
  {
    SplitRunSafe(SplitState(Empty(start), {}), before);
    SplitRunSafe(s, after);
    QuarantinedIsSealed(SplitRun(s, after).ledger.recs[j]);
  }

  /** The event chain does need atomicity: a late UPDATE that logs keeps the
      history exactly when the job is still running. */
  lemma LateCommitHistory(r: JobRecord, p: Pending)
    requires RecordInv(r) && HistoryOk(r)
    requires CommitUpdateOn(p.at, r, p.attempt, p.key, p.receipt, p.actor).rec != r
    ensures HistoryOk(CommitUpdateOn(p.at, r, p.attempt, p.key, p.receipt, p.actor).rec) <==> r.row.status == Running
  {
    var r' := CommitUpdateOn(p.at, r, p.attempt, p.key, p.receipt, p.actor).rec;
    var e := r'.events[|r.events|];
    assert r'.events == r.events + [e];
    ReplaySnoc(r.events, e);
    StoredEffects(r, r', p.key, r'.effects[p.key]);
    if r.row.status == Running { LoggedHistory(r, r', e); }
  }

  /** The UPDATE finds the effect as it should be, and logs. */
  predicate Logs(r: JobRecord, p: Pending) {
    CommitUpdateOn(p.at, r, p.attempt, p.key, p.receipt, p.actor).rec != r
  }

  /** A late UPDATE of a commit on job `j` that logs, and finds the job no longer running. */
  predicate Untimely(s: SplitState, op: SplitOp, j: JobId) {
    && op.FinishCommit? && op.commit in s.pending && op.commit.job == j && j in s.ledger.recs
    && Logs(s.ledger.recs[j], op.commit) && s.ledger.recs[j].row.status != Running
  }

  /** Every late UPDATE of the run that logs meets a running job. */
  ghost predicate AllTimely(s: SplitState, ops: seq<SplitOp>, j: JobId)
    decreases |ops|
  {
    |ops| == 0 || (!Untimely(s, ops[0], j) && AllTimely(SplitApply(s, ops[0]), ops[1..], j))
  }

  lemma {:induction false} ChainOfPrefix(events: seq<Event>, more: seq<Event>)
    requires events <= more && Chained(more)
    ensures Chained(events)
    decreases |more|
  {
    if events != more { ChainOfPrefix(events, more[..|more| - 1]); } else { assert events == more; }
  }

  lemma UntimelyBreaks(r: JobRecord, p: Pending)
    requires RecordInv(r) && HistoryOk(r) && r.row.status != Running && Logs(r, p)
    ensures !Chained(CommitUpdateOn(p.at, r, p.attempt, p.key, p.receipt, p.actor).rec.events)
  {
    var r' := CommitUpdateOn(p.at, r, p.attempt, p.key, p.receipt, p.actor).rec;
    ReplaySnoc(r.events, r'.events[|r.events|]);
  }

  /** The history of job `j` is in order, if there is such a job. */
  predicate HistoryInOrder(s: State, j: JobId) { j in s.recs ==> HistoryOk(s.recs[j]) }

  lemma TimelyKeepsOrder(s: SplitState, op: SplitOp, j: JobId)
    requires Safe(s.ledger) && HistoryInOrder(s.ledger, j) && !Untimely(s, op, j)
    ensures HistoryInOrder(SplitApply(s, op).ledger, j)
  {
    match op
    case Whole(o) => ApplyKeepsOrder(s.ledger, o, j);
    case CheckCommit(_, _, _, _, _) =>
    case FinishCommit(p) =>
      if p in s.pending && p.job == j && j in s.ledger.recs && Logs(s.ledger.recs[j], p) {
        LateCommitHistory(s.ledger.recs[j], p);
      }
  }

  lemma ApplyKeepsOrder(s: State, op: Op, j: JobId)
    requires Safe(s) && HistoryInOrder(s, j)
    ensures HistoryInOrder(Apply(s, op), j)
  {
    if j in s.recs {
      ApplyIsStep(s, op, j);
      StepHistory(s.now, s.recs[j], StepFor(s, op, j));
    } else if j in Apply(s, op).recs {
      ApplyNew(s, op, j);
      NewRecordHistory(s.now, op.def, op.priority, op.notBefore, op.actor);
    }
  }

  lemma UntimelyStep(s: SplitState, op: SplitOp, j: JobId)
    requires Safe(s.ledger) && HistoryInOrder(s.ledger, j) && Untimely(s, op, j)
    ensures j in SplitApply(s, op).ledger.recs && !Chained(SplitApply(s, op).ledger.recs[j].events)
  {
    UntimelyBreaks(s.ledger.recs[j], op.commit);
  }

  lemma UntimelyRuns(s: SplitState, ops: seq<SplitOp>, j: JobId)
    requires Safe(s.ledger) && HistoryInOrder(s.ledger, j) && |ops| > 0 && Untimely(s, ops[0], j)
    ensures j in SplitRun(s, ops).ledger.recs && !Chained(SplitRun(s, ops).ledger.recs[j].events)
  {
    var s1 := SplitApply(s, ops[0]);
    UntimelyStep(s, ops[0], j);
    SplitApplySafe(s, ops[0]);
    SplitRunSafe(s1, ops[1..]);
    StaysBroken(s1.ledger, SplitRun(s1, ops[1..]).ledger, j);
  }

  lemma {:induction false} ChainedIffTimely(s: SplitState, ops: seq<SplitOp>, j: JobId)
    requires Safe(s.ledger) && HistoryInOrder(s.ledger, j) && j in SplitRun(s, ops).ledger.recs
    ensures Chained(SplitRun(s, ops).ledger.recs[j].events) <==> AllTimely(s, ops, j)
    ensures AllTimely(s, ops, j) ==> HistoryOk(SplitRun(s, ops).ledger.recs[j])
    decreases |ops|
  {
    if |ops| > 0 {
      var s1 := SplitApply(s, ops[0]);
      SplitApplySafe(s, ops[0]);
      if Untimely(s, ops[0], j) {
        UntimelyRuns(s, ops, j);
      } else {
        TimelyKeepsOrder(s, ops[0], j);
        ChainedIffTimely(s1, ops[1..], j);
      }
    }
  }

  lemma StaysBroken(s: State, s': State, j: JobId)
    requires AllEvolve(s, s') && j in s.recs && !Chained(s.recs[j].events)
    ensures j in s'.recs && !Chained(s'.recs[j].events)
  {
    assert Evolves(s.recs[j], s'.recs[j]);
    if Chained(s'.recs[j].events) { ChainOfPrefix(s.recs[j].events, s'.recs[j].events); }
  }

  /** Over whole runs: the log of a job is a chain if and only if every late
      UPDATE of one of its commits that logged met it running; and then reading
      the log rebuilds the tables. */
  lemma SplitLogReplays(start: Time, ops: seq<SplitOp>, j: JobId)
    requires j in SplitRun(SplitState(Empty(start), {}), ops).ledger.recs
    ensures var s := SplitState(Empty(start), {});
            var r := SplitRun(s, ops).ledger.recs[j];
            && (Chained(r.events) <==> AllTimely(s, ops, j))
            && (Chained(r.events) ==> Replay(r.events) == Some(Stored(r)))
  {
    ChainedIffTimely(SplitState(Empty(start), {}), ops, j);
  }

  /** And that does happen: check, expiry, reaper, UPDATE. */
  lemma ReapedBeforeLateCommit(now: Time, r: JobRecord, p: Pending, actor: string)
    requires RecordInv(r) && HistoryOk(r) && r.row.status == Running && Expired(now, r.row)
    requires p.key in r.effects && r.effects[p.key].state == EffectStarted && p.attempt == Newest(r) && ActorOk(p.actor)
    ensures var reaped := ReapOn(now, r, actor);
            reaped.row.status == ReconciliationRequired
            && !Chained(CommitUpdateOn(p.at, reaped, p.attempt, p.key, p.receipt, p.actor).rec.events)
  {
    var reaped := ReapOn(now, r, actor);
    ReapInv(now, r, actor);
    ReapHistory(now, r, actor);
    CurrentAttempt(r);
    var r' := CommitUpdateOn(p.at, reaped, p.attempt, p.key, p.receipt, p.actor).rec;
    ReplaySnoc(reaped.events, r'.events[|reaped.events|]);
  }
}
