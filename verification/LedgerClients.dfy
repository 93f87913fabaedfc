/** What a client of the ledger can rely on while everyone else keeps using it:
    spent tokens stay spent, effect claims stay claims. */
module LedgerClients {
  import opened Basics
  import opened LedgerTypes
  import opened LedgerSpec
  import opened LedgerInvariant
  import opened LedgerRuns
  import opened LedgerSplitCommit

  /** What becomes of one call: a reply, no reply although it took place, or no call. */
  datatype Delivery = Delivered | ReplyLost | NotSent

  /** A token with which start_job can no longer succeed. */
  predicate Spent(r: JobRecord, t: Token) {
    FindAttempt(r.attempts, t).Some? && !(r.row.status == Leased && r.row.leaseToken == Some(t))
  }

  lemma LeaseKeepsSpent(now: Time, r: JobRecord, worker: string, seconds: int, issued: Token, t: Token)
    requires Spent(r, t)
    ensures Spent(LeaseOn(now, r, worker, seconds, issued), t)
  {
    var r' := LeaseOn(now, r, worker, seconds, issued);
    if r' != r { assert r'.attempts[..|r'.attempts| - 1] == r.attempts; }
  }

  lemma CallKeepsSpent(now: Time, r: JobRecord, elsewhere: bool, t': Token, call: Call, t: Token)
    requires Spent(r, t)
    ensures Spent(CallOn(now, r, elsewhere, t', call).rec, t)
  {}

  lemma SpentStep(now: Time, r: JobRecord, step: RecordStep, t: Token)
    requires Spent(r, t)
    ensures Spent(StepOn(now, r, step), t)
  {
    match step
    case TakeLease(worker, seconds, issued) => LeaseKeepsSpent(now, r, worker, seconds, issued, t);
    case TokenCall(elsewhere, t', call) => CallKeepsSpent(now, r, elsewhere, t', call, t);
    case _ =>
  }

  ghost predicate SpentKept(s: State, s': State) {
    forall j, t :: j in s.recs && Spent(s.recs[j], t) ==> j in s'.recs && Spent(s'.recs[j], t)
  }

  /** What any step of anyone does to a safe ledger. */
  ghost predicate Moves(s: State, s': State) {
    Safe(s) && Safe(s') && AllEvolve(s, s') && SpentKept(s, s')
  }

  lemma ApplyMoves(s: State, op: Op)
    requires Safe(s)
    ensures Moves(s, Apply(s, op))
  {
    ApplySafe(s, op);
    forall j, t | j in s.recs && Spent(s.recs[j], t) ensures j in Apply(s, op).recs && Spent(Apply(s, op).recs[j], t) {
      ApplyIsStep(s, op, j);
      SpentStep(s.now, s.recs[j], StepFor(s, op, j), t);
    }
  }

  lemma InvokeIsApply(s: State, j: JobId, t: Token, c: Call)
    ensures Apply(s, Op.Invoke(j, t, c)) == InvokeAnswer(s, j, t, c).0
  {}

  lemma InvokeMoves(s: State, j: JobId, t: Token, c: Call)
    requires Safe(s)
    ensures Moves(s, InvokeAnswer(s, j, t, c).0)
  {
    InvokeIsApply(s, j, t, c);
    ApplyMoves(s, Op.Invoke(j, t, c));
  }

  lemma FinishMoves(s: State, p: Pending)
    requires Safe(s)
    ensures Moves(s, Finish(s, p))
  {
    FinishSafe(s, p);
  }

  /** Looking up a token keeps giving the same attempt. */
  lemma FindAttemptStable(r: JobRecord, r': JobRecord, t: Token)
    requires RecordInv(r') && r.attempts <= r'.attempts && FindAttempt(r.attempts, t).Some?
    ensures FindAttempt(r'.attempts, t) == FindAttempt(r.attempts, t)
  {
    FindAttemptFinds(r.attempts, t);
    FindAttemptFinds(r'.attempts, t);
  }

  /** The attempt of token `t` owns effect `key` and holds an allow decision. */
  predicate HoldsClaim(s: State, j: JobId, t: Token, key: string) {
    j in s.recs && (
      var r := s.recs[j];
      key in r.effects && Some(r.effects[key].attempt) == FindAttempt(r.attempts, t)
          && Allowed(r, Some(r.effects[key].attempt)))
  }

  lemma ClaimStable(s: State, s': State, j: JobId, t: Token, key: string)
    requires Moves(s, s') && HoldsClaim(s, j, t, key)
    ensures HoldsClaim(s', j, t, key)
  {
    var r, r' := s.recs[j], s'.recs[j];
    assert Evolves(r, r') && SafeRecord(r');
    assert key in r'.effects && EffectKept(r.effects[key], r'.effects[key]);
    FindAttemptStable(r, r', t);
  }

  /** No two tokens hold the same claim. */
  lemma ClaimHasOneToken(s: State, j: JobId, t: Token, u: Token, key: string)
    requires HoldsClaim(s, j, t, key) && HoldsClaim(s, j, u, key)
    ensures t == u
  {
    FindAttemptFinds(s.recs[j].attempts, t);
    FindAttemptFinds(s.recs[j].attempts, u);
  }

  /** A successful start spends the token, and no one had spent it before. */
  lemma StartSpends(s: State, j: JobId, t: Token, actor: string)
    requires Safe(s) && InvokeAnswer(s, j, t, Start(actor)).1 == StartOk
    ensures j in s.recs && !Spent(s.recs[j], t)
    ensures var s' := InvokeAnswer(s, j, t, Start(actor)).0; j in s'.recs && Spent(s'.recs[j], t)
  {
    assert SafeRecord(s.recs[j]);
    CurrentAttempt(s.recs[j]);
  }

  /** A begin that does not raise leaves the claim in the ledger. */
  lemma BeginClaims(s: State, j: JobId, t: Token, key: string, actor: string)
    requires Safe(s) && InvokeAnswer(s, j, t, BeginEffect(key, actor)).1.EffectIs?
    ensures HoldsClaim(InvokeAnswer(s, j, t, BeginEffect(key, actor)).0, j, t, key)
  {
    assert SafeRecord(s.recs[j]);
    CurrentAttempt(s.recs[j]);
  }

  // ---- calls and operations that leave claims alone ----

  predicate SameClaims(r: JobRecord, r': JobRecord) {
    r'.effects == r.effects && r'.attempts == r.attempts && r'.row.def == r.row.def
  }

  /** Calls other than begin and commit leave the effects alone; only complete succeeds a job. */
  lemma QuietCall(now: Time, r: JobRecord, elsewhere: bool, t: Token, call: Call)
    requires !call.BeginEffect? && !call.CommitEffect?
    ensures var answer := CallOn(now, r, elsewhere, t, call);
            && SameClaims(r, answer.rec)
            && (answer.rec.row.status == Succeeded && answer.reply != CompleteOk ==> r.row.status == Succeeded)
            && (answer.reply == CompleteOk ==> call.Complete?)
  {}

  lemma LeaseIsQuiet(now: Time, r: JobRecord, worker: string, seconds: int, t: Token)
    ensures LeaseOn(now, r, worker, seconds, t).effects == r.effects
    ensures LeaseOn(now, r, worker, seconds, t).row.status == Succeeded ==> r.row.status == Succeeded
  {}

  lemma ReapIsQuiet(now: Time, r: JobRecord, actor: string)
    ensures ReapOn(now, r, actor).effects == r.effects
    ensures ReapOn(now, r, actor).row.status == Succeeded ==> r.row.status == Succeeded
  {}

  lemma StepQuiet(now: Time, r: JobRecord, step: RecordStep)
    requires !step.TokenCall?
    ensures StepOn(now, r, step).effects == r.effects
    ensures StepOn(now, r, step).row.status == Succeeded ==> r.row.status == Succeeded
  {
    match step
    case TakeLease(worker, seconds, t) => LeaseIsQuiet(now, r, worker, seconds, t);
    case Reap(actor) => ReapIsQuiet(now, r, actor);
    case _ =>
  }

  /** An operation that is no call on job `j` leaves its effects alone and does not succeed it. */
  lemma UninvokedOp(s: State, op: Op, j: JobId)
    requires (op.Invoke? ==> op.job != j) && j in Apply(s, op).recs
    ensures Apply(s, op).recs[j].row.status == Succeeded ==> j in s.recs && s.recs[j].row.status == Succeeded
    ensures j in s.recs ==> Apply(s, op).recs[j].effects == s.recs[j].effects
    ensures j in s.recs ==> Apply(s, op).recs[j].row.def == s.recs[j].row.def
    ensures j !in s.recs ==> Apply(s, op).recs[j].effects == map[]
  {
    if j in s.recs {
      ApplyIsStep(s, op, j);
      ApplyKeepsDefinition(s, op, j);
      StepQuiet(s.now, s.recs[j], StepFor(s, op, j));
    } else {
      ApplyNew(s, op, j);
    }
  }
}
