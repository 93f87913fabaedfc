/** Runs of the ledger that do happen: a job is submitted, leased, allowed,
    started, has its effect, is reaped and leased again. Used to show that the
    cases other modules warn of are reached. */
module LedgerCases {
  import opened Basics
  import opened LedgerTypes
  import opened LedgerSpec
  import opened LedgerInvariant
  import opened LedgerReplay
  import opened LedgerRuns
  import opened LedgerSplitCommit
  import LedgerTables

  // ---- values ----

  function Fill(n: nat, c: char): (s: string)
    ensures |s| == n && forall i :: 0 <= i < n ==> s[i] == c
  {
    seq(n, _ => c)
  }

  const WORKER := "worker-1"
  const JOB: JobId := Fill(36, '0')
  const TOKEN: Token := Fill(36, 'a')
  const TOKEN2: Token := Fill(36, 'b')
  const EVIDENCE := GateEvidence(Fill(64, '0'), Fill(64, '0'), JOB, "ok")
  const LEASE := 15
  const EXPIRY: Time := LEASE * SECOND

  function JobOf(kind: string, sideEffecting: bool): Definition {
    Definition(kind, "key", map[], sideEffecting, L1, "run", INTERNAL, 2)
  }

  lemma ValuesOk()
    ensures EvidenceOk(EVIDENCE) && WorkerOk(WORKER) && ActorOk(WORKER) && LeaseSecondsOk(LEASE) && TOKEN != TOKEN2
  {
    assert WORKER[0] != ' ';
    assert TOKEN[0] != TOKEN2[0];
  }

  // ---- one job: each function on a record that is where it should be ----

  /** The job is held under token `t` until `expiry`; its attempt has an allow decision or none. */
  predicate Held(r: JobRecord, d: Definition, t: Token, expiry: Time, status: Status, allowed: bool) {
    && r.row.def == d && r.row.status == status && r.row.leaseToken == Some(t) && r.row.leaseExpiresAt == Some(expiry)
    && FindAttempt(r.attempts, t).Some?
    && (if allowed then Allowed(r, FindAttempt(r.attempts, t)) else FindAttempt(r.attempts, t).value !in r.gates)
  }

  lemma Leased1(now: Time, r: JobRecord, worker: string, seconds: int, t: Token)
    requires RecordInv(r) && Leasable(now, r.row) && FindAttempt(r.attempts, t).None?
    requires WorkerOk(worker) && LeaseSecondsOk(seconds)
    ensures var r' := LeaseOn(now, r, worker, seconds, t);
            && RecordInv(r') && Held(r', r.row.def, t, now + seconds * SECOND, Leased, false)
            && r'.effects == r.effects && r'.row.attemptCount == r.row.attemptCount + 1
            && forall u :: u != t ==> FindAttempt(r'.attempts, u) == FindAttempt(r.attempts, u)
  {
    LeaseInv(now, r, worker, seconds, t);
    var r' := LeaseOn(now, r, worker, seconds, t);
    assert r'.attempts[..|r.attempts|] == r.attempts;
  }

  lemma Gated(now: Time, r: JobRecord, d: Definition, t: Token, expiry: Time, e: GateEvidence, actor: string)
    requires Held(r, d, t, expiry, Leased, false) && now < expiry && EvidenceOk(e) && ActorOk(actor)
    ensures var answer := RecordGateOn(now, r, t, Allow, e, actor);
            && answer.reply == GateStatus(Leased) && Held(answer.rec, d, t, expiry, Leased, true)
            && answer.rec.row == r.row && answer.rec.attempts == r.attempts && answer.rec.effects == r.effects
  {}

  lemma Started(now: Time, r: JobRecord, d: Definition, t: Token, expiry: Time, actor: string)
    requires Held(r, d, t, expiry, Leased, true) && now < expiry && ActorOk(actor)
    ensures var answer := StartOn(now, r, t, actor);
            && answer.reply == StartOk && Held(answer.rec, d, t, expiry, Running, true)
            && answer.rec.attempts == r.attempts && answer.rec.effects == r.effects
            && answer.rec.row.attemptCount == r.row.attemptCount
  {}

  lemma Beaten(now: Time, r: JobRecord, d: Definition, t: Token, expiry: Time, seconds: int)
    requires Held(r, d, t, expiry, Running, true) && now < expiry && LeaseSecondsOk(seconds)
    ensures var answer := HeartbeatOn(now, r, t, seconds);
            && answer.reply.LeaseUntil? && Held(answer.rec, d, t, now + seconds * SECOND, Running, true)
            && answer.rec.attempts == r.attempts && answer.rec.effects == r.effects
            && answer.rec.row.attemptCount == r.row.attemptCount
  {}

  lemma Begun(now: Time, r: JobRecord, d: Definition, t: Token, expiry: Time, key: string, actor: string)
    requires Held(r, d, t, expiry, Running, true) && now < expiry && d.sideEffecting
    requires r.effects == map[] && 1 <= |key| <= 256 && ActorOk(actor)
    ensures var answer := BeginEffectOn(now, r, false, t, key, actor);
            && answer.reply == EffectIs(EffectStarted) && Held(answer.rec, d, t, expiry, Running, true)
            && answer.rec.attempts == r.attempts && answer.rec.effects.Keys == {key}
            && answer.rec.effects[key].state == EffectStarted
            && Some(answer.rec.effects[key].attempt) == FindAttempt(r.attempts, t)
  {}

  lemma Committed1(now: Time, r: JobRecord, d: Definition, t: Token, expiry: Time, key: string, receipt: string,
                   actor: string)
    requires Held(r, d, t, expiry, Running, true) && now < expiry && ActorOk(actor) && r.effects.Keys == {key}
    requires r.effects[key].state == EffectStarted && Some(r.effects[key].attempt) == FindAttempt(r.attempts, t)
    ensures var answer := CommitEffectOn(now, r, t, key, Some(receipt), actor);
            && answer.reply == CommitOk && Held(answer.rec, d, t, expiry, Running, true)
            && answer.rec.attempts == r.attempts && answer.rec.effects.Keys == {key}
            && answer.rec.effects[key].state == EffectCommitted
            && Some(answer.rec.effects[key].attempt) == FindAttempt(r.attempts, t)
  {}

  lemma Completed1(now: Time, r: JobRecord, d: Definition, t: Token, expiry: Time, key: string, result: Json,
                   actor: string)
    requires Held(r, d, t, expiry, Running, true) && now < expiry && ActorOk(actor) && r.effects.Keys == {key}
    requires r.effects[key].state == EffectCommitted && Some(r.effects[key].attempt) == FindAttempt(r.attempts, t)
    ensures var answer := CompleteOn(now, r, t, Some(result), actor);
            answer.reply == CompleteOk && answer.rec.row.status == Succeeded && answer.rec.row.def == d
  {
    assert key in r.effects;
  }

  /** A lease without effects that runs out within the budget is leasable again. */
  lemma Reaped1(now: Time, r: JobRecord, d: Definition, t: Token, expiry: Time, actor: string)
    requires RecordInv(r) && Held(r, d, t, expiry, Running, true) && expiry <= now && r.effects == map[]
    requires r.row.attemptCount < d.maxAttempts
    ensures var r' := ReapOn(now, r, actor);
            RecordInv(r') && Leasable(now, r'.row) && r'.row.def == d && r'.attempts == r.attempts
                && r'.effects == map[]
  {
    ReapInv(now, r, actor);
  }

  // ---- a ledger with one job ----

  function Only(now: Time, j: JobId, r: JobRecord): State { State(now, map[j := r]) }

  lemma OnlySubmit(now: Time, j: JobId, d: Definition)
    requires DefinitionOk(d)
    ensures Apply(Empty(now), SubmitJob(j, d, 0, now, WORKER)) == Only(now, j, NewRecord(now, d, 0, now, WORKER))
  {
    ValuesOk();
    assert JobFor(Empty(now), d).None?;
  }

  lemma OnlyLease(now: Time, j: JobId, r: JobRecord, t: Token)
    requires Leasable(now, r.row)
    ensures Apply(Only(now, j, r), LeaseNext(WORKER, LEASE, None, t, {}))
        == Only(now, j, LeaseOn(now, r, WORKER, LEASE, t))
  {
    var s := Only(now, j, r);
    assert Candidate(s, None, {}, j);
    LedgerTables.NextExists(s, None, {}, j);
    assert NextJob(s, None, {}) == Some(j);
    assert Put(s, j, LeaseOn(now, r, WORKER, LEASE, t)) == Only(now, j, LeaseOn(now, r, WORKER, LEASE, t));
  }

  lemma OnlyInvoke(now: Time, j: JobId, r: JobRecord, t: Token, c: Call)
    ensures var answer := CallOn(now, r, false, t, c);
            InvokeAnswer(Only(now, j, r), j, t, c) == (Only(now, j, answer.rec), answer.reply)
  {
    var answer := CallOn(now, r, false, t, c);
    assert !KeyElsewhere(Only(now, j, r), j, if c.BeginEffect? then c.key else "");
    assert Put(Only(now, j, r), j, answer.rec) == Only(now, j, answer.rec);
  }

  lemma OnlyReap(now: Time, j: JobId, r: JobRecord)
    requires Expired(now, r.row)
    ensures Apply(Only(now, j, r), ReapExpired({}, WORKER)) == Only(now, j, ReapOn(now, r, WORKER))
  {
    ValuesOk();
    assert ReapAll(Only(now, j, r), {}, WORKER).recs == map[j := ReapOn(now, r, WORKER)];
  }

  // ---- runs ----

  lemma {:induction false} RunSnoc(s: State, ops: seq<Op>, op: Op)
    ensures Run(s, ops + [op]) == Apply(Run(s, ops), op)
    decreases |ops|
  {
    if |ops| > 0 {
      assert (ops + [op])[1..] == ops[1..] + [op];
      RunSnoc(Apply(s, ops[0]), ops[1..], op);
    } else {
      assert Run(s, [op]) == Run(Apply(s, op), []);
      assert ops + [op] == [op];
    }
  }

  lemma ReachableNext(s: State, op: Op)
    requires Reachable(s)
    ensures Reachable(Apply(s, op))
  {
    var start, ops :| s == Run(Empty(start), ops);
    RunSnoc(Empty(start), ops, op);
    assert Apply(s, op) == Run(Empty(start), ops + [op]);
  }

  /** A submitted job, held under a first lease, allowed and started. */
  lemma StartedCase(j: JobId, d: Definition, actor: string) returns (r: JobRecord)
    requires DefinitionOk(d) && d.maxAttempts == 2 && ActorOk(actor)
    ensures Reachable(Only(0, j, r)) && Held(r, d, TOKEN, EXPIRY, Running, true)
    ensures r.effects == map[] && r.row.attemptCount == 1
  {
    ValuesOk();
    assert Empty(0) == Run(Empty(0), []);
    OnlySubmit(0, j, d);
    ReachableNext(Empty(0), SubmitJob(j, d, 0, 0, WORKER));
    var r0 := NewRecord(0, d, 0, 0, WORKER);
    NewRecordInv(0, d, 0, 0, WORKER);
    OnlyLease(0, j, r0, TOKEN);
    ReachableNext(Only(0, j, r0), LeaseNext(WORKER, LEASE, None, TOKEN, {}));
    Leased1(0, r0, WORKER, LEASE, TOKEN);
    var r1 := LeaseOn(0, r0, WORKER, LEASE, TOKEN);
    r := AllowedAndStarted(0, j, r1, d, TOKEN, EXPIRY, actor);
  }

  lemma AllowedAndStarted(now: Time, j: JobId, r1: JobRecord, d: Definition, t: Token, expiry: Time, actor: string)
    returns (r: JobRecord)
    requires Reachable(Only(now, j, r1)) && Held(r1, d, t, expiry, Leased, false) && now < expiry && ActorOk(actor)
    ensures Reachable(Only(now, j, r)) && Held(r, d, t, expiry, Running, true)
    ensures r.effects == r1.effects && r.row.attemptCount == r1.row.attemptCount && r.attempts == r1.attempts
  {
    ValuesOk();
    var gate, start := RecordGate(Allow, EVIDENCE, actor), Start(actor);
    Gated(now, r1, d, t, expiry, EVIDENCE, actor);
    OnlyInvoke(now, j, r1, t, gate);
    ReachableNext(Only(now, j, r1), Invoke(j, t, gate));
    var r2 := RecordGateOn(now, r1, t, Allow, EVIDENCE, actor).rec;
    Started(now, r2, d, t, expiry, actor);
    OnlyInvoke(now, j, r2, t, start);
    ReachableNext(Only(now, j, r2), Invoke(j, t, start));
    r := StartOn(now, r2, t, actor).rec;
  }

  // ---- a late commit does break the chain ----

  ghost predicate SplitReachable(s: SplitState) {
    exists start, ops :: s == SplitRun(SplitState(Empty(start), {}), ops)
  }

  lemma {:induction false} SplitSnoc(s: SplitState, ops: seq<SplitOp>, op: SplitOp)
    ensures SplitRun(s, ops + [op]) == SplitApply(SplitRun(s, ops), op)
    decreases |ops|
  {
    if |ops| > 0 {
      assert (ops + [op])[1..] == ops[1..] + [op];
      SplitSnoc(SplitApply(s, ops[0]), ops[1..], op);
    } else {
      assert SplitRun(s, [op]) == SplitRun(SplitApply(s, op), []);
      assert ops + [op] == [op];
    }
  }

  lemma SplitReachableNext(s: SplitState, op: SplitOp)
    requires SplitReachable(s)
    ensures SplitReachable(SplitApply(s, op))
  {
    var start, ops :| s == SplitRun(SplitState(Empty(start), {}), ops);
    SplitSnoc(SplitState(Empty(start), {}), ops, op);
    assert SplitApply(s, op) == SplitRun(SplitState(Empty(start), {}), ops + [op]);
  }

  lemma {:induction false} RunIsSplitReachable(s: State, ops: seq<Op>)
    requires SplitReachable(SplitState(s, {}))
    ensures SplitReachable(SplitState(Run(s, ops), {}))
    decreases |ops|
  {
    if |ops| > 0 {
      SplitReachableNext(SplitState(s, {}), Whole(ops[0]));
      RunIsSplitReachable(Apply(s, ops[0]), ops[1..]);
    }
  }

  lemma ReachableIsSplitReachable(s: State)
    requires Reachable(s)
    ensures SplitReachable(SplitState(s, {}))
  {
    var start, ops :| s == Run(Empty(start), ops);
    assert SplitState(Empty(start), {}) == SplitRun(SplitState(Empty(start), {}), []);
    RunIsSplitReachable(Empty(start), ops);
  }

  /** A started job whose attempt has begun its effect. */
  lemma EffectCase() returns (r: JobRecord)
    ensures Reachable(Only(0, JOB, r)) && Held(r, JobOf("work", true), TOKEN, EXPIRY, Running, true)
    ensures r.effects.Keys == {"effect"} && r.effects["effect"].state == EffectStarted
    ensures Some(r.effects["effect"].attempt) == FindAttempt(r.attempts, TOKEN)
  {
    var d := JobOf("work", true);
    ValuesOk();
    var r0 := StartedCase(JOB, d, WORKER);
    Begun(0, r0, d, TOKEN, EXPIRY, "effect", WORKER);
    OnlyInvoke(0, JOB, r0, TOKEN, BeginEffect("effect", WORKER));
    ReachableNext(Only(0, JOB, r0), Invoke(JOB, TOKEN, BeginEffect("effect", WORKER)));
    r := BeginEffectOn(0, r0, false, TOKEN, "effect", WORKER).rec;
  }

  /** A commit by the attempt of token `t` passes its check. */
  lemma ChecksCommit(r: JobRecord, d: Definition, t: Token, key: string) returns (p: Pending)
    requires SplitReachable(SplitState(Only(0, JOB, r), {})) && Held(r, d, t, EXPIRY, Running, true)
    ensures SplitReachable(SplitState(Only(0, JOB, r), {p}))
    ensures p == Pending(JOB, FindAttempt(r.attempts, t), key, None, WORKER, 0)
  {
    p := Pending(JOB, FindAttempt(r.attempts, t), key, None, WORKER, 0);
    SplitReachableNext(SplitState(Only(0, JOB, r), {}), CheckCommit(JOB, t, key, None, WORKER));
  }

  /** The commit has passed its check when the lease expires. */
  lemma PendingCase() returns (r: JobRecord, p: Pending)
    ensures SplitReachable(SplitState(Only(EXPIRY, JOB, r), {p})) && p.job == JOB && ActorOk(p.actor)
    ensures RecordInv(r) && HistoryOk(r) && r.row.status == Running && Expired(EXPIRY, r.row)
    ensures p.key in r.effects && r.effects[p.key].state == EffectStarted && p.attempt == Newest(r)
  {
    r := EffectCase();
    ReachableInv(Only(0, JOB, r));
    assert RecordInv(Only(0, JOB, r).recs[JOB]) && HistoryOk(Only(0, JOB, r).recs[JOB]);
    ReachableIsSplitReachable(Only(0, JOB, r));
    p := ChecksCommit(r, JobOf("work", true), TOKEN, "effect");
    SplitReachableNext(SplitState(Only(0, JOB, r), {p}), Whole(Tick(EXPIRY)));
    ValuesOk();
    CurrentAttempt(r);
  }

  /** A run in which the lease expires and the job is reaped between the check and
      the UPDATE of a commit: the log of the job is no chain any more. */
  lemma LateCommitBreaksChain() returns (s: SplitState)
    ensures SplitReachable(s) && JOB in s.ledger.recs && s.ledger.recs[JOB].row.status == ReconciliationRequired
    ensures !Chained(s.ledger.recs[JOB].events)
  {
    var r, p := PendingCase();
    var reaped := ReapOn(EXPIRY, r, WORKER);
    OnlyReap(EXPIRY, JOB, r);
    SplitReachableNext(SplitState(Only(EXPIRY, JOB, r), {p}), Whole(ReapExpired({}, WORKER)));
    SplitReachableNext(SplitState(Only(EXPIRY, JOB, reaped), {p}), FinishCommit(p));
    ReapedBeforeLateCommit(EXPIRY, r, p, WORKER);
    FinishOnly(EXPIRY, reaped, p);
    s := SplitApply(SplitState(Only(EXPIRY, JOB, reaped), {p}), FinishCommit(p));
  }

  lemma FinishOnly(now: Time, r: JobRecord, p: Pending)
    requires p.job == JOB
    ensures SplitApply(SplitState(Only(now, JOB, r), {p}), FinishCommit(p)).ledger
              == Only(now, JOB, CommitUpdateOn(p.at, r, p.attempt, p.key, p.receipt, p.actor).rec)
  {}
}
