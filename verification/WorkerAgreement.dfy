/** What a succeeded job says about its commit. */
module WorkerAgreement {
  import opened Basics
  import opened LedgerTypes
  import opened LedgerSpec
  import opened LedgerInvariant
  import opened LedgerRuns
  import opened LedgerSplitCommit
  import opened LedgerClients
  import opened EngineeringWorker
  import opened WorkerSafety

  // ---- confined runs ----

  const IMPLEMENT_KIND := "engineering.implement"

  predicate IsImplement(s: State, j: JobId) { j in s.recs && s.recs[j].row.def.kind == IMPLEMENT_KIND }

  predicate Succeeds(s: State, j: JobId) { IsImplement(s, j) && s.recs[j].row.status == Succeeded }

  /** The lease tokens of implementation jobs are used by workers only. Their own
      commits may finish late: these are the steps ChecksCommit and FinishesCommit. */
  predicate Confined(s: System, step: Step) {
    match step
    case Environment(Invoke(j, _, _)) => !IsImplement(s.ledger, j)
    case LateCommit(p) => !IsImplement(s.ledger, p.job)
    case _ => true
  }

  ghost predicate AllConfined(s: System, steps: seq<Step>)
    decreases |steps|
  {
    |steps| == 0 || (Confined(s, steps[0]) && AllConfined(Next(s, steps[0]), steps[1..]))
  }

  // ---- the candidate effect and its worker ----

  predicate IsOpen(r: JobRecord, j: JobId) {
    CandidateKey(j) in r.effects && r.effects[CandidateKey(j)].state == EffectStarted
  }

  predicate IsCommitted(r: JobRecord, j: JobId, head: string) {
    && CandidateKey(j) in r.effects && r.effects[CandidateKey(j)].state == EffectCommitted
    && r.effects[CandidateKey(j)].receipt == Some(head)
  }

  predicate Matches(r: JobRecord, j: JobId, pc: Pc) {
    match pc
    case AtSwitch => IsOpen(r, j)
    case AtCommit => IsOpen(r, j)
    case AtCommitEffect(_) => IsOpen(r, j)
    case AwaitCommit(_) => IsOpen(r, j)
    case AtComplete(head) => IsCommitted(r, j, head)
    case _ => true
  }

  /** The result names the commit that is the receipt of the job's only effect. */
  predicate Recorded(r: JobRecord, j: JobId, head: Option<string>) {
    && r.effects.Keys == {CandidateKey(j)} && r.effects[CandidateKey(j)].state == EffectCommitted
    && r.effects[CandidateKey(j)].receipt == head && head.Some?
    && r.row.result == Some(CandidateResult(j, head.value))
  }

  ghost predicate KeysOk(s: State) {
    forall j, k :: IsImplement(s, j) && k in s.recs[j].effects ==> k == CandidateKey(j)
  }

  predicate MatchesRecord(s: State, w: Worker) {
    w.at.effectStarted && IsImplement(s, w.job) ==> Matches(s.recs[w.job], w.job, w.at.pc)
  }

  ghost predicate AllMatch(s: System) {
    forall id :: id in s.workers ==> MatchesRecord(s.ledger, s.workers[id])
  }

  predicate Credited(s: System, j: JobId)
    requires j in s.ledger.recs
  {
    && j in s.completedBy && s.completedBy[j] in s.workers && s.workers[s.completedBy[j]].job == j
    && s.workers[s.completedBy[j]].at.branchCreated && Over(s.workers[s.completedBy[j]].at.pc)
    && Recorded(s.ledger.recs[j], j, s.workers[s.completedBy[j]].at.candidate)
  }

  ghost predicate AllCredited(s: System) {
    forall j :: Succeeds(s.ledger, j) ==> Credited(s, j)
  }

  ghost predicate CandidateInv(s: System) {
    KeysOk(s.ledger) && AllMatch(s) && AllCredited(s)
  }

  // ---- moves of the ledger by others ----

  /** No effect of an implementation job changes, and none newly succeeds. */
  ghost predicate Untouched(s: State, s': State) {
    forall j :: IsImplement(s', j) ==>
      && s'.recs[j].effects == (if j in s.recs then s.recs[j].effects else map[])
      && (s'.recs[j].row.status == Succeeded ==> Succeeds(s, j))
  }

  lemma SameKind(s: State, s': State, j: JobId)
    requires AllEvolve(s, s') && j in s.recs
    ensures IsImplement(s', j) <==> IsImplement(s, j)
  {
    assert Evolves(s.recs[j], s'.recs[j]);
  }

  lemma RecordedKept(r: JobRecord, r': JobRecord, j: JobId, head: Option<string>)
    requires Evolves(r, r') && r.row.status == Succeeded && Recorded(r, j, head) && r'.effects.Keys <= r.effects.Keys
    ensures Recorded(r', j, head)
  {
    assert EffectKept(r.effects[CandidateKey(j)], r'.effects[CandidateKey(j)]);
  }

  lemma MovesMatch(s: System, ledger: State)
    requires CallsOk(s) && AllMatch(s) && Moves(s.ledger, ledger) && Untouched(s.ledger, ledger)
    ensures AllMatch(s.(ledger := ledger))
  {
    forall id | id in s.workers ensures MatchesRecord(ledger, s.workers[id]) {
      assert WellFormed(s.workers[id].at) && Backed(s.ledger, s.workers[id]);
      if s.workers[id].at.effectStarted { SameKind(s.ledger, ledger, s.workers[id].job); }
    }
  }

  lemma MovesCredit(s: System, ledger: State)
    requires AllCredited(s) && Moves(s.ledger, ledger) && Untouched(s.ledger, ledger)
    ensures AllCredited(s.(ledger := ledger))
  {
    forall j | Succeeds(ledger, j) ensures Credited(s.(ledger := ledger), j) {
      assert Credited(s, j) && Evolves(s.ledger.recs[j], ledger.recs[j]);
      RecordedKept(s.ledger.recs[j], ledger.recs[j], j, s.workers[s.completedBy[j]].at.candidate);
    }
  }

  lemma MovesKeys(s: State, s': State)
    requires KeysOk(s) && Moves(s, s') && Untouched(s, s')
    ensures KeysOk(s')
  {
    forall j, k | IsImplement(s', j) && k in s'.recs[j].effects ensures k == CandidateKey(j) {
      if j in s.recs { SameKind(s, s', j); }
    }
  }

  lemma LedgerAgrees(s: System, ledger: State)
    requires CallsOk(s) && CandidateInv(s) && Moves(s.ledger, ledger) && Untouched(s.ledger, ledger)
    ensures CandidateInv(s.(ledger := ledger))
  {
    MovesKeys(s.ledger, ledger);
    MovesMatch(s, ledger);
    MovesCredit(s, ledger);
  }

  lemma EnvironmentAgrees(s: System, op: Op)
    requires CallsOk(s) && CandidateInv(s) && (op.Invoke? ==> !IsImplement(s.ledger, op.job))
    ensures CandidateInv(s.(ledger := Apply(s.ledger, op)))
  {
    var ledger := Apply(s.ledger, op);
    ApplyMoves(s.ledger, op);
    forall j | IsImplement(ledger, j)
      ensures ledger.recs[j].effects == (if j in s.ledger.recs then s.ledger.recs[j].effects else map[])
      ensures ledger.recs[j].row.status == Succeeded ==> Succeeds(s.ledger, j)
    {
      if j in s.ledger.recs { SameKind(s.ledger, ledger, j); }
      UninvokedOp(s.ledger, op, j);
    }
    LedgerAgrees(s, ledger);
  }

  lemma LateCommitAgrees(s: System, p: Pending)
    requires CallsOk(s) && CandidateInv(s) && !IsImplement(s.ledger, p.job)
    ensures CandidateInv(s.(ledger := Finish(s.ledger, p)))
  {
    FinishMoves(s.ledger, p);
    FinishTouchesNot(s.ledger, p);
    LedgerAgrees(s, Finish(s.ledger, p));
  }

  lemma FinishTouchesNot(s: State, p: Pending)
    requires !IsImplement(s, p.job)
    ensures Untouched(s, Finish(s, p))
  {}

  // ---- steps of one worker ----

  predicate Settles(p: Progress, p': Progress) {
    (Over(p.pc) ==> Over(p'.pc) && p'.candidate == p.candidate) && (p.branchCreated ==> p'.branchCreated)
  }

  lemma StepMatches(r: JobRecord, j: JobId, p: Progress, p': Progress, input: Input)
    requires Matches(r, j, p.pc) && Goes(p, p', input)
    ensures Matches(r, j, p'.pc)
  {}

  lemma WorkerAgrees(s: System, id: nat, p: Progress)
    requires CandidateInv(s) && id in s.workers && Settles(s.workers[id].at, p)
    requires p.effectStarted && IsImplement(s.ledger, s.workers[id].job)
      ==> Matches(s.ledger.recs[s.workers[id].job], s.workers[id].job, p.pc)
    ensures CandidateInv(Set(s, id, p))
  {
    forall j | Succeeds(s.ledger, j) ensures Credited(Set(s, id, p), j) { assert Credited(s, j); }
  }

  lemma HostAgrees(s: System, host: Host, madeAt: map<nat, nat>, cleanups: seq<nat>)
    requires CandidateInv(s)
    ensures CandidateInv(s.(host := host, madeAt := madeAt, cleanups := cleanups))
  {
    var s' := s.(host := host, madeAt := madeAt, cleanups := cleanups);
    forall j | Succeeds(s.ledger, j) ensures Credited(s', j) { assert Credited(s, j); }
  }

  lemma LocalAgrees(s: System, id: nat, input: Input)
    requires CandidateInv(s) && id in s.workers && WellFormed(s.workers[id].at)
    ensures CandidateInv(LocalStep(s, id, input))
  {
    var w, sight := s.workers[id], See(s.workers[id], s.host);
    var p := React(w.at, sight, input);
    ReactContinues(w.at, sight, input);
    if p.effectStarted && IsImplement(s.ledger, w.job) { StepMatches(s.ledger.recs[w.job], w.job, w.at, p, input); }
    WorkerAgrees(s, id, p);
    var s' := LocalStep(s, id, input);
    HostAgrees(Set(s, id, p), s'.host, s'.madeAt, s'.cleanups);
    assert s' == Set(s, id, p).(host := s'.host, madeAt := s'.madeAt, cleanups := s'.cleanups);
  }

  lemma CrashAgrees(s: System, id: nat)
    requires CandidateInv(s) && id in s.workers
    ensures CandidateInv(Set(s, id, Crashed(s.workers[id].at)))
  {
    WorkerAgrees(s, id, Crashed(s.workers[id].at));
  }

  lemma SpawnAgrees(s: System, id: nat, w: Worker)
    requires CandidateInv(s) && id !in s.workers && !w.at.effectStarted
    ensures CandidateInv(s.(workers := s.workers[id := w]))
  {
    forall j | Succeeds(s.ledger, j) ensures Credited(s.(workers := s.workers[id := w]), j) { assert Credited(s, j); }
  }

  // ---- calls ----

  /** What the record of the job looks like after a call of its worker. */
  ghost predicate CallFacts(r: JobRecord, w: Worker, r': JobRecord, reply: Reply) {
    && r'.row.def == r.row.def
    && (forall k :: k in r'.effects ==> k in r.effects || k == CandidateKey(w.job))
    && (!w.at.pc.AtCommitEffect? ==> forall k :: k in r.effects ==> k in r'.effects && r'.effects[k] == r.effects[k])
    && (w.at.pc.AtBegin? && reply == EffectIs(EffectStarted) ==> IsOpen(r', w.job))
    && (w.at.pc.AtCommitEffect? && reply == CommitOk && IsOpen(r, w.job) ==> IsCommitted(r', w.job, w.at.pc.head))
    && (reply != CompleteOk ==> (r'.row.status == Succeeded ==> r.row.status == Succeeded))
    && (reply == CompleteOk ==>
          w.at.pc.AtComplete? && r'.row.result == Some(CandidateResult(w.job, w.at.pc.head)) && r.row.status == Running)
  }

  lemma BeginFacts(now: Time, r: JobRecord, elsewhere: bool, w: Worker)
    requires w.at.pc.AtBegin?
    ensures var answer := BeginEffectOn(now, r, elsewhere, w.token, CandidateKey(w.job), WORKER_ACTOR);
            CallFacts(r, w, answer.rec, answer.reply)
  {}

  lemma CommitFacts(now: Time, r: JobRecord, w: Worker)
    requires w.at.pc.AtCommitEffect?
    ensures var answer := CommitEffectOn(now, r, w.token, CandidateKey(w.job), Some(w.at.pc.head), WORKER_ACTOR);
            CallFacts(r, w, answer.rec, answer.reply)
  {}

  lemma CompleteFacts(now: Time, r: JobRecord, w: Worker)
    requires w.at.pc.AtComplete?
    ensures var answer := CompleteOn(now, r, w.token, Some(CandidateResult(w.job, w.at.pc.head)), WORKER_ACTOR);
            CallFacts(r, w, answer.rec, answer.reply)
  {}

  lemma QuietFacts(now: Time, r: JobRecord, w: Worker, c: Call)
    requires !w.at.pc.AtBegin? && !w.at.pc.AtCommitEffect? && !w.at.pc.AtComplete?
    requires !c.BeginEffect? && !c.CommitEffect? && !c.Complete?
    ensures var answer := CallOn(now, r, false, w.token, c); CallFacts(r, w, answer.rec, answer.reply)
  {
    QuietCall(now, r, false, w.token, c);
  }

  /** The call changes the record of the worker's job only, and as that record's facts say. */
  ghost predicate LedgerFacts(s: State, w: Worker, ledger: State, reply: Reply) {
    if w.job in s.recs then
      && w.job in ledger.recs && ledger == Put(s, w.job, ledger.recs[w.job])
      && CallFacts(s.recs[w.job], w, ledger.recs[w.job], reply)
    else ledger == s && reply == Raised
  }

  lemma BeginRecord(s: State, w: Worker)
    requires w.at.pc.AtBegin?
    ensures var (ledger, reply) := WorkerInvoke(s, w.job, w.token, BeginCall); LedgerFacts(s, w, ledger, reply)
  {
    if w.job in s.recs {
      BeginFacts(s.now, s.recs[w.job], KeyElsewhere(s, w.job, CandidateKey(w.job)), w);
    }
  }

  lemma CommitRecord(s: State, w: Worker)
    requires w.at.pc.AtCommitEffect?
    ensures var (ledger, reply) := WorkerInvoke(s, w.job, w.token, CommitCall(w.at.pc.head));
            LedgerFacts(s, w, ledger, reply)
  {
    if w.job in s.recs {
      CommitFacts(s.now, s.recs[w.job], w);
      assert Put(s, w.job, s.recs[w.job]) == s;
    }
  }

  lemma CompleteRecord(s: State, w: Worker)
    requires w.at.pc.AtComplete?
    ensures var (ledger, reply) := WorkerInvoke(s, w.job, w.token, CompleteCall(CandidateResult(w.job, w.at.pc.head)));
            LedgerFacts(s, w, ledger, reply)
  {
    if w.job in s.recs { CompleteFacts(s.now, s.recs[w.job], w); }
  }

  lemma QuietRecord(s: State, w: Worker, q: WorkerCall)
    requires !w.at.pc.AtBegin? && !w.at.pc.AtCommitEffect? && !w.at.pc.AtComplete?
    requires q.GateCall? || q.StartCall? || q.HeartbeatCall? || q.FailCall?
    ensures var (ledger, reply) := WorkerInvoke(s, w.job, w.token, q); LedgerFacts(s, w, ledger, reply)
  {
    if w.job in s.recs { QuietFacts(s.now, s.recs[w.job], w, Wrapped(w.job, q).value); }
  }

  lemma SentKeys(s: State, w: Worker, ledger: State, reply: Reply)
    requires KeysOk(s) && LedgerFacts(s, w, ledger, reply)
    ensures KeysOk(ledger)
  {
    forall j, k | IsImplement(ledger, j) && k in ledger.recs[j].effects ensures k == CandidateKey(j) {
      assert IsImplement(s, j);
    }
  }

  /** The reply leaves the worker where its effect says it is. */
  lemma TurnMatches(r: JobRecord, w: Worker, r': JobRecord, p: Progress, reply: Reply)
    requires CallFacts(r, w, r', reply) && Matches(r, w.job, w.at.pc) && Turns(w.at, p, reply)
    ensures Matches(r', w.job, p.pc)
  {}

  lemma OtherMatches(s: System, id: nat, a: nat, r: JobRecord, reply: Reply)
    requires CallsOk(s) && AllMatch(s) && id in s.workers && a in s.workers && a != id
    requires s.workers[a].job == s.workers[id].job && s.workers[a].at.effectStarted
    requires IsImplement(s.ledger, s.workers[id].job)
        && CallFacts(s.ledger.recs[s.workers[id].job], s.workers[id], r, reply)
    ensures Matches(r, s.workers[a].job, s.workers[a].at.pc)
  {
    assert WellFormed(s.workers[id].at) && Backed(s.ledger, s.workers[a]);
    if s.workers[id].at.pc.AtCommitEffect? { OneCandidate(s, a, id); }
  }

  lemma SelfMatches(s: State, w: Worker, p: Progress, ledger: State, reply: Reply)
    requires MatchesRecord(s, w) && WellFormed(w.at) && LedgerFacts(s, w, ledger, reply) && Turns(w.at, p, reply)
    ensures MatchesRecord(ledger, w.(at := p))
  {
    if IsImplement(ledger, w.job) { TurnMatches(s.recs[w.job], w, ledger.recs[w.job], p, reply); }
  }

  lemma StrangerMatches(s: State, w: Worker, ledger: State, reply: Reply, v: Worker)
    requires MatchesRecord(s, v) && LedgerFacts(s, w, ledger, reply) && v.job != w.job
    ensures MatchesRecord(ledger, v)
  {}

  lemma PeerMatches(s: System, id: nat, ledger: State, reply: Reply, a: nat)
    requires CallsOk(s) && AllMatch(s) && id in s.workers && a in s.workers && a != id
    requires LedgerFacts(s.ledger, s.workers[id], ledger, reply)
    ensures MatchesRecord(ledger, s.workers[a])
  {
    var w, v := s.workers[id], s.workers[a];
    assert MatchesRecord(s.ledger, v);
    if v.job != w.job {
      StrangerMatches(s.ledger, w, ledger, reply, v);
    } else if v.at.effectStarted && IsImplement(ledger, v.job) {
      OtherMatches(s, id, a, ledger.recs[w.job], reply);
    }
  }

  lemma SentMatches(s: System, id: nat, delivery: Delivery, ledger: State, reply: Reply)
    requires CallsOk(s) && AllMatch(s) && id in s.workers && !s.workers[id].at.pc.AwaitCommit?
    requires LedgerFacts(s.ledger, s.workers[id], ledger, reply)
    ensures AllMatch(Sent(s, id, delivery, ledger, reply))
  {
    var w := s.workers[id];
    var p := After(w.at, delivery, reply);
    assert WellFormed(w.at) && MatchesRecord(s.ledger, w);
    AfterTurns(w.at, delivery, reply);
    SelfMatches(s.ledger, w, p, ledger, reply);
    forall a | a in s.workers && a != id ensures MatchesRecord(ledger, s.workers[a]) {
      PeerMatches(s, id, ledger, reply, a);
    }
  }

  /** An accepted completion is recorded with the commit that is the job's receipt. */
  lemma CompletionIsRecorded(r: JobRecord, w: Worker, r': JobRecord)
    requires CallFacts(r, w, r', CompleteOk) && Matches(r, w.job, w.at.pc)
    requires forall k :: k in r.effects ==> k == CandidateKey(w.job)
    ensures Recorded(r', w.job, Some(w.at.pc.head))
  {
    assert r'.effects.Keys == {CandidateKey(w.job)};
  }

  /** Who is credited stays so, whatever the worker in question does next. */
  lemma CreditStays(s: System, s': System, id: nat, j: JobId)
    requires id in s.workers && id in s'.workers && s'.workers == s.workers[id := s'.workers[id]]
    requires s'.workers[id].job == s.workers[id].job && Settles(s.workers[id].at, s'.workers[id].at)
    requires Succeeds(s.ledger, j) && Credited(s, j) && j in s'.ledger.recs
    requires Recorded(s'.ledger.recs[j], j, s.workers[s.completedBy[j]].at.candidate)
    requires j in s'.completedBy && s'.completedBy[j] == s.completedBy[j]
    ensures Credited(s', j)
  {}

  lemma NewCredit(s: System, id: nat, delivery: Delivery, ledger: State)
    requires CandidateInv(s) && id in s.workers && WellFormed(s.workers[id].at)
    requires !s.workers[id].at.pc.AwaitCommit?
    requires LedgerFacts(s.ledger, s.workers[id], ledger, CompleteOk) && Succeeds(ledger, s.workers[id].job)
    ensures Credited(Sent(s, id, delivery, ledger, CompleteOk), s.workers[id].job)
  {
    var w := s.workers[id];
    AfterTurns(w.at, delivery, CompleteOk);
    assert IsImplement(s.ledger, w.job);
    CompletionIsRecorded(s.ledger.recs[w.job], w, ledger.recs[w.job]);
  }

  lemma StillRecorded(s: State, ledger: State, j: JobId, head: Option<string>)
    requires Moves(s, ledger) && Succeeds(s, j) && Recorded(s.recs[j], j, head) && KeysOk(ledger)
    ensures j in ledger.recs && Recorded(ledger.recs[j], j, head)
  {
    SameKind(s, ledger, j);
    assert Evolves(s.recs[j], ledger.recs[j]);
    RecordedKept(s.recs[j], ledger.recs[j], j, head);
  }

  lemma OldCredit(s: System, id: nat, delivery: Delivery, ledger: State, reply: Reply, j: JobId)
    requires id in s.workers && WellFormed(s.workers[id].at) && !s.workers[id].at.pc.AwaitCommit?
    requires Succeeds(s.ledger, j) && Credited(s, j) && (reply == CompleteOk ==> s.workers[id].job != j)
    requires j in ledger.recs && Recorded(ledger.recs[j], j, s.workers[s.completedBy[j]].at.candidate)
    ensures Credited(Sent(s, id, delivery, ledger, reply), j)
  {
    AfterTurns(s.workers[id].at, delivery, reply);
    CreditStays(s, Sent(s, id, delivery, ledger, reply), id, j);
  }

  /** A job that is newly succeeded is the one just completed. */
  lemma SuccessIsOld(s: State, w: Worker, ledger: State, reply: Reply, j: JobId)
    requires LedgerFacts(s, w, ledger, reply) && Succeeds(ledger, j) && !(j == w.job && reply == CompleteOk)
    ensures Succeeds(s, j)
  {}

  lemma SentCredits(s: System, id: nat, delivery: Delivery, ledger: State, reply: Reply, j: JobId)
    requires CandidateInv(s) && KeysOk(ledger) && id in s.workers && WellFormed(s.workers[id].at)
    requires !s.workers[id].at.pc.AwaitCommit?
    requires Moves(s.ledger, ledger) && LedgerFacts(s.ledger, s.workers[id], ledger, reply) && Succeeds(ledger, j)
    ensures Credited(Sent(s, id, delivery, ledger, reply), j)
  {
    if j == s.workers[id].job && reply == CompleteOk {
      NewCredit(s, id, delivery, ledger);
    } else {
      SuccessIsOld(s.ledger, s.workers[id], ledger, reply, j);
      assert Credited(s, j);
      StillRecorded(s.ledger, ledger, j, s.workers[s.completedBy[j]].at.candidate);
      OldCredit(s, id, delivery, ledger, reply, j);
    }
  }

  lemma SentAgrees(s: System, id: nat, delivery: Delivery, ledger: State, reply: Reply)
    requires CallsOk(s) && CandidateInv(s) && id in s.workers && !s.workers[id].at.pc.AwaitCommit?
    requires Moves(s.ledger, ledger) && LedgerFacts(s.ledger, s.workers[id], ledger, reply)
    ensures CandidateInv(Sent(s, id, delivery, ledger, reply))
  {
    assert WellFormed(s.workers[id].at);
    SentKeys(s.ledger, s.workers[id], ledger, reply);
    SentMatches(s, id, delivery, ledger, reply);
    forall j | Succeeds(ledger, j) ensures Credited(Sent(s, id, delivery, ledger, reply), j) {
      SentCredits(s, id, delivery, ledger, reply, j);
    }
  }

  lemma CallRecord(s: State, w: Worker)
    requires NextCall(w).Some?
    ensures var (ledger, reply) := WorkerInvoke(s, w.job, w.token, NextCall(w).value); LedgerFacts(s, w, ledger, reply)
  {
    if w.at.pc.AtBegin? {
      BeginRecord(s, w);
    } else if w.at.pc.AtCommitEffect? {
      CommitRecord(s, w);
    } else if w.at.pc.AtComplete? {
      CompleteRecord(s, w);
    } else {
      QuietRecord(s, w, NextCall(w).value);
    }
  }

  lemma UnsentAgrees(s: System, id: nat)
    requires CandidateInv(s) && id in s.workers && WellFormed(s.workers[id].at)
    ensures CandidateInv(Set(s, id, Excepted(s.workers[id].at)))
  {
    ExceptedContinues(s.workers[id].at);
    WorkerAgrees(s, id, Excepted(s.workers[id].at));
  }

  lemma MadeAgrees(s: System, id: nat, delivery: Delivery)
    requires CallsOk(s) && CandidateInv(s) && id in s.workers && NextCall(s.workers[id]).Some?
    ensures var w := s.workers[id];
            var (ledger, reply) := WorkerInvoke(s.ledger, w.job, w.token, NextCall(w).value);
            CandidateInv(Sent(s, id, delivery, ledger, reply))
  {
    var w := s.workers[id];
    var (ledger, reply) := WorkerInvoke(s.ledger, w.job, w.token, NextCall(w).value);
    InvokeWorks(s.ledger, w.job, w.token, NextCall(w).value);
    CallRecord(s.ledger, w);
    SentAgrees(s, id, delivery, ledger, reply);
  }

  lemma CallAgrees(s: System, id: nat, delivery: Delivery)
    requires CallsOk(s) && CandidateInv(s) && id in s.workers
    ensures CandidateInv(CallStep(s, id, delivery))
  {
    if NextCall(s.workers[id]).Some? {
      if delivery.NotSent? {
        assert WellFormed(s.workers[id].at);
        UnsentAgrees(s, id);
      } else {
        MadeAgrees(s, id, delivery);
      }
    }
  }

  // ---- commits in two halves ----

  /** An outstanding commit is that of a worker that waits for it or is past its effect. */
  predicate IsOutstanding(w: Worker, p: Pending) {
    && w.at.effectStarted && p.job == w.job && p.key == CandidateKey(w.job)
    && (Over(w.at.pc) || (w.at.pc.AwaitCommit? && p.receipt == Some(w.at.pc.head)))
  }

  ghost predicate CommitsOk(s: System) {
    forall id :: id in s.commits ==> id in s.workers && IsOutstanding(s.workers[id], s.commits[id])
  }

  /** A later state of a worker with an outstanding commit. */
  predicate Waits(p: Progress, p': Progress) {
    (p.effectStarted ==> p'.effectStarted) && (Over(p.pc) ==> Over(p'.pc))
    && (p.pc.AwaitCommit? ==> p'.pc == p.pc || Over(p'.pc))
  }

  lemma WaitingCommits(s: System, id: nat, p: Progress)
    requires CommitsOk(s) && id in s.workers && (id in s.commits ==> Waits(s.workers[id].at, p))
    ensures CommitsOk(Set(s, id, p))
  {}

  lemma LocalWaits(p: Progress, sight: Sight, input: Input)
    requires WellFormed(p) && (Over(p.pc) || p.pc.AwaitCommit?)
    ensures Waits(p, React(p, sight, input))
  {
    ReactContinues(p, sight, input);
  }

  lemma LocalCommits(s: System, id: nat, input: Input)
    requires CommitsOk(s) && id in s.workers && WellFormed(s.workers[id].at)
    ensures CommitsOk(LocalStep(s, id, input))
  {
    var w := s.workers[id];
    if id in s.commits { LocalWaits(w.at, See(w, s.host), input); }
    WaitingCommits(s, id, React(w.at, See(w, s.host), input));
    LocalIsSet(s, id, input);
  }

  lemma LocalIsSet(s: System, id: nat, input: Input)
    requires id in s.workers
    ensures var w, s' := s.workers[id], LocalStep(s, id, input);
            && s'.commits == s.commits && s'.workers == Set(s, id, React(w.at, See(w, s.host), input)).workers
  {}

  lemma CallCommits(s: System, id: nat, delivery: Delivery)
    requires CommitsOk(s) && id in s.workers && WellFormed(s.workers[id].at)
    ensures CommitsOk(CallStep(s, id, delivery))
  {
    var w := s.workers[id];
    if NextCall(w).Some? {
      ExceptedContinues(w.at);
      if delivery.NotSent? {
        WaitingCommits(s, id, Excepted(w.at));
      } else {
        var (ledger, reply) := WorkerInvoke(s.ledger, w.job, w.token, NextCall(w).value);
        AfterTurns(w.at, delivery, reply);
        RepliedContinues(w.at, reply);
        WaitingCommits(s, id, After(w.at, delivery, reply));
      }
    }
  }

  lemma CheckCommits(s: System, id: nat)
    requires CommitsOk(s) && id in s.workers && WellFormed(s.workers[id].at)
    ensures CommitsOk(CheckStep(s, id))
  {}

  lemma FinishCommits(s: System, id: nat, delivered: bool)
    requires CommitsOk(s)
    ensures CommitsOk(FinishStep(s, id, delivered))
  {}

  lemma NextCommits(s: System, step: Step)
    requires AllBacked(s) && CommitsOk(s)
    ensures CommitsOk(Next(s, step))
  {
    match step
    case Locally(id, input) => if id in s.workers { LocalCommits(s, id, input); }
    case Calls(id, delivery) => if id in s.workers { CallCommits(s, id, delivery); }
    case ChecksCommit(id) => if id in s.workers { CheckCommits(s, id); }
    case FinishesCommit(id, delivered) => FinishCommits(s, id, delivered);
    case Crash(id) => if id in s.workers { WaitingCommits(s, id, Crashed(s.workers[id].at)); }
    case _ => OtherCommits(s, step);
  }

  lemma OtherCommits(s: System, step: Step)
    requires CommitsOk(s) && (step.Environment? || step.LateCommit? || step.Spawn?)
    ensures CommitsOk(Next(s, step))
  {}

  lemma CheckAgrees(s: System, id: nat)
    requires CallsOk(s) && CandidateInv(s) && id in s.workers
    ensures CandidateInv(CheckStep(s, id))
  {
    var w := s.workers[id];
    assert WellFormed(w.at) && MatchesRecord(s.ledger, w);
    if w.at.pc.AtCommitEffect? {
      CheckIs(s, id);
      ExceptedContinues(w.at);
      WorkerAgrees(s, id, Excepted(w.at));
      CommitsAreApart(s, CheckStep(s, id).commits);
      WorkerAgrees(s.(commits := CheckStep(s, id).commits), id, w.at.(pc := AwaitCommit(w.at.pc.head)));
    }
  }

  lemma CheckIs(s: System, id: nat)
    requires id in s.workers && s.workers[id].at.pc.AtCommitEffect?
    ensures var p, s' := s.workers[id].at, CheckStep(s, id);
            || s' == Set(s, id, Excepted(p))
            || s' == Set(s.(commits := s'.commits), id, p.(pc := AwaitCommit(p.pc.head)))
  {}

  lemma CommitsAreApart(s: System, commits: map<nat, Pending>)
    requires CandidateInv(s)
    ensures CandidateInv(s.(commits := commits))
  {
    var s' := s.(commits := commits);
    forall j | Succeeds(s.ledger, j) ensures Credited(s', j) { assert Credited(s, j); }
  }

  /** What the UPDATE does to the record of the job. */
  lemma LandsOn(r: JobRecord, j: JobId, p: Pending)
    requires p.key == CandidateKey(j)
    ensures var answer := CommitUpdateOn(p.at, r, p.attempt, p.key, p.receipt, p.actor);
            && answer.rec.row == r.row && answer.rec.effects.Keys == r.effects.Keys
            && (forall head :: Recorded(r, j, head) ==> Recorded(answer.rec, j, head))
            && (answer.reply == CommitOk && IsOpen(r, j) && p.receipt.Some? ==>
                  IsCommitted(answer.rec, j, p.receipt.value))
  {}

  lemma OwnLands(s: State, w: Worker, p: Pending, delivered: bool)
    requires MatchesRecord(s, w) && WellFormed(w.at) && IsOutstanding(w, p)
    ensures MatchesRecord(Finish(s, p), w.(at := Told(w.at, delivered, CommitReply(s, p))))
  {
    ExceptedContinues(w.at);
    if p.job in s.recs { LandsOn(s.recs[p.job], p.job, p); }
  }

  lemma OthersLand(s: State, v: Worker, p: Pending)
    requires MatchesRecord(s, v) && !(v.at.effectStarted && v.job == p.job)
    ensures MatchesRecord(Finish(s, p), v)
  {}

  lemma FinishMatch(s: System, id: nat, delivered: bool, a: nat)
    requires CallsOk(s) && AllMatch(s) && id in s.commits && id in s.workers && a in s.workers
    requires IsOutstanding(s.workers[id], s.commits[id])
    ensures MatchesRecord(Finish(s.ledger, s.commits[id]), FinishStep(s, id, delivered).workers[a])
  {
    var p, v := s.commits[id], s.workers[a];
    assert WellFormed(v.at) && MatchesRecord(s.ledger, v);
    if a == id {
      OwnLands(s.ledger, v, p, delivered);
    } else {
      if v.job == p.job && v.at.effectStarted { OneCandidate(s, a, id); }
      OthersLand(s.ledger, v, p);
    }
  }

  lemma FinishKeys(s: System, p: Pending)
    requires KeysOk(s.ledger) && p.key == CandidateKey(p.job)
    ensures KeysOk(Finish(s.ledger, p))
  {
    if p.job in s.ledger.recs { LandsOn(s.ledger.recs[p.job], p.job, p); }
    forall j, k | IsImplement(Finish(s.ledger, p), j) && k in Finish(s.ledger, p).recs[j].effects
      ensures k == CandidateKey(j)
    {
      assert IsImplement(s.ledger, j);
    }
  }

  lemma FinishRecord(s: State, p: Pending, j: JobId)
    requires Succeeds(Finish(s, p), j) && p.key == CandidateKey(p.job)
    ensures Succeeds(s, j)
    ensures forall head :: Recorded(s.recs[j], j, head) ==> Recorded(Finish(s, p).recs[j], j, head)
  {
    if p.job in s.recs { LandsOn(s.recs[p.job], p.job, p); }
  }

  lemma ToldSettles(p: Progress, delivered: bool, reply: Reply)
    requires WellFormed(p)
    ensures Settles(p, Told(p, delivered, reply))
  {
    ExceptedContinues(p);
  }

  lemma FinishCredit(s: System, id: nat, delivered: bool, j: JobId)
    requires AllBacked(s) && AllCredited(s) && id in s.commits && id in s.workers
    requires s.commits[id].key == CandidateKey(s.commits[id].job) && Succeeds(Finish(s.ledger, s.commits[id]), j)
    ensures Credited(FinishStep(s, id, delivered), j)
  {
    var p := s.commits[id];
    assert WellFormed(s.workers[id].at);
    FinishRecord(s.ledger, p, j);
    assert Credited(s, j);
    ToldSettles(s.workers[id].at, delivered, CommitReply(s.ledger, p));
    CreditStays(s, FinishStep(s, id, delivered), id, j);
  }

  lemma FinishAgrees(s: System, id: nat, delivered: bool)
    requires CallsOk(s) && CandidateInv(s) && CommitsOk(s)
    ensures CandidateInv(FinishStep(s, id, delivered))
  {
    if id in s.commits {
      var p, s' := s.commits[id], FinishStep(s, id, delivered);
      assert IsOutstanding(s.workers[id], p);
      FinishKeys(s, p);
      forall a | a in s'.workers ensures MatchesRecord(s'.ledger, s'.workers[a]) { FinishMatch(s, id, delivered, a); }
      forall j | Succeeds(s'.ledger, j) ensures Credited(s', j) { FinishCredit(s, id, delivered, j); }
    }
  }

  lemma NextAgrees(s: System, step: Step)
    requires CallsOk(s) && CandidateInv(s) && CommitsOk(s) && Confined(s, step)
    ensures CandidateInv(Next(s, step))
  {
    match step
    case Environment(op) => EnvironmentAgrees(s, op);
    case LateCommit(p) => LateCommitAgrees(s, p);
    case Spawn(id, j, t, config) => if id !in s.workers { SpawnAgrees(s, id, Fresh(j, t, config)); }
    case Locally(id, input) =>
      if id in s.workers {
        assert WellFormed(s.workers[id].at);
        LocalAgrees(s, id, input);
      }
    case Calls(id, delivery) => if id in s.workers { CallAgrees(s, id, delivery); }
    case ChecksCommit(id) => if id in s.workers { CheckAgrees(s, id); }
    case FinishesCommit(id, delivered) => FinishAgrees(s, id, delivered);
    case Crash(id) => if id in s.workers { CrashAgrees(s, id); }
  }

  lemma {:induction false} ExecuteAgrees(s: System, steps: seq<Step>)
    requires CallsOk(s) && CandidateInv(s) && CommitsOk(s) && AllConfined(s, steps)
    ensures CallsOk(Execute(s, steps)) && CandidateInv(Execute(s, steps)) && CommitsOk(Execute(s, steps))
    decreases |steps|
  {
    if |steps| > 0 {
      NextWorks(s, steps[0]);
      NextCommits(s, steps[0]);
      NextAgrees(s, steps[0]);
      ExecuteAgrees(Next(s, steps[0]), steps[1..]);
    }
  }

  // ---- what a succeeded job tells ----

  lemma RunCredits(start: Time, host: Host, steps: seq<Step>, j: JobId)
    requires AllConfined(Initial(start, host), steps) && Succeeds(Execute(Initial(start, host), steps).ledger, j)
    ensures Credited(Execute(Initial(start, host), steps), j)
  {
    ExecuteAgrees(Initial(start, host), steps);
  }

  /** In confined runs a succeeded implementation job was completed by a worker
      that had made its branch; its only effect is committed, and the recorded
      result names the branch, the receipt as head_commit, and no promotion. */
  lemma SucceededNamesItsCommit(start: Time, host: Host, steps: seq<Step>, j: JobId)
    requires AllConfined(Initial(start, host), steps) && Succeeds(Execute(Initial(start, host), steps).ledger, j)
    ensures var s := Execute(Initial(start, host), steps);
            && j in s.completedBy && s.completedBy[j] in s.workers && (
            var w, r := s.workers[s.completedBy[j]], s.ledger.recs[j];
            && w.job == j && w.at.branchCreated && Over(w.at.pc)
            && r.effects.Keys == {CandidateKey(j)} && r.effects[CandidateKey(j)].state == EffectCommitted
            && r.effects[CandidateKey(j)].receipt.Some? && r.effects[CandidateKey(j)].receipt == w.at.candidate
            && r.row.result == Some(map["branch" := Branch(j), "head_commit" := w.at.candidate.value,
                                        "promotion_authorized" := "false"]))
  {
    RunCredits(start, host, steps, j);
  }
}
