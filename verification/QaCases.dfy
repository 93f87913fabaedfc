/** Runs in which QA jobs end otherwise than the documentation says. */
module QaCases {
  import opened Basics
  import opened LedgerTypes
  import opened LedgerSpec
  import opened LedgerInvariant
  import opened LedgerRuns
  import opened LedgerClients
  import opened LedgerCases
  import opened QaCoordinator
  import opened QaAgreement

  // ---- a completion without a status ----

  /** A run of the ledger after which a succeeded QA job has no status in its result. */
  lemma StatuslessCompletion() returns (s: State)
    ensures Reachable(s) && Succeeds(s, JOB) && !RecordsStatus(s.recs[JOB].row)
  {
    var d := JobOf(QA_KIND, false);
    var r := StartedCase(JOB, d, QA_ACTOR);
    s := CompletesEmpty(Only(0, JOB, r), JOB, TOKEN);
    OnlyInvoke(0, JOB, r, TOKEN, Complete(Some(map[]), QA_ACTOR));
  }

  lemma CompletesEmpty(s: State, j: JobId, t: Token) returns (s': State)
    requires Reachable(s) && IsQa(s, j) && !s.recs[j].row.def.sideEffecting && s.recs[j].row.status == Running
    requires Live(s.now, s.recs[j].row, t)
    ensures Reachable(s') && Succeeds(s', j) && !RecordsStatus(s'.recs[j].row)
  {
    var call := Complete(Some(map[]), QA_ACTOR);
    EmptyResultIsAccepted(s, j, t);
    ReachableNext(s, Op.Invoke(j, t, call));
    InvokeIsApply(s, j, t, call);
    s' := QaInvoke(s, j, t, QaComplete(map[])).0;
  }

  // ---- a rejection that cannot be completed ----

  ghost predicate RunsTo(digest: Digest, start: Time, steps: seq<Step>, s: System) {
    AllConfined(digest, Initial(start), steps) && s == Execute(digest, Initial(start), steps)
  }

  ghost predicate Reached(digest: Digest, s: System) {
    exists start, steps :: RunsTo(digest, start, steps, s)
  }

  lemma {:induction false} ExecuteSnoc(digest: Digest, s: System, steps: seq<Step>, step: Step)
    requires AllConfined(digest, s, steps) && Confined(Execute(digest, s, steps), step)
    ensures AllConfined(digest, s, steps + [step])
    ensures Execute(digest, s, steps + [step]) == Next(digest, Execute(digest, s, steps), step)
    decreases |steps|
  {
    if |steps| > 0 {
      assert (steps + [step])[1..] == steps[1..] + [step];
      ExecuteSnoc(digest, Next(digest, s, steps[0]), steps[1..], step);
    } else {
      assert steps + [step] == [step];
      assert [step][1..] == [];
      assert Execute(digest, s, [step]) == Execute(digest, Next(digest, s, step), []);
      assert AllConfined(digest, Next(digest, s, step), []);
    }
  }

  lemma ReachedNext(digest: Digest, s: System, step: Step)
    requires Reached(digest, s) && Confined(s, step)
    ensures Reached(digest, Next(digest, s, step))
  {
    var start, steps :| RunsTo(digest, start, steps, s);
    ExecuteSnoc(digest, Initial(start), steps, step);
    assert RunsTo(digest, start, steps + [step], Next(digest, s, step));
  }

  const QA_JOB := JobOf(QA_KIND, true)
  const CONFIG := Config({}, [], 1, LEASE, 60)

  /** The only coordinator, at some point before selection; past admission it is the one rejected. */
  function At(pc: Pc, started: bool): Coordinator {
    Coordinator(JOB, TOKEN, CONFIG, [], started, pc, [], [], if pc.AtReject? then Some(false) else None, 0)
  }

  predicate With(s: System, pc: Pc, started: bool, r: JobRecord) {
    0 in s.coordinators && s.coordinators[0] == At(pc, started) && s.ledger == Only(0, JOB, r)
  }

  lemma OnlyQaInvoke(r: JobRecord, q: QaCall)
    requires r.row.def.kind == QA_KIND && Wrapped(JOB, q).Some?
    ensures var answer := CallOn(0, r, false, TOKEN, Wrapped(JOB, q).value);
            QaInvoke(Only(0, JOB, r), JOB, TOKEN, q) == (Only(0, JOB, answer.rec), answer.reply)
  {
    OnlyInvoke(0, JOB, r, TOKEN, Wrapped(JOB, q).value);
  }

  lemma Answered(digest: Digest, s: System, pc: Pc, started: bool, r: JobRecord, q: QaCall, answer: Answer,
                 c: Coordinator)
    returns (s': System)
    requires Reached(digest, s) && With(s, pc, started, r) && r.row.def.kind == QA_KIND
    requires NextCall(At(pc, started)) == Some(q) && Wrapped(JOB, q).Some?
    requires CallOn(0, r, false, TOKEN, Wrapped(JOB, q).value) == answer
    requires c == Replied(At(pc, started), answer.reply)
    ensures Reached(digest, s') && 0 in s'.coordinators && s'.coordinators[0] == c
        && s'.ledger == Only(0, JOB, answer.rec)
  {
    OnlyQaInvoke(r, q);
    ReachedNext(digest, s, Calls(0, Delivered));
    s' := Sent(s, 0, Delivered, Only(0, JOB, answer.rec), answer.reply);
  }

  lemma Did(digest: Digest, s: System, pc: Pc, started: bool, r: JobRecord, choice: Choice, c: Coordinator)
    returns (s': System)
    requires Reached(digest, s) && With(s, pc, started, r) && !choice.Enter? && c == Local(At(pc, started), choice)
    ensures Reached(digest, s') && 0 in s'.coordinators && s'.coordinators[0] == c && s'.ledger == s.ledger
  {
    ReachedNext(digest, s, Locally(0, choice));
    s' := LocalStep(s, 0, choice);
  }

  lemma LeasedCase(digest: Digest) returns (s: System, r: JobRecord)
    ensures Reached(digest, s) && s == Initial(0).(ledger := Only(0, JOB, r))
    ensures Held(r, QA_JOB, TOKEN, EXPIRY, Leased, false)
  {
    ValuesOk();
    assert RunsTo(digest, 0, [], Initial(0));
    var r0 := NewRecord(0, QA_JOB, 0, 0, WORKER);
    OnlySubmit(0, JOB, QA_JOB);
    ReachedNext(digest, Initial(0), Environment(SubmitJob(JOB, QA_JOB, 0, 0, WORKER)));
    var s0 := Initial(0).(ledger := Only(0, JOB, r0));
    OnlyLease(0, JOB, r0, TOKEN);
    ReachedNext(digest, s0, Environment(LeaseNext(WORKER, LEASE, None, TOKEN, {})));
    NewRecordInv(0, QA_JOB, 0, 0, WORKER);
    Leased1(0, r0, WORKER, LEASE, TOKEN);
    r := LeaseOn(0, r0, WORKER, LEASE, TOKEN);
    s := s0.(ledger := Only(0, JOB, r));
  }

  /** The job is leased and the coordinator is there. */
  lemma SpawnedCase(digest: Digest) returns (s: System, r: JobRecord)
    ensures Reached(digest, s) && With(s, AtGate, false, r)
    ensures Held(r, QA_JOB, TOKEN, EXPIRY, Leased, false)
  {
    s, r := LeasedCase(digest);
    ReachedNext(digest, s, Spawn(0, JOB, TOKEN, CONFIG, []));
    s := Set(s, 0, At(AtGate, false));
  }

  lemma StartedCoordinator(digest: Digest) returns (s: System, r: JobRecord)
    ensures Reached(digest, s) && With(s, AtHeartbeat, true, r)
    ensures Held(r, QA_JOB, TOKEN, EXPIRY, Running, true)
  {
    ValuesOk();
    var expiry := EXPIRY;
    var s0, r0 := SpawnedCase(digest);
    var pc := AtRecordGate(Allow, EVIDENCE);
    var s1 := Did(digest, s0, AtGate, false, r0, GateAnswers(Allow, EVIDENCE), At(pc, false));
    Gated(0, r0, QA_JOB, TOKEN, expiry, EVIDENCE, QA_ACTOR);
    var gate := RecordGateOn(0, r0, TOKEN, Allow, EVIDENCE, QA_ACTOR);
    var s2 := Answered(digest, s1, pc, false, r0, QaGate(Allow, EVIDENCE), gate, At(AtStart, false));
    Started(0, gate.rec, QA_JOB, TOKEN, expiry, QA_ACTOR);
    var start := StartOn(0, gate.rec, TOKEN, QA_ACTOR);
    s := Answered(digest, s2, AtStart, false, gate.rec, QaStart, start, At(AtHeartbeat, true));
    r := start.rec;
  }

  /** A side-effecting QA job whose admission is rejected: the coordinator is about
      to complete it, and the completion raises. */
  lemma RejectIsRefused(digest: Digest) returns (s: System)
    ensures Reached(digest, s) && 0 in s.coordinators && s.coordinators[0].pc.AtReject?
    ensures IsQa(s.ledger, JOB) && s.ledger.recs[JOB].row.def.sideEffecting && s.ledger.recs[JOB].row.status == Running
    ensures QaInvoke(s.ledger, JOB, s.coordinators[0].token, QaComplete(QaResult("reject"))).1 == Raised
  {
    ValuesOk();
    var s0, r0 := StartedCoordinator(digest);
    Beaten(0, r0, QA_JOB, TOKEN, EXPIRY, LEASE);
    var beat := HeartbeatOn(0, r0, TOKEN, LEASE);
    var s1 := Answered(digest, s0, AtHeartbeat, true, r0, QaHeartbeat(LEASE), beat, At(AtAdmission, true));
    s := Did(digest, s1, AtAdmission, true, beat.rec, Admission(false), At(AtReject, true));
    var start, steps :| RunsTo(digest, start, steps, s);
    RejectPath(digest, start, steps, 0);
    RefusedRaises(s.ledger, JOB, TOKEN, QaResult("reject"));
  }

  lemma RefusedRaises(s: State, j: JobId, t: Token, result: Json)
    requires QaInvoke(s, j, t, QaComplete(result)).1 != CompleteOk
    ensures QaInvoke(s, j, t, QaComplete(result)).1 == Raised
  {}
}
