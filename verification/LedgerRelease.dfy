/** A release step for waiting_approval is only announced, not implemented.
    Whatever it will do besides, putting the job back to `queued` is sound with
    the lease_count numbering of migration 0004; with the attempt_count numbering
    of 0003 a refunded job could never be leased again. */
module LedgerRelease {
  import opened Basics
  import opened LedgerTypes
  import opened LedgerSpec
  import opened LedgerInvariant
  import opened LedgerRuns

  function ReleaseOn(now: Time, r: JobRecord): JobRecord {
    if r.row.status == WaitingApproval then r.(row := r.row.(status := Queued, updatedAt := now)) else r
  }

  predicate NumberTaken(r: JobRecord, number: int) {
    exists i :: 0 <= i < |r.attempts| && r.attempts[i].number == number
  }

  /** The lease of migration 0003, as to the number of the attempt: attempt_count
      after the increment. UNIQUE (job_id, attempt_number) rejects a number that is taken. */
  function OldLeaseOn(now: Time, r: JobRecord, worker: string, seconds: int, t: Token): JobRecord {
    var r' := LeaseOn(now, r, worker, seconds, t);
    if |r'.attempts| == |r.attempts| || NumberTaken(r, r.row.attemptCount + 1) then r
    else
      var last := r'.attempts[|r'.attempts| - 1];
      r'.(attempts := r'.attempts[|r'.attempts| - 1 := last.(number := r.row.attemptCount + 1)])
  }

  // ---- runs with releases ----

  datatype ReleaseOp = Ordinary(op: Op) | Release(job: JobId)

  /** `byAttempts`: leases number attempts as migration 0003 did. */
  ghost function ReleaseApply(byAttempts: bool, s: State, op: ReleaseOp): State {
    match op
    case Release(j) => if j in s.recs then Put(s, j, ReleaseOn(s.now, s.recs[j])) else s
    case Ordinary(o) => if byAttempts && o.LeaseNext? then OldLeaseNext(s, o) else Apply(s, o)
  }

  ghost function OldLeaseNext(s: State, op: Op): State
    requires op.LeaseNext?
  {
    var next := NextJob(s, op.kind, op.locked);
    if next.Some? then Put(s, next.value, OldLeaseOn(s.now, s.recs[next.value], op.worker, op.seconds, op.token)) else s
  }

  ghost function ReleaseRun(byAttempts: bool, s: State, ops: seq<ReleaseOp>): State
    decreases |ops|
  {
    if |ops| == 0 then s else ReleaseRun(byAttempts, ReleaseApply(byAttempts, s, ops[0]), ops[1..])
  }

  ghost predicate AllInv(s: State) {
    forall j :: j in s.recs ==> RecordInv(s.recs[j])
  }

  lemma ReleaseInv(now: Time, r: JobRecord)
    requires RecordInv(r)
    ensures RecordInv(ReleaseOn(now, r))
  {}

  /** The number 0004 gives the next attempt is never taken. */
  lemma LeaseSequenceIsFresh(r: JobRecord)
    requires RecordInv(r)
    ensures !NumberTaken(r, r.row.leaseCount + 1)
  {}

  /** The number 0003 gave it is taken exactly when some lease was refunded. */
  lemma AttemptCountCollides(r: JobRecord)
    requires RecordInv(r)
    ensures NumberTaken(r, r.row.attemptCount + 1) <==> Refunds(r.events) > 0
  {
    if Refunds(r.events) > 0 {
      assert r.attempts[r.row.attemptCount].number == r.row.attemptCount + 1;
    }
  }

  /** As long as no lease was refunded the two numberings agree; after that the
      old one raises for ever. */
  lemma OldLeaseIs(now: Time, r: JobRecord, worker: string, seconds: int, t: Token)
    requires RecordInv(r)
    ensures OldLeaseOn(now, r, worker, seconds, t) ==
              if Refunds(r.events) > 0 then r else LeaseOn(now, r, worker, seconds, t)
  {
    AttemptCountCollides(r);
    var r' := LeaseOn(now, r, worker, seconds, t);
    if |r'.attempts| > |r.attempts| && Refunds(r.events) == 0 {
      assert r'.attempts[|r.attempts|].number == r.row.attemptCount + 1;
      assert r'.attempts[|r.attempts| := r'.attempts[|r.attempts|]] == r'.attempts;
    }
  }

  lemma OrdinaryInv(s: State, op: Op)
    requires AllInv(s)
    ensures AllInv(Apply(s, op))
  {
    forall j | j in Apply(s, op).recs ensures RecordInv(Apply(s, op).recs[j]) {
      if j in s.recs {
        ApplyIsStep(s, op, j);
        StepInv(s.now, s.recs[j], StepFor(s, op, j));
      } else {
        ApplyNew(s, op, j);
        NewRecordInv(s.now, op.def, op.priority, op.notBefore, op.actor);
      }
    }
  }

  lemma OldLeaseNextInv(s: State, op: Op)
    requires AllInv(s) && op.LeaseNext?
    ensures AllInv(OldLeaseNext(s, op))
  {
    var next := NextJob(s, op.kind, op.locked);
    if next.Some? {
      OldLeaseIs(s.now, s.recs[next.value], op.worker, op.seconds, op.token);
      LeaseInv(s.now, s.recs[next.value], op.worker, op.seconds, op.token);
    }
  }

  lemma {:induction false} ReleaseRunInv(byAttempts: bool, s: State, ops: seq<ReleaseOp>)
    requires AllInv(s)
    ensures AllInv(ReleaseRun(byAttempts, s, ops))
    decreases |ops|
  {
    if |ops| > 0 {
      match ops[0] {
        case Release(j) => if j in s.recs { ReleaseInv(s.now, s.recs[j]); }
        case Ordinary(o) => if byAttempts && o.LeaseNext? { OldLeaseNextInv(s, o); } else { OrdinaryInv(s, o); }
      }
      ReleaseRunInv(byAttempts, ReleaseApply(byAttempts, s, ops[0]), ops[1..]);
    }
  }

  /** Whatever is refunded and released, in whatever order, the attempts of every
      job are numbered exactly 1..lease_count and each is charged or refunded. */
  lemma NumbersSurviveReleases(byAttempts: bool, start: Time, ops: seq<ReleaseOp>, j: JobId)
    requires j in ReleaseRun(byAttempts, Empty(start), ops).recs
    ensures var r := ReleaseRun(byAttempts, Empty(start), ops).recs[j];
            && r.row.attemptCount + Refunds(r.events) == r.row.leaseCount == |r.attempts|
            && (forall i :: 0 <= i < |r.attempts| ==> r.attempts[i].number == i + 1)
            && TokensDistinct(r.attempts) && 0 <= r.row.attemptCount <= r.row.def.maxAttempts
  {
    ReleaseRunInv(byAttempts, Empty(start), ops);
  }

  // ---- what the old numbering does in such runs ----

  lemma {:induction false} RefundsGrow(events: seq<Event>, more: seq<Event>)
    requires events <= more
    ensures Refunds(events) <= Refunds(more)
    decreases |more|
  {
    if |events| == |more| {
      assert events == more;
    } else {
      RefundsGrow(events, more[..|more| - 1]);
    }
  }

  lemma OnlyLeasesAddAttempts(now: Time, r: JobRecord, step: RecordStep)
    requires !step.TakeLease?
    ensures StepOn(now, r, step).attempts == r.attempts
  {
    if step.TokenCall? { CallKeepsToken(now, r, step.elsewhere, step.token, step.call); }
  }

  predicate Stuck(r: JobRecord, attempts: seq<Attempt>) { Refunds(r.events) > 0 && r.attempts == attempts }

  lemma OrdinaryStuck(s: State, op: Op, j: JobId)
    requires AllInv(s) && j in s.recs && Refunds(s.recs[j].events) > 0 && !op.LeaseNext?
    ensures j in Apply(s, op).recs && Stuck(Apply(s, op).recs[j], s.recs[j].attempts)
  {
    ApplyIsStep(s, op, j);
    var step := StepFor(s, op, j);
    OnlyLeasesAddAttempts(s.now, s.recs[j], step);
    StepEvolves(s.now, s.recs[j], step);
    RefundsGrow(s.recs[j].events, Apply(s, op).recs[j].events);
  }

  lemma OldLeaseStuck(s: State, op: Op, j: JobId)
    requires AllInv(s) && j in s.recs && Refunds(s.recs[j].events) > 0 && op.LeaseNext?
    ensures j in OldLeaseNext(s, op).recs && OldLeaseNext(s, op).recs[j] == s.recs[j]
  {
    if NextJob(s, op.kind, op.locked) == Some(j) { OldLeaseIs(s.now, s.recs[j], op.worker, op.seconds, op.token); }
  }

  /** Under the old numbering a job whose lease was refunded once gets no further
      attempt, however often it is released. */
  lemma {:induction false} OldNumberingSticks(s: State, ops: seq<ReleaseOp>, j: JobId)
    requires AllInv(s) && j in s.recs && Refunds(s.recs[j].events) > 0
    ensures j in ReleaseRun(true, s, ops).recs && Stuck(ReleaseRun(true, s, ops).recs[j], s.recs[j].attempts)
    decreases |ops|
  {
    if |ops| > 0 {
      match ops[0] {
        case Release(i) =>
        case Ordinary(o) => if o.LeaseNext? { OldLeaseStuck(s, o, j); } else { OrdinaryStuck(s, o, j); }
      }
      ReleaseRunInv(true, s, [ops[0]]);
      assert ReleaseRun(true, s, [ops[0]]) == ReleaseRun(true, ReleaseApply(true, s, ops[0]), []);
      OldNumberingSticks(ReleaseApply(true, s, ops[0]), ops[1..], j);
    }
  }
}
