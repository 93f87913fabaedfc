/** The ledger as mutable tables changed in place by the functions of schema fzh.
    Each method follows the statements of one plpgsql function on a working copy
    of the job's rows; returning `Raised` (or None) before the copy is written
    back is RAISE and the rollback it causes. */
module LedgerTables {
  import opened Basics
  import opened LedgerTypes
  import opened LedgerSpec
  import opened LedgerInvariant
  import opened LedgerReplay
  import opened LedgerRuns

  lemma Unchanged(s: State, j: JobId)
    requires j in s.recs
    ensures Put(s, j, s.recs[j]) == s
  {}

  /** The order is strict and total, so the lease query has one answer. */
  lemma PrecedesTotal(i: JobId, a: JobRow, j: JobId, b: JobRow)
    ensures i == j || Precedes(i, a, j, b) || Precedes(j, b, i, a)
    ensures !(Precedes(i, a, j, b) && Precedes(j, b, i, a))
  {
    StrTotal(i, j);
    if StrLess(i, j) && StrLess(j, i) { StrTransitive(i, j, i); }
    StrIrreflexive(i);
  }

  lemma PrecedesTransitive(i: JobId, a: JobRow, j: JobId, b: JobRow, k: JobId, c: JobRow)
    requires Precedes(i, a, j, b) && Precedes(j, b, k, c)
    ensures Precedes(i, a, k, c)
  {
    if StrLess(i, j) && StrLess(j, k) { StrTransitive(i, j, k); }
  }

  lemma NextIsUnique(s: State, kind: Option<string>, locked: set<JobId>, j: JobId)
    requires IsNext(s, kind, locked, j)
    ensures NextJob(s, kind, locked) == Some(j)
  {
    var n := NextJob(s, kind, locked).value;
    if n != j { PrecedesTotal(n, s.recs[n].row, j, s.recs[j].row); }
  }

  /** If any job qualifies, the query returns the first of them. */
  lemma NextExists(s: State, kind: Option<string>, locked: set<JobId>, j: JobId)
    requires Candidate(s, kind, locked, j)
    ensures NextJob(s, kind, locked).Some? && IsNext(s, kind, locked, NextJob(s, kind, locked).value)
  {
    var rows: set<JobId> := set i | i in s.recs && Candidate(s, kind, locked, i);
    var before := (a: JobId, b: JobId) => a in s.recs && b in s.recs && Precedes(a, s.recs[a].row, b, s.recs[b].row);
    assert StrictOrderOn(rows, before) by {
      forall a, b | a in rows && b in rows ensures a == b || before(a, b) || before(b, a) {
        PrecedesTotal(a, s.recs[a].row, b, s.recs[b].row);
      }
      forall a, b, c | a in rows && b in rows && c in rows && before(a, b) && before(b, c) ensures before(a, c) {
        PrecedesTransitive(a, s.recs[a].row, b, s.recs[b].row, c, s.recs[c].row);
      }
    }
    assert j in rows;
    var first := FirstExists(rows, before);
    forall i | Candidate(s, kind, locked, i) && i != first
      ensures Precedes(first, s.recs[first].row, i, s.recs[i].row)
    {
      assert i in rows && before(first, i);
    }
    assert IsNext(s, kind, locked, first);
  }

  // ---- the reaper ----

  /** ORDER BY lease_expires_at, job_id. */
  predicate Sooner(i: JobId, a: JobRow, j: JobId, b: JobRow) {
    a.leaseExpiresAt.Some? && b.leaseExpiresAt.Some?
    && (a.leaseExpiresAt.value < b.leaseExpiresAt.value || (a.leaseExpiresAt == b.leaseExpiresAt && StrLess(i, j)))
  }

  predicate ExpiresBefore(s: State, i: JobId, j: JobId) {
    i in s.recs && j in s.recs && Sooner(i, s.recs[i].row, j, s.recs[j].row)
  }

  /** The first of a set of expired rows. */
  lemma FirstExpired(s: State, rows: set<JobId>)
    requires rows != {} && forall j :: j in rows ==> j in s.recs && Expired(s.now, s.recs[j].row)
    ensures exists j :: j in rows && forall i :: i in rows && i != j ==> ExpiresBefore(s, j, i)
  {
    var before := (a: JobId, b: JobId) => ExpiresBefore(s, a, b);
    assert StrictOrderOn(rows, before) by {
      forall a, b | a in rows && b in rows ensures a == b || before(a, b) || before(b, a) {
        StrTotal(a, b);
      }
      forall a, b, c | a in rows && b in rows && c in rows && before(a, b) && before(b, c) ensures before(a, c) {
        if StrLess(a, b) && StrLess(b, c) { StrTransitive(a, b, c); }
      }
    }
    var first := FirstExists(rows, before);
  }

  /** The ledger when `left` are the expired rows still to be visited. */
  ghost predicate ReapedBut(s: State, s': State, locked: set<JobId>, actor: string, left: set<JobId>) {
    s'.now == s.now && s'.recs.Keys == s.recs.Keys
    && forall j :: j in s.recs ==>
         s'.recs[j] == if ToReap(s, locked, j) && j !in left then ReapOn(s.now, s.recs[j], actor) else s.recs[j]
  }

  lemma ReapOneMore(s: State, s': State, locked: set<JobId>, actor: string, left: set<JobId>, j: JobId)
    requires ReapedBut(s, s', locked, actor, left) && j in left && ToReap(s, locked, j)
    ensures ReapedBut(s, Put(s', j, ReapOn(s'.now, s'.recs[j], actor)), locked, actor, left - {j})
  {}

  lemma ReapedKeysUnique(s: State, s': State, locked: set<JobId>, actor: string, left: set<JobId>)
    requires ReapedBut(s, s', locked, actor, left) && KeysUnique(s)
    ensures KeysUnique(s')
  {
    forall j | j in s.recs ensures s'.recs[j].row.def == s.recs[j].row.def {}
  }

  function Ids(reaped: seq<(JobId, Status)>): set<JobId> {
    set i | 0 <= i < |reaped| :: reaped[i].0
  }

  ghost predicate StatusesReported(reaped: seq<(JobId, Status)>, s: State) {
    forall i :: 0 <= i < |reaped| ==> reaped[i].0 in s.recs && s.recs[reaped[i].0].row.status == reaped[i].1
  }

  ghost predicate InOrder(s: State, reaped: seq<(JobId, Status)>) {
    forall i, k :: 0 <= i < k < |reaped| ==> ExpiresBefore(s, reaped[i].0, reaped[k].0)
  }

  ghost predicate Before(s: State, reaped: seq<(JobId, Status)>, left: set<JobId>) {
    forall i, j :: 0 <= i < |reaped| && j in left ==> ExpiresBefore(s, reaped[i].0, j)
  }

  lemma OrderOneMore(s: State, reaped: seq<(JobId, Status)>, left: set<JobId>, j: JobId, status: Status)
    requires InOrder(s, reaped) && Before(s, reaped, left) && j in left
    requires forall i :: i in left && i != j ==> ExpiresBefore(s, j, i)
    ensures InOrder(s, reaped + [(j, status)]) && Before(s, reaped + [(j, status)], left - {j})
    ensures Ids(reaped + [(j, status)]) == Ids(reaped) + {j}
  {
    var more := reaped + [(j, status)];
    assert more[|reaped|].0 == j;
    assert forall i :: 0 <= i < |reaped| ==> more[i] == reaped[i];
  }

  lemma ReportOneMore(s: State, reaped: seq<(JobId, Status)>, j: JobId, r: JobRecord)
    requires StatusesReported(reaped, s) && j in s.recs && j !in Ids(reaped)
    ensures StatusesReported(reaped + [(j, r.row.status)], Put(s, j, r))
  {}

  function Reapable(s: State, locked: set<JobId>): set<JobId> {
    set j | j in s.recs && ToReap(s, locked, j)
  }

  /** The loop invariant of the reaper: `reaped` has been visited, `left` has not. */
  ghost predicate ReapProgress(s: State, s': State, locked: set<JobId>, actor: string, reaped: seq<(JobId, Status)>,
                               left: set<JobId>) {
    && ReapedBut(s, s', locked, actor, left)
    && left <= Reapable(s, locked) && Ids(reaped) == Reapable(s, locked) - left
    && (forall j :: j in left
          ==> j in s.recs && j in s'.recs && s'.recs[j] == s.recs[j] && Expired(s.now, s.recs[j].row))
    && StatusesReported(reaped, s') && InOrder(s, reaped) && Before(s, reaped, left)
  }

  lemma ReapStarts(s: State, locked: set<JobId>, actor: string)
    ensures ReapProgress(s, s, locked, actor, [], Reapable(s, locked))
  {}

  lemma VisitOneMore(s: State, s': State, locked: set<JobId>, actor: string, reaped: seq<(JobId, Status)>,
                     left: set<JobId>, j: JobId)
    requires ReapProgress(s, s', locked, actor, reaped, left) && j in left
    requires forall i :: i in left && i != j ==> ExpiresBefore(s, j, i)
    ensures var r := ReapOn(s'.now, s'.recs[j], actor);
            ReapProgress(s, Put(s', j, r), locked, actor, reaped + [(j, r.row.status)], left - {j})
  {
    var r := ReapOn(s'.now, s'.recs[j], actor);
    ReapOneMore(s, s', locked, actor, left, j);
    OrderOneMore(s, reaped, left, j, r.row.status);
    ReportOneMore(s', reaped, j, r);
  }

  lemma ReapFinished(s: State, s': State, locked: set<JobId>, actor: string, reaped: seq<(JobId, Status)>)
    requires ReapProgress(s, s', locked, actor, reaped, {}) && ActorOk(actor) && KeysUnique(s)
    ensures s' == ReapAll(s, locked, actor) && KeysUnique(s')
    ensures Ids(reaped) == Reapable(s, locked)
  {
    assert s'.recs == ReapAll(s, locked, actor).recs;
    ReapedKeysUnique(s, s', locked, actor, {});
  }

  /** Reaping touches exactly the expired unlocked leases, and leaves none. */
  lemma ReapLeavesNone(s: State, locked: set<JobId>, actor: string, j: JobId)
    requires j in s.recs && ActorOk(actor)
    ensures var s' := ReapAll(s, locked, actor);
            && j in s'.recs && !ToReap(s', locked, j)
            && (!ToReap(s, locked, j) ==> s'.recs[j] == s.recs[j])
            && (ToReap(s, locked, j) ==> !Holding(s'.recs[j].row.status) && s'.recs[j].row.leaseToken.None?)
  {}

  /** A second pass at the same moment changes nothing. */
  lemma ReapTwice(s: State, locked: set<JobId>, actor: string, actor': string)
    ensures ActorOk(actor) ==> ReapAll(ReapAll(s, locked, actor), locked, actor') == ReapAll(s, locked, actor)
  {}

  /** Reaping one row at a time, in any order that visits every expired
      unlocked row, comes to the same ledger. */
  ghost function ReapInOrder(s: State, order: seq<JobId>, actor: string): State
    requires forall i :: 0 <= i < |order| ==> order[i] in s.recs
    decreases |order|
  {
    if |order| == 0 then s
    else
      var j := order[0];
      var s1 := Put(s, j, ReapOn(s.now, s.recs[j], actor));
      ReapInOrder(s1, order[1..], actor)
  }

  lemma {:induction false} ReapOrderIrrelevant(s: State, locked: set<JobId>, actor: string, order: seq<JobId>)
    requires ActorOk(actor)
    requires forall i :: 0 <= i < |order| ==> order[i] in s.recs && order[i] !in locked
    requires forall j :: ToReap(s, locked, j) ==> j in order
    ensures ReapInOrder(s, order, actor) == ReapAll(s, locked, actor)
    decreases |order|
  {
    if |order| == 0 {
      assert ReapAll(s, locked, actor).recs == s.recs;
    } else {
      var j := order[0];
      var s1 := Put(s, j, ReapOn(s.now, s.recs[j], actor));
      assert !Expired(s.now, s1.recs[j].row);
      forall i | ToReap(s1, locked, i) ensures i in order[1..] {
        assert i != j && ToReap(s, locked, i);
      }
      ReapOrderIrrelevant(s1, locked, actor, order[1..]);
      assert ReapAll(s1, locked, actor).recs == ReapAll(s, locked, actor).recs;
    }
  }

  class Ledger {
    var now: Time
    /** The rows of fzh.jobs, job_attempts, job_gate_decisions, job_effects and
        job_events, grouped by job_id. */
    var recs: map<JobId, JobRecord>

    ghost function View(): State reads this {
      State(now, recs)
    }

    /** UNIQUE (job_kind, idempotency_key) */
    ghost predicate Valid() reads this {
      KeysUnique(View())
    }

    constructor (start: Time)
      ensures Valid() && View() == Empty(start)
    {
      now, recs := start, map[];
    }

    method Advance(elapsed: nat)
      requires Valid()
      modifies this`now
      ensures Valid() && View() == old(View()).(now := old(now) + elapsed)
    {
      now := now + elapsed;
    }

    method SubmitJob(id: JobId, d: Definition, priority: int, notBefore: Time, actor: string) returns (r: Option<JobId>)
      requires Valid()
      modifies this`recs
      ensures Valid() && View() == Submit(old(View()), id, d, priority, notBefore, actor)
      ensures r == SubmittedId(old(View()), id, d, priority, actor)
    {
      if !DefinitionOk(d) || !(0 <= priority <= 1000) { return None; }
      // ON CONFLICT (job_kind, idempotency_key) DO NOTHING
      if j :| j in recs && SameKey(recs[j].row.def, d) {
        ResubmitHere(View(), j, d, id, priority, notBefore, actor);
        if recs[j].row.def != d { return None; }
        return Some(j);
      }
      assert forall j :: !Holds(View(), d, j);
      if id in recs || !ActorOk(actor) { return None; }
      var rec := JobRecord(
        JobRow(d, priority, now, Queued, 0, 0, notBefore, None, None, None, None, None, None, now, None),
        [], map[], map[], []);
      rec := rec.(events := [Event(None, EvSubmitted(d.idempotencyKey), None, Queued, actor, now)]);
      recs := recs[id := rec];
      r := Some(id);
    }

    predicate Qualifies(j: JobId, kind: Option<string>, locked: set<JobId>)
      reads this
      requires j in recs
    {
      j !in locked && Leasable(now, recs[j].row) && (kind.None? || recs[j].row.def.kind == kind.value)
    }

    predicate First(j: JobId, kind: Option<string>, locked: set<JobId>)
      reads this
    {
      j in recs && Qualifies(j, kind, locked)
      && forall i :: i in recs && Qualifies(i, kind, locked) && i != j ==> Precedes(j, recs[j].row, i, recs[i].row)
    }

    lemma FirstIsNext(j: JobId, kind: Option<string>, locked: set<JobId>)
      ensures First(j, kind, locked) <==> IsNext(View(), kind, locked, j)
    {}

    /** The job leased is the first candidate; if there is any candidate (and the
        arguments are acceptable and the token new), some job is leased. */
    method LeaseNextJob(worker: string, seconds: int, kind: Option<string>, t: Token, locked: set<JobId>)
      returns (leased: Option<JobId>)
      requires Valid()
      modifies this`recs
      ensures Valid() && View() == LedgerSpec.LeaseNextJob(old(View()), worker, seconds, kind, t, locked)
      ensures leased.Some? ==> IsNext(old(View()), kind, locked, leased.value)
      ensures leased.None? ==> View() == old(View())
    {
      ghost var next := NextJob(View(), kind, locked);
      if next.Some? { Unchanged(View(), next.value); }
      if !LeaseSecondsOk(seconds) || !WorkerOk(worker) { return None; }
      // SELECT ... ORDER BY ... FOR UPDATE SKIP LOCKED LIMIT 1
      if j :| j in recs && First(j, kind, locked) {
        FirstIsNext(j, kind, locked);
        NextIsUnique(View(), kind, locked, j);
        var rec := recs[j];
        var expiry := now + seconds * SECOND;
        rec := rec.(row := rec.row.(
          status := Leased, attemptCount := rec.row.attemptCount + 1, leaseCount := rec.row.leaseCount + 1,
          leaseOwner := Some(worker), leaseToken := Some(t), leaseExpiresAt := Some(expiry), updatedAt := now));
        if FindAttempt(rec.attempts, t).Some? { return None; }   // UNIQUE (job_id, lease_token)
        rec := rec.(attempts := rec.attempts + [Attempt(rec.row.leaseCount, worker, t, now, expiry)]);
        rec := Logged(rec, Event(Some(|rec.attempts| - 1),
                                 EvLeased(expiry, rec.row.leaseCount, rec.row.attemptCount, rec.row.def.maxAttempts),
                                 Some(QueuedOrRetryWait), Leased, worker, now));
        recs := recs[j := rec];
        return Some(j);
      }
      if next.Some? { FirstIsNext(next.value, kind, locked); }
      leased := None;
    }

    /** What a token call did: the answer of the specification, written back. */
    twostate predicate Answered(j: JobId, a: Answer, reply: Reply) reads this {
      View() == Put(old(View()), j, a.rec) && reply == a.reply
    }

    method RecordJobGateDecision(j: JobId, t: Token, d: Decision, e: GateEvidence, actor: string) returns (reply: Reply)
      requires Valid()
      modifies this`recs
      ensures Valid()
      ensures j in old(recs) ==> Answered(j, RecordGateOn(now, old(recs)[j], t, d, e, actor), reply)
      ensures j !in old(recs) ==> View() == old(View()) && reply == Raised
    {
      if j in recs { Unchanged(View(), j); }
      if !EvidenceOk(e) { return Raised; }
      if j !in recs { return Raised; }
      var rec := recs[j];
      if rec.row.status != Leased || !Live(now, rec.row, t) { return Raised; }
      var attempt := FindAttempt(rec.attempts, t);
      if attempt.None? || attempt.value in rec.gates { return Raised; }   // NOT NULL, UNIQUE (attempt_id)
      rec := rec.(gates := rec.gates[attempt.value := GateDecision(d, e, now)]);
      if !ActorOk(actor) { return Raised; }
      if d == Allow {
        rec := Logged(rec, Event(attempt, EvGateAllowed(e), Some(Known(Leased)), Leased, actor, now));
        recs := recs[j := rec];
        return GateStatus(Leased);
      }
      var status := if d == ApprovalRequired then WaitingApproval else Denied;
      rec := rec.(row := rec.row.(
        status := status,
        attemptCount := if status == WaitingApproval then Max(rec.row.attemptCount - 1, 0) else rec.row.attemptCount,
        leaseOwner := None, leaseToken := None, leaseExpiresAt := None,
        terminalAt := if status == Denied then Some(now) else None, updatedAt := now));
      rec := Logged(rec, Event(attempt, if status == WaitingApproval then EvWaitingApproval(e) else EvGateDenied(e),
                               Some(Known(Leased)), status, actor, now));
      recs := recs[j := rec];
      reply := GateStatus(status);
    }

    method StartJob(j: JobId, t: Token, actor: string) returns (reply: Reply)
      requires Valid()
      modifies this`recs
      ensures Valid()
      ensures j in old(recs) ==> Answered(j, StartOn(now, old(recs)[j], t, actor), reply)
      ensures j !in old(recs) ==> View() == old(View()) && reply == Raised
    {
      if j !in recs { return Raised; }
      Unchanged(View(), j);
      var rec := recs[j];
      if rec.row.status != Leased || !Live(now, rec.row, t) { return Raised; }
      var attempt := FindAttempt(rec.attempts, t);
      if rec.row.def.sideEffecting && !Allowed(rec, attempt) { return Raised; }
      rec := rec.(row := rec.row.(status := Running, updatedAt := now));
      if !ActorOk(actor) { return Raised; }
      rec := Logged(rec, Event(attempt, EvStarted, Some(Known(Leased)), Running, actor, now));
      recs := recs[j := rec];
      reply := StartOk;
    }

    method HeartbeatJob(j: JobId, t: Token, seconds: int) returns (reply: Reply)
      requires Valid()
      modifies this`recs
      ensures Valid()
      ensures j in old(recs) ==> Answered(j, HeartbeatOn(now, old(recs)[j], t, seconds), reply)
      ensures j !in old(recs) ==> View() == old(View()) && reply == Raised
    {
      if j in recs { Unchanged(View(), j); }
      if !LeaseSecondsOk(seconds) { return Raised; }
      var expiry := now + seconds * SECOND;
      if j in recs && Holding(recs[j].row.status) && Live(now, recs[j].row, t) {
        recs := recs[j := recs[j].(row := recs[j].row.(leaseExpiresAt := Some(expiry), updatedAt := now))];
        return LeaseUntil(expiry);
      }
      reply := Raised;
    }

    method BeginJobEffect(j: JobId, t: Token, key: string, actor: string) returns (reply: Reply)
      requires Valid()
      modifies this`recs
      ensures Valid()
      ensures j in old(recs) ==>
                Answered(j, BeginEffectOn(now, old(recs)[j], KeyElsewhere(old(View()), j, key), t, key, actor), reply)
      ensures j !in old(recs) ==> View() == old(View()) && reply == Raised
    {
      if j !in recs { return Raised; }
      Unchanged(View(), j);
      var rec := recs[j];
      if rec.row.status != Running || !Live(now, rec.row, t) { return Raised; }
      if !rec.row.def.sideEffecting { return Raised; }
      var attempt := FindAttempt(rec.attempts, t);
      if !Allowed(rec, attempt) { return Raised; }
      if !(1 <= |key| <= 256) { return Raised; }
      // INSERT ... ON CONFLICT (effect_key) DO NOTHING
      if key in rec.effects {
        if rec.effects[key].attempt != attempt.value { return Raised; }
        return EffectIs(rec.effects[key].state);
      }
      if owner :| owner in recs && owner != j && key in recs[owner].effects { return Raised; }
      rec := rec.(effects := rec.effects[key := Effect(attempt.value, EffectStarted, now, None, None)]);
      if !ActorOk(actor) { return Raised; }
      rec := Logged(rec, Event(attempt, EvEffectStarted(key), Some(Known(Running)), Running, actor, now));
      recs := recs[j := rec];
      reply := EffectIs(EffectStarted);
    }

    method CommitJobEffect(j: JobId, t: Token, key: string, receipt: Option<string>, actor: string)
      returns (reply: Reply)
      requires Valid()
      modifies this`recs
      ensures Valid()
      ensures j in old(recs) ==> Answered(j, CommitEffectOn(now, old(recs)[j], t, key, receipt, actor), reply)
      ensures j !in old(recs) ==> View() == old(View()) && reply == Raised
    {
      if j !in recs { return Raised; }
      Unchanged(View(), j);
      var rec := recs[j];
      if rec.row.status != Running || !Live(now, rec.row, t) { return Raised; }
      var attempt := FindAttempt(rec.attempts, t);
      if key in rec.effects && Some(rec.effects[key].attempt) == attempt && rec.effects[key].state == EffectStarted {
        var effect := rec.effects[key];
        rec := rec.(effects := rec.effects[key := effect.(state := EffectCommitted, committedAt := Some(now),
                                                          receipt := receipt)]);
        if !ActorOk(actor) { return Raised; }
        rec := Logged(rec, Event(attempt, EvEffectCommitted(key, receipt), Some(Known(Running)), Running, actor, now));
        recs := recs[j := rec];
        return CommitOk;
      }
      if key in rec.effects && Some(rec.effects[key].attempt) == attempt { return CommitOk; }
      reply := Raised;
    }

    method CompleteJob(j: JobId, t: Token, result: Option<Json>, actor: string) returns (reply: Reply)
      requires Valid()
      modifies this`recs
      ensures Valid()
      ensures j in old(recs) ==> Answered(j, CompleteOn(now, old(recs)[j], t, result, actor), reply)
      ensures j !in old(recs) ==> View() == old(View()) && reply == Raised
    {
      if j !in recs { return Raised; }
      Unchanged(View(), j);
      var rec := recs[j];
      if rec.row.status != Running || !Live(now, rec.row, t) { return Raised; }
      var attempt := FindAttempt(rec.attempts, t);
      if rec.row.def.sideEffecting {
        if !HasEffect(rec, attempt) { return Raised; }
        if HasUncommittedEffect(rec, attempt) { return Raised; }
      }
      var value := if result.Some? then result.value else map[];
      rec := rec.(row := rec.row.(
        status := Succeeded, result := Some(value), leaseOwner := None, leaseToken := None, leaseExpiresAt := None,
        terminalAt := Some(now), updatedAt := now));
      if !ActorOk(actor) { return Raised; }
      rec := Logged(rec, Event(attempt, EvSucceeded(value), Some(Known(Running)), Succeeded, actor, now));
      recs := recs[j := rec];
      reply := CompleteOk;
    }

    /** The IF chain shared by fail_job and the reaper (which never passes `retryable` false). */
    method StatusAfter(rec: JobRecord, attempt: Option<nat>, retryable: bool) returns (status: Status)
      ensures status == AfterAttempt(rec, attempt, retryable)
    {
      if HasEffect(rec, attempt) {
        status := ReconciliationRequired;
      } else if retryable && rec.row.attemptCount < rec.row.def.maxAttempts {
        status := RetryWait;
      } else if retryable {
        status := DeadLetter;
      } else {
        status := Failed;
      }
    }

    method FailJob(j: JobId, t: Token, code: string, summary: string, retryable: bool, delaySeconds: int, actor: string)
      returns (reply: Reply)
      requires Valid()
      modifies this`recs
      ensures Valid()
      ensures j in old(recs) ==>
                Answered(j, FailOn(now, old(recs)[j], t, code, summary, retryable, delaySeconds, actor), reply)
      ensures j !in old(recs) ==> View() == old(View()) && reply == Raised
    {
      if j !in recs { return Raised; }
      Unchanged(View(), j);
      var rec := recs[j];
      if !Holding(rec.row.status) || !Live(now, rec.row, t) { return Raised; }
      var attempt := FindAttempt(rec.attempts, t);
      var status := StatusAfter(rec, attempt, retryable);
      var was := rec.row.status;
      rec := rec.(row := rec.row.(
        status := status, lastErrorCode := Some(code), lastErrorSummary := Some(Left(summary, 2048)),
        nextEligibleAt := if status == RetryWait then now + Max(0, delaySeconds) * SECOND else rec.row.nextEligibleAt,
        leaseOwner := None, leaseToken := None, leaseExpiresAt := None,
        terminalAt := if status == Failed || status == DeadLetter then Some(now) else None, updatedAt := now));
      if !ActorOk(actor) { return Raised; }
      rec := Logged(rec, Event(attempt, EvAttemptFailed(code, Left(summary, 2048), retryable), Some(Known(was)),
                               status, actor, now));
      assert Answer(rec, FailedTo(status)) == FailOn(now, recs[j], t, code, summary, retryable, delaySeconds, actor);
      recs := recs[j := rec];
      reply := FailedTo(status);
    }

    method CancelJob(j: JobId, reason: string, actor: string) returns (ok: bool)
      requires Valid()
      modifies this`recs
      ensures Valid() && (ok <==> View() != old(View()))
      ensures View() ==
                if j in old(recs) then Put(old(View()), j, CancelOn(now, old(recs)[j], reason, actor)) else old(View())
    {
      if j !in recs { return false; }
      Unchanged(View(), j);
      var rec := recs[j];
      if !Cancellable(rec.row.status) { return false; }
      rec := rec.(row := rec.row.(
        status := Cancelled, terminalAt := Some(now), updatedAt := now,
        lastErrorCode := Some("cancelled"), lastErrorSummary := Some(Left(reason, 2048))));
      if !ActorOk(actor) { return false; }
      rec := Logged(rec, Event(None, EvCancelled(Left(reason, 2048)), Some(Known(recs[j].row.status)), Cancelled,
                               actor, now));
      assert rec.events != recs[j].events;
      recs := recs[j := rec];
      ok := true;
    }

    /** Visits the expired leases in the order of the query. `reaped` is what the
        function returns, row by row; it raises if the event of the first row is
        refused. */
    method ReapExpiredJobs(locked: set<JobId>, actor: string) returns (reaped: Option<seq<(JobId, Status)>>)
      requires Valid()
      modifies this`recs
      ensures Valid() && View() == ReapAll(old(View()), locked, actor)
      ensures reaped.None? <==> !ActorOk(actor) && Reapable(old(View()), locked) != {}
      ensures reaped.Some? ==>
                Ids(reaped.value) == Reapable(old(View()), locked)
                && StatusesReported(reaped.value, View()) && InOrder(old(View()), reaped.value)
    {
      var left: set<JobId> := set j | j in recs && j !in locked && Expired(now, recs[j].row);
      ghost var s := View();
      var visited: seq<(JobId, Status)> := [];
      assert left == Reapable(s, locked);
      ReapStarts(s, locked, actor);
      if !ActorOk(actor) { return if left == {} then Some([]) else None; }   // length(actor) BETWEEN 1 AND 128
      while left != {}
        invariant now == s.now && ReapProgress(s, View(), locked, actor, visited, left)
        decreases |left|
      {
        var j := NextExpired(left, s);
        VisitOneMore(s, View(), locked, actor, visited, left, j);
        var status := ReapOne(j, actor);
        visited := visited + [(j, status)];
        left := left - {j};
      }
      ReapFinished(s, View(), locked, actor, visited);
      reaped := Some(visited);
    }

    /** The next row of the query result. */
    method NextExpired(left: set<JobId>, ghost s: State) returns (j: JobId)
      requires left != {} && forall j :: j in left ==> j in recs && j in s.recs && recs[j] == s.recs[j]
      requires forall j :: j in left ==> Expired(s.now, s.recs[j].row)
      ensures j in left && forall i :: i in left && i != j ==> ExpiresBefore(s, j, i)
    {
      FirstExpired(s, left);
      j :| j in left && forall i :: i in left && i != j ==> Sooner(j, recs[j].row, i, recs[i].row);
    }

    /** The body of the reap_expired_jobs loop. */
    method ReapOne(j: JobId, actor: string) returns (status: Status)
      requires j in recs && Expired(now, recs[j].row)
      modifies this`recs
      ensures recs == old(recs)[j := ReapOn(now, old(recs)[j], actor)] && status == recs[j].row.status
    {
      var rec := recs[j];
      var attempt := if rec.row.leaseToken.Some? then FindAttempt(rec.attempts, rec.row.leaseToken.value) else None;
      status := StatusAfter(rec, attempt, true);
      rec := rec.(row := rec.row.(
        status := status, nextEligibleAt := if status == RetryWait then now else rec.row.nextEligibleAt,
        lastErrorCode := Some("lease_expired"),
        lastErrorSummary := Some("worker lease expired before terminal acknowledgement"),
        leaseOwner := None, leaseToken := None, leaseExpiresAt := None,
        terminalAt := if status == DeadLetter then Some(now) else None, updatedAt := now));
      rec := Logged(rec, Event(attempt, EvLeaseExpired(rec.row.attemptCount, rec.row.leaseCount),
                               Some(Known(recs[j].row.status)), status, actor, now));
      recs := recs[j := rec];
    }
  }
}
