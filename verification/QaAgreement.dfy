/** What a succeeded QA job says in the ledger is what its coordinator did.
    Here the lease tokens of QA jobs are used by coordinators only; operators,
    the reaper, other kinds of jobs, crashes and lost replies stay arbitrary. */
module QaAgreement {
  import opened Basics
  import opened LedgerTypes
  import opened LedgerSpec
  import opened LedgerInvariant
  import opened LedgerRuns
  import LedgerColumns
  import opened LedgerSplitCommit
  import opened LedgerClients
  import opened QaProfiles
  import opened QaCoordinator
  import opened QaSafety
  import BoundedCollector

  type Digest = SandboxResult -> string

  predicate Confined(s: System, step: Step) {
    match step
    case Environment(Invoke(j, _, _)) => !IsQa(s.ledger, j)
    case LateCommit(p) => !IsQa(s.ledger, p.job)
    case _ => true
  }

  ghost predicate AllConfined(digest: Digest, s: System, steps: seq<Step>)
    decreases |steps|
  {
    |steps| == 0 || (Confined(s, steps[0]) && AllConfined(digest, Next(digest, s, steps[0]), steps[1..]))
  }

  // ---- what the effects of an attempt say about its coordinator ----

  predicate MayHaveBegun(pc: Pc) { Claimed(pc) || pc.AtFail? || pc.Gone? }

  predicate Stopped(pc: Pc) { pc.Finished? || pc.AtFail? || pc.Gone? }

  /** Result number `i` is committed under the key of profile number `i`. */
  predicate Landed(digest: Digest, r: JobRecord, c: Coordinator, i: nat)
    requires i < |c.results| <= |c.selected|
  {
    var k := ProfileKey(c.job, c.selected[i]);
    && k in r.effects && Some(r.effects[k].attempt) == FindAttempt(r.attempts, c.token)
    && r.effects[k].state == EffectCommitted && r.effects[k].receipt == Some(digest(c.results[i]))
  }

  /** `k` is the key of a profile that is done, or of the one being worked on. */
  predicate KeyOf(c: Coordinator, k: string) {
    exists i :: 0 <= i < |c.selected| && i <= |c.results| && k == ProfileKey(c.job, c.selected[i])
      && (i == |c.results| ==> MayHaveBegun(c.pc))
  }

  predicate CurrentIsOpen(r: JobRecord, c: Coordinator) {
    Claimed(c.pc) && |c.results| < |c.selected| ==> (
      var k := ProfileKey(c.job, NextProfile(c));
      k in r.effects && Some(r.effects[k].attempt) == FindAttempt(r.attempts, c.token)
          && r.effects[k].state == EffectStarted)
  }

  predicate Tracks(digest: Digest, r: JobRecord, c: Coordinator) {
    && FindAttempt(r.attempts, c.token).Some? && |c.results| <= |c.selected|
    && (forall i :: 0 <= i < |c.results| ==> Landed(digest, r, c, i))
    && (forall k :: k in r.effects && Some(r.effects[k].attempt) == FindAttempt(r.attempts, c.token) ==> KeyOf(c, k))
    && CurrentIsOpen(r, c)
  }

  /** The effects of attempt `a` are the same in both records. */
  predicate SameOwned(r: JobRecord, r': JobRecord, a: Option<nat>) {
    && (forall k :: k in r.effects && Some(r.effects[k].attempt) == a
          ==> k in r'.effects && r'.effects[k] == r.effects[k])
    && (forall k :: k in r'.effects && Some(r'.effects[k].attempt) == a
          ==> k in r.effects && r'.effects[k] == r.effects[k])
  }

  lemma TracksSame(digest: Digest, r: JobRecord, r': JobRecord, c: Coordinator)
    requires Tracks(digest, r, c) && SameOwned(r, r', FindAttempt(r.attempts, c.token))
    requires FindAttempt(r'.attempts, c.token) == FindAttempt(r.attempts, c.token)
    ensures Tracks(digest, r', c)
  {
    forall i | 0 <= i < |c.results| ensures Landed(digest, r', c, i) { assert Landed(digest, r, c, i); }
  }

  /** `c'` has done as much as `c`, and is not in a state where more is expected of the ledger. */
  predicate SameProgress(c: Coordinator, c': Coordinator) {
    && c'.job == c.job && c'.token == c.token && c'.results == c.results
    && c'.config == c.config && c'.required == c.required
    && (c.admitted.Some? ==> c'.admitted == c.admitted) && (c.pc.AtCheck? || c'.clean == c.clean)
    && (c'.selected == c.selected || c.selected == [])
    && (MayHaveBegun(c.pc) ==> MayHaveBegun(c'.pc))
    && (Claimed(c'.pc) ==> Claimed(c.pc) && c'.selected == c.selected)
    && (Stopped(c.pc) ==> Stopped(c'.pc) && c'.selected == c.selected)
    && (c.pc.AwaitCommit? || c.pc.AtFail? || c.pc.Gone? ==>
          c'.selected == c.selected && (c'.pc == c.pc || c'.pc.AtFail? || c'.pc.Gone?))
  }

  lemma TracksProgress(digest: Digest, r: JobRecord, c: Coordinator, c': Coordinator)
    requires Tracks(digest, r, c) && SameProgress(c, c')
    ensures Tracks(digest, r, c')
  {
    forall i | 0 <= i < |c'.results| ensures Landed(digest, r, c', i) { assert Landed(digest, r, c, i); }
    forall k | k in r.effects && Some(r.effects[k].attempt) == FindAttempt(r.attempts, c'.token) ensures KeyOf(c', k) {
      assert KeyOf(c, k);
    }
  }

  lemma ExceptedProgress(c: Coordinator)
    requires WellFormed(c)
    ensures SameProgress(c, Excepted(c)) && SameProgress(c, c.(pc := Gone))
  {}

  lemma LocalProgress(c: Coordinator, choice: Choice)
    requires WellFormed(c)
    ensures SameProgress(c, Local(c, choice))
  {
    ExceptedProgress(c);
  }

  lemma RepliedProgress(c: Coordinator, reply: Reply)
    requires WellFormed(c) && !c.pc.AwaitCommit?
    requires !(c.pc.AtBegin? && reply == EffectIs(EffectStarted))
    ensures SameProgress(c, Replied(c, reply))
  {}

  // ---- the invariant ----

  predicate Tracked(digest: Digest, s: State, c: Coordinator) {
    IsQa(s, c.job) && Tracks(digest, s.recs[c.job], c)
  }

  /** A commit whose UPDATE is outstanding is for the profile being worked on. */
  predicate PendingOk(digest: Digest, s: State, c: Coordinator, p: Pending) {
    && c.started && c.job in s.recs && p.job == c.job && |c.results| < |c.selected|
    && p.key == ProfileKey(c.job, NextProfile(c)) && p.attempt == FindAttempt(s.recs[c.job].attempts, c.token)
    && (c.pc.AtFail? || c.pc.Gone? || (c.pc.AwaitCommit? && p.receipt == Some(digest(c.pc.result))))
  }

  /** The result is the verdict on all selected profiles, or the rejection of a job
      that is not side-effecting. */
  predicate FullyRecorded(r: JobRecord, c: Coordinator) {
    && |c.results| == |c.selected| && FindAttempt(r.attempts, c.token) == Newest(r)
    && ((r.row.result == Some(QaResult(Verdict(c.results))) && Chosen(c) && c.admitted == Some(true)
         && c.clean == |c.results|)
        || (!r.row.def.sideEffecting && c.selected == [] && c.admitted == Some(false)
            && r.row.result == Some(QaResult("reject"))))
  }

  /** `c` completed the job of record `r`. */
  predicate CompletedBy(r: JobRecord, c: Coordinator) {
    c.started && Stopped(c.pc) && FullyRecorded(r, c)
  }

  predicate Succeeds(s: State, j: JobId) {
    IsQa(s, j) && s.recs[j].row.status == Succeeded
  }

  ghost predicate AllTracked(digest: Digest, s: System) {
    forall id :: id in s.coordinators && s.coordinators[id].started ==> Tracked(digest, s.ledger, s.coordinators[id])
  }

  ghost predicate CommitsOk(digest: Digest, s: System) {
    forall id :: id in s.commits
        ==> id in s.coordinators && PendingOk(digest, s.ledger, s.coordinators[id], s.commits[id])
  }

  predicate Attributed(s: System, j: JobId)
    requires j in s.ledger.recs
  {
    && j in s.completedBy && s.completedBy[j] in s.coordinators && s.coordinators[s.completedBy[j]].job == j
    && CompletedBy(s.ledger.recs[j], s.coordinators[s.completedBy[j]])
  }

  ghost predicate CompletionsOk(s: System) {
    forall j :: Succeeds(s.ledger, j) ==> Attributed(s, j)
  }

  ghost predicate AgreeInv(digest: Digest, s: System) {
    AllTracked(digest, s) && CommitsOk(digest, s) && CompletionsOk(s)
  }

  // ---- moves of the ledger ----

  /** The effects of the coordinator's own attempt are untouched. */
  predicate Undisturbed(s: State, s': State, c: Coordinator) {
    c.job in s.recs && c.job in s'.recs
    && SameOwned(s.recs[c.job], s'.recs[c.job], FindAttempt(s.recs[c.job].attempts, c.token))
  }

  ghost predicate NoNewSuccess(s: State, s': State) {
    forall j :: Succeeds(s', j) ==> Succeeds(s, j)
  }

  lemma TokenStable(s: State, s': State, c: Coordinator)
    requires Moves(s, s') && c.job in s.recs && FindAttempt(s.recs[c.job].attempts, c.token).Some?
    ensures c.job in s'.recs
        && FindAttempt(s'.recs[c.job].attempts, c.token) == FindAttempt(s.recs[c.job].attempts, c.token)
    ensures s'.recs[c.job].row.def == s.recs[c.job].row.def
  {
    assert Evolves(s.recs[c.job], s'.recs[c.job]) && SafeRecord(s'.recs[c.job]);
    FindAttemptStable(s.recs[c.job], s'.recs[c.job], c.token);
  }

  lemma TrackedMoves(digest: Digest, s: State, s': State, c: Coordinator)
    requires Moves(s, s') && Tracked(digest, s, c) && Undisturbed(s, s', c)
    ensures Tracked(digest, s', c)
  {
    TokenStable(s, s', c);
    TracksSame(digest, s.recs[c.job], s'.recs[c.job], c);
  }

  lemma CompletedByMoves(r: JobRecord, r': JobRecord, c: Coordinator)
    requires Evolves(r, r') && SafeRecord(r) && SafeRecord(r') && r.row.status == Succeeded
    requires CompletedBy(r, c) && FindAttempt(r.attempts, c.token).Some?
    ensures CompletedBy(r', c)
  {
    FindAttemptStable(r, r', c.token);
  }

  lemma AttributedMoves(s: System, ledger: State, j: JobId)
    requires CoordinatorsOk(s) && Moves(s.ledger, ledger) && Succeeds(s.ledger, j) && Attributed(s, j)
    ensures j in ledger.recs && Attributed(s.(ledger := ledger), j)
  {
    assert Backed(s.ledger, s.coordinators[s.completedBy[j]]);
    assert Evolves(s.ledger.recs[j], ledger.recs[j]) && SafeRecord(s.ledger.recs[j]) && SafeRecord(ledger.recs[j]);
    CompletedByMoves(s.ledger.recs[j], ledger.recs[j], s.coordinators[s.completedBy[j]]);
  }

  /** Coordinator `id` moves on to `c` while the ledger moves; none of its commits is outstanding any more. */
  function Acted(s: System, ledger: State, id: nat, c: Coordinator): System {
    s.(ledger := ledger, coordinators := s.coordinators[id := c], commits := s.commits - {id})
  }

  /** The move touches no effects of the other coordinators. */
  ghost predicate OthersUndisturbed(s: System, ledger: State, id: nat) {
    forall b :: b in s.coordinators && b != id && s.coordinators[b].started
        ==> Undisturbed(s.ledger, ledger, s.coordinators[b])
  }

  lemma ActorTracked(digest: Digest, s: System, ledger: State, id: nat, c: Coordinator)
    requires AllTracked(digest, s) && Moves(s.ledger, ledger) && OthersUndisturbed(s, ledger, id)
    requires c.started ==> Tracked(digest, ledger, c)
    ensures AllTracked(digest, Acted(s, ledger, id, c))
  {
    forall b | b in s.coordinators && b != id && s.coordinators[b].started
      ensures Tracked(digest, ledger, s.coordinators[b])
    {
      TrackedMoves(digest, s.ledger, ledger, s.coordinators[b]);
    }
  }

  lemma ActorCommits(digest: Digest, s: System, ledger: State, id: nat, c: Coordinator)
    requires AllTracked(digest, s) && CommitsOk(digest, s) && Moves(s.ledger, ledger)
    ensures CommitsOk(digest, Acted(s, ledger, id, c))
  {
    forall b | b in s.commits && b != id ensures PendingOk(digest, ledger, s.coordinators[b], s.commits[b]) {
      TokenStable(s.ledger, ledger, s.coordinators[b]);
    }
  }

  lemma ActorAttributed(s: System, ledger: State, id: nat, c: Coordinator, j: JobId)
    requires j in ledger.recs && Attributed(s.(ledger := ledger), j)
    requires id in s.coordinators && (c == s.coordinators[id] || !Stopped(s.coordinators[id].pc))
    ensures Attributed(Acted(s, ledger, id, c), j)
  {}

  lemma ActorCompletions(s: System, ledger: State, id: nat, c: Coordinator)
    requires OnceInv(s) && CompletionsOk(s) && Moves(s.ledger, ledger) && NoNewSuccess(s.ledger, ledger)
    requires id in s.coordinators && (c == s.coordinators[id] || !Stopped(s.coordinators[id].pc))
    ensures CompletionsOk(Acted(s, ledger, id, c))
  {
    forall j | Succeeds(ledger, j) ensures Attributed(Acted(s, ledger, id, c), j) {
      AttributedMoves(s, ledger, j);
      ActorAttributed(s, ledger, id, c, j);
    }
  }

  /** It may touch its own effects, and only those. */
  lemma ActorAgrees(digest: Digest, s: System, ledger: State, id: nat, c: Coordinator)
    requires OnceInv(s) && AgreeInv(digest, s) && Moves(s.ledger, ledger) && NoNewSuccess(s.ledger, ledger)
        && id in s.coordinators
    requires OthersUndisturbed(s, ledger, id) && (c.started ==> Tracked(digest, ledger, c))
    requires c == s.coordinators[id] || !Stopped(s.coordinators[id].pc)
    ensures AgreeInv(digest, Acted(s, ledger, id, c))
  {
    ActorTracked(digest, s, ledger, id, c);
    ActorCommits(digest, s, ledger, id, c);
    ActorCompletions(s, ledger, id, c);
  }

  // ---- moves that leave the effects of all coordinators alone ----

  ghost predicate AllUndisturbed(s: System, ledger: State) {
    forall b :: b in s.coordinators && s.coordinators[b].started ==> Undisturbed(s.ledger, ledger, s.coordinators[b])
  }

  lemma LedgerTracked(digest: Digest, s: System, ledger: State)
    requires AllTracked(digest, s) && Moves(s.ledger, ledger) && AllUndisturbed(s, ledger)
    ensures AllTracked(digest, s.(ledger := ledger))
  {
    forall b | b in s.coordinators && s.coordinators[b].started ensures Tracked(digest, ledger, s.coordinators[b]) {
      TrackedMoves(digest, s.ledger, ledger, s.coordinators[b]);
    }
  }

  lemma LedgerCommits(digest: Digest, s: System, ledger: State)
    requires AllTracked(digest, s) && CommitsOk(digest, s) && Moves(s.ledger, ledger)
    ensures CommitsOk(digest, s.(ledger := ledger))
  {
    forall b | b in s.commits ensures PendingOk(digest, ledger, s.coordinators[b], s.commits[b]) {
      TokenStable(s.ledger, ledger, s.coordinators[b]);
    }
  }

  lemma LedgerAgrees(digest: Digest, s: System, ledger: State)
    requires OnceInv(s) && AgreeInv(digest, s) && Moves(s.ledger, ledger) && NoNewSuccess(s.ledger, ledger)
        && AllUndisturbed(s, ledger)
    ensures AgreeInv(digest, s.(ledger := ledger))
  {
    LedgerTracked(digest, s, ledger);
    LedgerCommits(digest, s, ledger);
    forall j | Succeeds(ledger, j) ensures Attributed(s.(ledger := ledger), j) { AttributedMoves(s, ledger, j); }
  }

  lemma ProgressTracked(digest: Digest, s: System, id: nat, c: Coordinator)
    requires AllTracked(digest, s) && id in s.coordinators && SameProgress(s.coordinators[id], c)
    requires c.started ==> Tracked(digest, s.ledger, s.coordinators[id])
    ensures AllTracked(digest, Set(s, id, c))
  {
    if c.started { TracksProgress(digest, s.ledger.recs[c.job], s.coordinators[id], c); }
  }

  lemma ProgressCommits(digest: Digest, s: System, id: nat, c: Coordinator)
    requires CommitsOk(digest, s) && id in s.coordinators && SameProgress(s.coordinators[id], c)
    requires s.coordinators[id].started ==> c.started
    ensures CommitsOk(digest, Set(s, id, c))
  {}

  lemma ProgressCompletions(s: System, id: nat, c: Coordinator)
    requires CompletionsOk(s) && id in s.coordinators && SameProgress(s.coordinators[id], c)
    requires s.coordinators[id].started ==> c.started
    ensures CompletionsOk(Set(s, id, c))
  {}

  /** A coordinator moves on without having done more. */
  lemma ProgressAgrees(digest: Digest, s: System, id: nat, c: Coordinator)
    requires OnceInv(s) && AgreeInv(digest, s) && id in s.coordinators && SameProgress(s.coordinators[id], c)
    requires c.started ==> Tracked(digest, s.ledger, s.coordinators[id])
    requires s.coordinators[id].started ==> c.started
    ensures AgreeInv(digest, Set(s, id, c))
  {
    ProgressTracked(digest, s, id, c);
    ProgressCommits(digest, s, id, c);
    ProgressCompletions(s, id, c);
  }

  // ---- what single calls do ----

  ghost predicate SameElsewhere(r: JobRecord, r': JobRecord, a: Option<nat>) {
    r'.attempts == r.attempts && r'.row == r.row && forall b :: b != a ==> SameOwned(r, r', b)
  }

  /** A new claim for the next profile is tracked from then on. */
  lemma NewClaimTracks(digest: Digest, r: JobRecord, r': JobRecord, c: Coordinator, pc: Pc)
    requires Tracks(digest, r, c) && |c.results| < |c.selected| && MayHaveBegun(pc)
    requires var k := ProfileKey(c.job, NextProfile(c));
             && k !in r.effects && k in r'.effects && r'.effects == r.effects[k := r'.effects[k]]
             && Some(r'.effects[k].attempt) == FindAttempt(r.attempts, c.token) && r'.effects[k].state == EffectStarted
    requires r'.attempts == r.attempts
    ensures Tracks(digest, r', c.(pc := pc))
  {
    var c' := c.(pc := pc);
    forall i | 0 <= i < |c'.results| ensures Landed(digest, r', c', i) { assert Landed(digest, r, c, i); }
    forall k | k in r'.effects && Some(r'.effects[k].attempt) == FindAttempt(r'.attempts, c'.token)
      ensures KeyOf(c', k)
    {
      assert k in r.effects ==> KeyOf(c, k);
    }
  }

  /** A profile that is not begun yet has no claim in the coordinator's attempt. */
  lemma NextIsUnclaimed(digest: Digest, r: JobRecord, c: Coordinator)
    requires Tracks(digest, r, c) && WellFormed(c) && c.pc.AtBegin?
    ensures var k := ProfileKey(c.job, NextProfile(c));
            !(k in r.effects && Some(r.effects[k].attempt) == FindAttempt(r.attempts, c.token))
  {
    var k := ProfileKey(c.job, NextProfile(c));
    forall i | 0 <= i < |c.results| ensures ProfileKey(c.job, c.selected[i]) != k {
      ProfileKeyInjective(c.job, c.selected[i], c.job, NextProfile(c));
    }
    assert !KeyOf(c, k);
  }

  lemma BeginKeepsOthers(now: Time, r: JobRecord, elsewhere: bool, t: Token, key: string)
    requires RecordInv(r)
    ensures SameElsewhere(r, BeginEffectOn(now, r, elsewhere, t, key, QA_ACTOR).rec, FindAttempt(r.attempts, t))
  {}

  lemma BeginTracks(digest: Digest, now: Time, r: JobRecord, elsewhere: bool, c: Coordinator)
    requires RecordInv(r) && Tracks(digest, r, c) && WellFormed(c) && c.started && c.pc.AtBegin?
    ensures var answer := BeginEffectOn(now, r, elsewhere, c.token, ProfileKey(c.job, NextProfile(c)), QA_ACTOR);
            && Tracks(digest, answer.rec, Excepted(c))
            && (answer.reply == EffectIs(EffectStarted) ==> Tracks(digest, answer.rec, c.(pc := AtRun)))
  {
    var k := ProfileKey(c.job, NextProfile(c));
    var r' := BeginEffectOn(now, r, elsewhere, c.token, k, QA_ACTOR).rec;
    NextIsUnclaimed(digest, r, c);
    if r' == r {
      ExceptedProgress(c);
      TracksProgress(digest, r, c, Excepted(c));
    } else {
      NewClaimTracks(digest, r, r', c, AtFail);
      NewClaimTracks(digest, r, r', c, AtRun);
    }
  }

  // ---- the commit of a profile ----

  /** The effect row a commit is about belongs to the profile being worked on. */
  predicate CommitsNext(digest: Digest, r: JobRecord, c: Coordinator, p: Pending) {
    && |c.results| < |c.selected| && p.key == ProfileKey(c.job, NextProfile(c))
    && p.attempt == FindAttempt(r.attempts, c.token)
    && (c.pc.AtFail? || c.pc.Gone? || (c.pc.AwaitCommit? && p.receipt == Some(digest(c.pc.result))))
  }

  function Update(r: JobRecord, p: Pending): Answer {
    CommitUpdateOn(p.at, r, p.attempt, p.key, p.receipt, p.actor)
  }

  lemma UpdateKeepsOthers(r: JobRecord, p: Pending)
    ensures SameElsewhere(r, Update(r, p).rec, p.attempt)
    ensures Update(r, p).rec.effects.Keys == r.effects.Keys
    ensures forall k :: k in r.effects ==> Update(r, p).rec.effects[k].attempt == r.effects[k].attempt
  {}

  /** Whatever becomes of the coordinator, the results before this one stay landed. */
  lemma UpdateTracksStopped(digest: Digest, r: JobRecord, c: Coordinator, p: Pending, pc: Pc)
    requires Tracks(digest, r, c) && WellFormed(c) && CommitsNext(digest, r, c, p) && (pc.AtFail? || pc.Gone?)
    ensures Tracks(digest, Update(r, p).rec, c.(pc := pc))
  {
    var r' := Update(r, p).rec;
    var c' := c.(pc := pc);
    UpdateKeepsOthers(r, p);
    forall i | 0 <= i < |c'.results| ensures Landed(digest, r', c', i) {
      assert Landed(digest, r, c, i);
      ProfileKeyInjective(c.job, c.selected[i], c.job, NextProfile(c));
    }
    forall k | k in r'.effects && Some(r'.effects[k].attempt) == FindAttempt(r'.attempts, c'.token)
      ensures KeyOf(c', k)
    {
      assert KeyOf(c, k);
    }
  }

  /** A delivered commit lands the result. */
  lemma UpdateTracksDone(digest: Digest, r: JobRecord, c: Coordinator, p: Pending)
    requires Tracks(digest, r, c) && WellFormed(c) && CommitsNext(digest, r, c, p) && c.pc.AwaitCommit?
    requires Update(r, p).reply == CommitOk
    ensures Tracks(digest, Update(r, p).rec, Replied(c, CommitOk))
  {
    var r' := Update(r, p).rec;
    var c' := Replied(c, CommitOk);
    UpdateKeepsOthers(r, p);
    forall i | 0 <= i < |c'.results| ensures Landed(digest, r', c', i) {
      if i < |c.results| {
        assert Landed(digest, r, c, i);
        ProfileKeyInjective(c.job, c.selected[i], c.job, NextProfile(c));
      }
    }
    forall k | k in r'.effects && Some(r'.effects[k].attempt) == FindAttempt(r'.attempts, c'.token)
      ensures KeyOf(c', k)
    {
      assert KeyOf(c, k);
    }
  }

  // ---- steps that touch the claims of one attempt ----

  /** Two started coordinators of one job hold different attempts. */
  lemma DifferentAttempts(digest: Digest, s: System, a: nat, b: nat)
    requires OnceInv(s) && AllTracked(digest, s) && a in s.coordinators && b in s.coordinators && a != b
    requires s.coordinators[a].started && s.coordinators[b].started && s.coordinators[a].job == s.coordinators[b].job
    ensures var attempts := s.ledger.recs[s.coordinators[a].job].attempts;
            FindAttempt(attempts, s.coordinators[a].token) != FindAttempt(attempts, s.coordinators[b].token)
  {
    var c, d := s.coordinators[a], s.coordinators[b];
    assert Tracked(digest, s.ledger, c) && Tracked(digest, s.ledger, d);
    FindAttemptFinds(s.ledger.recs[c.job].attempts, c.token);
    FindAttemptFinds(s.ledger.recs[c.job].attempts, d.token);
  }

  lemma PutUndisturbed(digest: Digest, s: System, id: nat, r: JobRecord)
    requires OnceInv(s) && AllTracked(digest, s) && id in s.coordinators && s.coordinators[id].started
    requires s.coordinators[id].job in s.ledger.recs
    requires var before := s.ledger.recs[s.coordinators[id].job];
             SameElsewhere(before, r, FindAttempt(before.attempts, s.coordinators[id].token))
    ensures OthersUndisturbed(s, Put(s.ledger, s.coordinators[id].job, r), id)
    ensures NoNewSuccess(s.ledger, Put(s.ledger, s.coordinators[id].job, r))
  {
    forall b | b in s.coordinators && b != id && s.coordinators[b].started
      ensures Undisturbed(s.ledger, Put(s.ledger, s.coordinators[id].job, r), s.coordinators[b])
    {
      assert Tracked(digest, s.ledger, s.coordinators[b]);
      if s.coordinators[b].job == s.coordinators[id].job { DifferentAttempts(digest, s, id, b); }
    }
  }

  /** b034_begin_profile_effect changes one record, and there one attempt's effects. */
  lemma BeginIsPut(s: State, j: JobId, t: Token, p: string)
    requires IsQa(s, j) && RecordInv(s.recs[j])
    ensures var ledger := QaInvoke(s, j, t, QaBegin(p)).0;
            && j in ledger.recs && ledger == Put(s, j, ledger.recs[j])
            && SameElsewhere(s.recs[j], ledger.recs[j], FindAttempt(s.recs[j].attempts, t))
  {
    if Wrapped(j, QaBegin(p)).None? {
      assert s == Put(s, j, s.recs[j]);
    } else {
      var key := ProfileKey(j, p);
      BeginKeepsOthers(s.now, s.recs[j], KeyElsewhere(s, j, key), t, key);
    }
  }

  lemma BeginOthers(digest: Digest, s: System, id: nat)
    requires OnceInv(s) && AllTracked(digest, s) && id in s.coordinators && s.coordinators[id].pc.AtBegin?
    ensures var c := s.coordinators[id];
            var ledger := QaInvoke(s.ledger, c.job, c.token, QaBegin(NextProfile(c))).0;
            OthersUndisturbed(s, ledger, id) && NoNewSuccess(s.ledger, ledger)
  {
    var c := s.coordinators[id];
    assert Tracked(digest, s.ledger, c) && SafeRecord(s.ledger.recs[c.job]);
    BeginIsPut(s.ledger, c.job, c.token, NextProfile(c));
    PutUndisturbed(digest, s, id, QaInvoke(s.ledger, c.job, c.token, QaBegin(NextProfile(c))).0.recs[c.job]);
  }

  lemma BeginAnswers(s: State, j: JobId, t: Token, p: string)
    requires IsQa(s, j) && Wrapped(j, QaBegin(p)).Some?
    ensures var key := ProfileKey(j, p);
            var answer := BeginEffectOn(s.now, s.recs[j], KeyElsewhere(s, j, key), t, key, QA_ACTOR);
            && QaInvoke(s, j, t, QaBegin(p)) == (Put(s, j, answer.rec), answer.reply)
            && IsQa(Put(s, j, answer.rec), j) && answer.reply != CompleteOk
  {}

  lemma BeginTracked(digest: Digest, s: State, c: Coordinator)
    requires Safe(s) && Tracked(digest, s, c) && WellFormed(c) && c.started && c.pc.AtBegin?
    ensures var (ledger, reply) := QaInvoke(s, c.job, c.token, QaBegin(NextProfile(c)));
            Tracked(digest, ledger, Excepted(c)) && Tracked(digest, ledger, Replied(c, reply)) && reply != CompleteOk
  {
    var r := s.recs[c.job];
    assert SafeRecord(r);
    if Wrapped(c.job, QaBegin(NextProfile(c))).None? {
      ExceptedProgress(c);
      TracksProgress(digest, r, c, Excepted(c));
    } else {
      BeginAnswers(s, c.job, c.token, NextProfile(c));
      BeginTracks(digest, s.now, r, KeyElsewhere(s, c.job, ProfileKey(c.job, NextProfile(c))), c);
    }
  }

  /** All the coordinators need to know about a begin call of coordinator `id`. */
  ghost predicate BeginFacts(digest: Digest, s: System, id: nat, ledger: State, reply: Reply)
    requires id in s.coordinators
  {
    && Moves(s.ledger, ledger) && OthersUndisturbed(s, ledger, id) && NoNewSuccess(s.ledger, ledger)
    && Tracked(digest, ledger, Excepted(s.coordinators[id]))
    && Tracked(digest, ledger, Replied(s.coordinators[id], reply))
    && reply != CompleteOk
  }

  lemma BeginCallFacts(digest: Digest, s: System, id: nat)
    requires OnceInv(s) && AllTracked(digest, s) && id in s.coordinators && s.coordinators[id].pc.AtBegin?
    ensures var c := s.coordinators[id];
            var (ledger, reply) := QaInvoke(s.ledger, c.job, c.token, QaBegin(NextProfile(c)));
            BeginFacts(digest, s, id, ledger, reply)
  {
    var c := s.coordinators[id];
    assert Tracked(digest, s.ledger, c);
    BeginOthers(digest, s, id);
    BeginTracked(digest, s.ledger, c);
    QaInvokeMoves(s.ledger, c.job, c.token, QaBegin(NextProfile(c)));
  }

  lemma SentIsActed(s: System, id: nat, delivery: Delivery, ledger: State, reply: Reply)
    requires id in s.coordinators && id !in s.commits && reply != CompleteOk
    ensures Sent(s, id, delivery, ledger, reply) == Acted(s, ledger, id, After(s.coordinators[id], delivery, reply))
  {}

  lemma BeginAgrees(digest: Digest, s: System, id: nat, delivery: Delivery, ledger: State, reply: Reply)
    requires OnceInv(s) && AgreeInv(digest, s) && id in s.coordinators && s.coordinators[id].pc.AtBegin?
    requires BeginFacts(digest, s, id, ledger, reply)
    ensures AgreeInv(digest, Sent(s, id, delivery, ledger, reply))
  {
    var c := s.coordinators[id];
    assert id in s.commits ==> PendingOk(digest, s.ledger, c, s.commits[id]);
    SentIsActed(s, id, delivery, ledger, reply);
    ActorAgrees(digest, s, ledger, id, After(c, delivery, reply));
  }

  lemma CheckCommits(digest: Digest, s: System, id: nat)
    requires AgreeInv(digest, s) && id in s.coordinators && s.coordinators[id].pc.AtCommit?
        && WellFormed(s.coordinators[id])
    ensures CommitsOk(digest, CheckStep(digest, s, id))
  {}

  lemma CheckProgress(digest: Digest, s: System, id: nat)
    requires id in s.coordinators && s.coordinators[id].pc.AtCommit? && WellFormed(s.coordinators[id])
    ensures var s' := CheckStep(digest, s, id);
            && id in s'.coordinators && SameProgress(s.coordinators[id], s'.coordinators[id])
            && s'.coordinators[id].started == s.coordinators[id].started
            && s' == Set(s, id, s'.coordinators[id]).(commits := s'.commits)
  {}

  lemma CheckAgrees(digest: Digest, s: System, id: nat)
    requires OnceInv(s) && AgreeInv(digest, s) && id in s.coordinators
    ensures AgreeInv(digest, CheckStep(digest, s, id))
  {
    if s.coordinators[id].pc.AtCommit? {
      CheckProgress(digest, s, id);
      CheckCommits(digest, s, id);
      var c := CheckStep(digest, s, id).coordinators[id];
      ProgressTracked(digest, s, id, c);
      ProgressCompletions(s, id, c);
    }
  }

  lemma FinishOthers(digest: Digest, s: System, id: nat)
    requires OnceInv(s) && AgreeInv(digest, s) && id in s.commits
    ensures OthersUndisturbed(s, Finish(s.ledger, s.commits[id]), id)
        && NoNewSuccess(s.ledger, Finish(s.ledger, s.commits[id]))
  {
    var p := s.commits[id];
    assert PendingOk(digest, s.ledger, s.coordinators[id], p);
    UpdateKeepsOthers(s.ledger.recs[p.job], p);
    PutUndisturbed(digest, s, id, Update(s.ledger.recs[p.job], p).rec);
  }

  lemma FinishTracked(digest: Digest, s: State, c: Coordinator, p: Pending)
    requires Tracked(digest, s, c) && WellFormed(c) && PendingOk(digest, s, c, p)
    ensures var ledger := Finish(s, p);
            && Tracked(digest, ledger, Excepted(c))
            && Tracked(digest, ledger, if c.pc.AwaitCommit? then Replied(c, CommitReply(s, p)) else c)
  {
    var r := s.recs[c.job];
    UpdateTracksStopped(digest, r, c, p, Gone);
    UpdateTracksStopped(digest, r, c, p, AtFail);
    if c.pc.AwaitCommit? && Update(r, p).reply == CommitOk { UpdateTracksDone(digest, r, c, p); }
  }

  lemma FinishIsActed(s: System, id: nat, delivered: bool)
    requires id in s.commits && id in s.coordinators
    ensures var c, p := s.coordinators[id], s.commits[id];
            FinishStep(s, id, delivered) == Acted(s, Finish(s.ledger, p), id,
              if !c.pc.AwaitCommit? then c else if delivered then Replied(c, CommitReply(s.ledger, p)) else Excepted(c))
  {}

  lemma FinishAgrees(digest: Digest, s: System, id: nat, delivered: bool)
    requires OnceInv(s) && AgreeInv(digest, s) && id in s.commits
    ensures AgreeInv(digest, FinishStep(s, id, delivered))
  {
    var p, c := s.commits[id], s.coordinators[id];
    assert PendingOk(digest, s.ledger, c, p) && Tracked(digest, s.ledger, c);
    FinishIsActed(s, id, delivered);
    FinishMoves(s.ledger, p);
    FinishOthers(digest, s, id);
    FinishTracked(digest, s.ledger, c, p);
    ActorAgrees(digest, s, Finish(s.ledger, p), id,
      if !c.pc.AwaitCommit? then c else if delivered then Replied(c, CommitReply(s.ledger, p)) else Excepted(c));
  }

  // ---- the other calls ----

  predicate Quiet(q: QaCall) { !q.QaBegin? && !q.QaCommit? }

  lemma PutQuiet(s: State, j: JobId, r: JobRecord)
    requires j in s.recs && SameClaims(s.recs[j], r)
    ensures var s' := Put(s, j, r);
            && s'.recs.Keys == s.recs.Keys
            && (forall i :: i in s.recs ==> SameClaims(s.recs[i], s'.recs[i]) && (i != j ==> s'.recs[i] == s.recs[i]))
            && ((r.row.status == Succeeded ==> s.recs[j].row.status == Succeeded) ==> NoNewSuccess(s, s'))
  {}

  lemma QuietInvoke(s: State, j: JobId, t: Token, q: QaCall)
    requires Quiet(q)
    ensures var (s', reply) := QaInvoke(s, j, t, q);
            && s'.recs.Keys == s.recs.Keys
            && (forall i :: i in s.recs ==> SameClaims(s.recs[i], s'.recs[i]) && (i != j ==> s'.recs[i] == s.recs[i]))
            && (reply != CompleteOk ==> NoNewSuccess(s, s'))
            && (reply == CompleteOk ==> q.QaComplete? && IsQa(s, j))
  {
    if IsQa(s, j) && Wrapped(j, q).Some? {
      var call := Wrapped(j, q).value;
      QuietCall(s.now, s.recs[j], false, t, call);
      PutQuiet(s, j, CallOn(s.now, s.recs[j], false, t, call).rec);
    }
  }

  /** The status a coordinator completes with. */
  function FinalStatus(c: Coordinator): string {
    if c.pc.AtReject? then "reject" else Verdict(c.results)
  }

  /** Completion records the final status; a side-effecting job can only be
      completed from the end of the loop, never on the admission-reject path. */
  lemma CompletionIsFull(digest: Digest, now: Time, r: JobRecord, c: Coordinator)
    requires RecordInv(r) && Tracks(digest, r, c) && WellFormed(c) && (c.pc.AtReject? || c.pc.AtComplete?)
    requires CompleteOn(now, r, c.token, Some(QaResult(FinalStatus(c))), QA_ACTOR).reply == CompleteOk
    ensures r.row.def.sideEffecting ==> c.pc.AtComplete?
    ensures FullyRecorded(CompleteOn(now, r, c.token, Some(QaResult(FinalStatus(c))), QA_ACTOR).rec, c)
  {}

  lemma CompleteIsPut(s: State, c: Coordinator)
    requires (c.pc.AtReject? || c.pc.AtComplete?) && IsQa(s, c.job)
    ensures NextCall(c) == Some(QaComplete(QaResult(FinalStatus(c))))
    ensures var answer := CompleteOn(s.now, s.recs[c.job], c.token, Some(QaResult(FinalStatus(c))), QA_ACTOR);
            QaInvoke(s, c.job, c.token, QaComplete(QaResult(FinalStatus(c))))
                == (Put(s, c.job, answer.rec), answer.reply)
  {
    FalseIsFalse();
  }

  lemma StartTracks(digest: Digest, now: Time, r: JobRecord, c: Coordinator)
    requires RecordInv(r) && WellFormed(c) && c.pc.AtStart? && StartOn(now, r, c.token, QA_ACTOR).reply == StartOk
    ensures Tracks(digest, StartOn(now, r, c.token, QA_ACTOR).rec, c)
  {}

  /** A job that starts has no effects yet. */
  lemma StartTracked(digest: Digest, s: State, c: Coordinator)
    requires Safe(s) && WellFormed(c) && c.pc.AtStart? && QaInvoke(s, c.job, c.token, QaStart).1 == StartOk
    ensures Tracked(digest, QaInvoke(s, c.job, c.token, QaStart).0, c)
  {
    assert SafeRecord(s.recs[c.job]);
    StartTracks(digest, s.now, s.recs[c.job], c);
  }

  lemma QuietUndisturbed(digest: Digest, s: System, ledger: State)
    requires AllTracked(digest, s)
    requires forall i :: i in s.ledger.recs ==> i in ledger.recs && SameClaims(s.ledger.recs[i], ledger.recs[i])
    ensures AllUndisturbed(s, ledger)
  {}

  lemma AfterProgress(c: Coordinator, delivery: Delivery, reply: Reply)
    requires WellFormed(c) && NextCall(c).Some? && Quiet(NextCall(c).value)
    ensures SameProgress(c, After(c, delivery, reply)) && After(c, delivery, reply).selected == c.selected
    ensures c.started ==> After(c, delivery, reply).started
    ensures After(c, delivery, reply).started && !c.started ==> c.pc.AtStart? && reply == StartOk
    ensures reply == CompleteOk && (c.pc.AtReject? || c.pc.AtComplete?) ==> Stopped(After(c, delivery, reply).pc)
  {
    ExceptedProgress(c);
    RepliedProgress(c, reply);
    RepliedAdvances(c, reply);
    ExceptedAdvances(c);
  }

  /** What a ledger call other than begin and commit comes to, seen from the coordinators. */
  ghost predicate QuietMove(s: State, s': State, j: JobId, reply: Reply) {
    && Moves(s, s') && s'.recs.Keys == s.recs.Keys
    && (forall i :: i in s.recs ==> SameClaims(s.recs[i], s'.recs[i]) && (i != j ==> s'.recs[i] == s.recs[i]))
    && (reply != CompleteOk ==> NoNewSuccess(s, s'))
  }

  lemma QuietInvokeMoves(s: State, j: JobId, t: Token, q: QaCall)
    requires Safe(s) && Quiet(q)
    ensures var (s', reply) := QaInvoke(s, j, t, q);
            QuietMove(s, s', j, reply) && (reply == CompleteOk ==> q.QaComplete? && IsQa(s, j))
  {
    QaInvokeMoves(s, j, t, q);
    QuietInvoke(s, j, t, q);
  }

  lemma QuietCallAgrees(digest: Digest, s: System, id: nat, ledger: State, reply: Reply, c: Coordinator)
    requires OnceInv(s) && AgreeInv(digest, s) && id in s.coordinators && reply != CompleteOk
    requires QuietMove(s.ledger, ledger, s.coordinators[id].job, reply)
    requires SameProgress(s.coordinators[id], c) && (s.coordinators[id].started ==> c.started)
    requires c.started && !s.coordinators[id].started ==> Tracked(digest, ledger, s.coordinators[id])
    ensures AgreeInv(digest, Set(s.(ledger := ledger), id, c))
  {
    QuietUndisturbed(digest, s, ledger);
    LedgerAgrees(digest, s, ledger);
    LedgerMoves(s, ledger);
    var s1 := s.(ledger := ledger);
    if s.coordinators[id].started { assert Tracked(digest, ledger, s1.coordinators[id]); }
    ProgressAgrees(digest, s1, id, c);
  }

  lemma CompletionRecorded(digest: Digest, s: State, c: Coordinator, ledger: State)
    requires Safe(s) && Tracked(digest, s, c) && WellFormed(c) && (c.pc.AtReject? || c.pc.AtComplete?)
    requires QaInvoke(s, c.job, c.token, NextCall(c).value) == (ledger, CompleteOk)
    ensures c.job in ledger.recs && FullyRecorded(ledger.recs[c.job], c)
  {
    assert SafeRecord(s.recs[c.job]);
    CompleteIsPut(s, c);
    CompletionIsFull(digest, s.now, s.recs[c.job], c);
  }

  function Completed(s: System, ledger: State, id: nat, c: Coordinator): System {
    s.(ledger := ledger, coordinators := s.coordinators[id := c], completedBy := s.completedBy[c.job := id])
  }

  /** Only the job of coordinator `id` is newly succeeded, and it is fully recorded. */
  lemma CompleteCompletions(s: System, id: nat, ledger: State, c: Coordinator)
    requires CompletionsOk(s) && id in s.coordinators && c.job == s.coordinators[id].job && c.started && Stopped(c.pc)
    requires Succeeds(ledger, c.job) ==> FullyRecorded(ledger.recs[c.job], c)
    requires ledger.recs.Keys == s.ledger.recs.Keys
    requires forall j :: j in s.ledger.recs && j != c.job ==> ledger.recs[j] == s.ledger.recs[j]
    ensures CompletionsOk(Completed(s, ledger, id, c))
  {
    forall j | Succeeds(ledger, j) ensures Attributed(Completed(s, ledger, id, c), j) {
      if j != c.job { assert Succeeds(s.ledger, j) && Attributed(s, j); }
    }
  }

  lemma CompleteTracked(digest: Digest, s: System, id: nat, ledger: State, c: Coordinator)
    requires OnceInv(s) && AgreeInv(digest, s) && Moves(s.ledger, ledger) && AllUndisturbed(s, ledger)
    requires id in s.coordinators && s.coordinators[id].started && SameProgress(s.coordinators[id], c) && c.started
    ensures AllTracked(digest, Completed(s, ledger, id, c)) && CommitsOk(digest, Completed(s, ledger, id, c))
  {
    LedgerTracked(digest, s, ledger);
    LedgerCommits(digest, s, ledger);
    var s1 := s.(ledger := ledger, completedBy := s.completedBy[c.job := id]);
    assert Tracked(digest, ledger, s.coordinators[id]);
    ProgressTracked(digest, s1, id, c);
    ProgressCommits(digest, s1, id, c);
  }

  lemma RecordedForBoth(r: JobRecord, c: Coordinator, c': Coordinator)
    requires FullyRecorded(r, c) && SameProgress(c, c') && c'.selected == c.selected && !c.pc.AtCheck?
    ensures FullyRecorded(r, c')
  {}

  lemma CompleteAgrees(digest: Digest, s: System, id: nat, ledger: State, c: Coordinator)
    requires OnceInv(s) && AgreeInv(digest, s) && id in s.coordinators && s.coordinators[id].started
    requires SameProgress(s.coordinators[id], c) && c.started && Stopped(c.pc)
        && c.selected == s.coordinators[id].selected
    requires QuietMove(s.ledger, ledger, c.job, CompleteOk) && !s.coordinators[id].pc.AtCheck?
    requires Succeeds(ledger, c.job) ==> FullyRecorded(ledger.recs[c.job], s.coordinators[id])
    ensures AgreeInv(digest, Completed(s, ledger, id, c))
  {
    QuietUndisturbed(digest, s, ledger);
    CompleteTracked(digest, s, id, ledger, c);
    if Succeeds(ledger, c.job) { RecordedForBoth(ledger.recs[c.job], s.coordinators[id], c); }
    CompleteCompletions(s, id, ledger, c);
  }

  /** All the coordinators need to know about such a call of `c`. */
  ghost predicate QuietFacts(digest: Digest, s: State, c: Coordinator, ledger: State, reply: Reply) {
    && NextCall(c).Some? && Quiet(NextCall(c).value) && QuietMove(s, ledger, c.job, reply)
    && (reply == CompleteOk ==>
          c.started && (c.pc.AtReject? || c.pc.AtComplete?)
          && (Succeeds(ledger, c.job) ==> FullyRecorded(ledger.recs[c.job], c)))
    && (c.pc.AtStart? && reply == StartOk ==> Tracked(digest, ledger, c))
  }

  lemma StartFacts(digest: Digest, s: State, c: Coordinator)
    requires Safe(s) && WellFormed(c) && c.pc.AtStart?
    ensures var (ledger, reply) := QaInvoke(s, c.job, c.token, QaStart); QuietFacts(digest, s, c, ledger, reply)
  {
    var (ledger, reply) := QaInvoke(s, c.job, c.token, QaStart);
    QuietInvokeMoves(s, c.job, c.token, QaStart);
    if reply == StartOk { StartTracked(digest, s, c); }
    FactsOfStart(digest, s, c, ledger, reply);
  }

  lemma FactsOfStart(digest: Digest, s: State, c: Coordinator, ledger: State, reply: Reply)
    requires c.pc.AtStart? && QuietMove(s, ledger, c.job, reply) && reply != CompleteOk
    requires reply == StartOk ==> Tracked(digest, ledger, c)
    ensures QuietFacts(digest, s, c, ledger, reply)
  {}

  lemma CompleteFacts(digest: Digest, s: State, c: Coordinator)
    requires Safe(s) && WellFormed(c) && Tracked(digest, s, c) && (c.pc.AtReject? || c.pc.AtComplete?)
    ensures var (ledger, reply) := QaInvoke(s, c.job, c.token, NextCall(c).value);
            QuietFacts(digest, s, c, ledger, reply)
  {
    var q := NextCall(c).value;
    var (ledger, reply) := QaInvoke(s, c.job, c.token, q);
    QuietInvokeMoves(s, c.job, c.token, q);
    if reply == CompleteOk && Succeeds(ledger, c.job) {
      assert SameClaims(s.recs[c.job], ledger.recs[c.job]);
      CompletionRecorded(digest, s, c, ledger);
    }
  }

  lemma OtherFacts(digest: Digest, s: State, c: Coordinator)
    requires Safe(s) && (c.pc.AtRecordGate? || c.pc.AtHeartbeat? || c.pc.AtFail?)
    ensures var (ledger, reply) := QaInvoke(s, c.job, c.token, NextCall(c).value);
            QuietFacts(digest, s, c, ledger, reply)
  {
    QuietInvokeMoves(s, c.job, c.token, NextCall(c).value);
  }

  lemma SentCompletion(digest: Digest, s: System, id: nat, delivery: Delivery, ledger: State)
    requires OnceInv(s) && AgreeInv(digest, s) && id in s.coordinators
    requires QuietFacts(digest, s.ledger, s.coordinators[id], ledger, CompleteOk)
    ensures AgreeInv(digest, Sent(s, id, delivery, ledger, CompleteOk))
  {
    var c' := After(s.coordinators[id], delivery, CompleteOk);
    AfterProgress(s.coordinators[id], delivery, CompleteOk);
    CompleteAgrees(digest, s, id, ledger, c');
    assert Sent(s, id, delivery, ledger, CompleteOk) == Completed(s, ledger, id, c');
  }

  lemma SentAgrees(digest: Digest, s: System, id: nat, delivery: Delivery, ledger: State, reply: Reply)
    requires OnceInv(s) && AgreeInv(digest, s) && id in s.coordinators
    requires QuietFacts(digest, s.ledger, s.coordinators[id], ledger, reply)
    ensures AgreeInv(digest, Sent(s, id, delivery, ledger, reply))
  {
    if reply == CompleteOk {
      SentCompletion(digest, s, id, delivery, ledger);
    } else {
      var c' := After(s.coordinators[id], delivery, reply);
      AfterProgress(s.coordinators[id], delivery, reply);
      QuietCallAgrees(digest, s, id, ledger, reply, c');
      assert Sent(s, id, delivery, ledger, reply) == Set(s.(ledger := ledger), id, c');
    }
  }

  // ---- everyone else ----

  lemma ConfinedOp(s: State, op: Op, j: JobId)
    requires (op.Invoke? ==> !IsQa(s, op.job)) && j in Apply(s, op).recs
    ensures IsQa(s, j) ==> Apply(s, op).recs[j].effects == s.recs[j].effects
    ensures Succeeds(Apply(s, op), j) ==> Succeeds(s, j)
  {
    if op.Invoke? && op.job == j {
      ApplyKeepsDefinition(s, op, j);
    } else {
      UninvokedOp(s, op, j);
    }
  }

  lemma EnvironmentAgrees(digest: Digest, s: System, op: Op)
    requires OnceInv(s) && AgreeInv(digest, s) && (op.Invoke? ==> !IsQa(s.ledger, op.job))
    ensures AgreeInv(digest, s.(ledger := Apply(s.ledger, op)))
  {
    var ledger := Apply(s.ledger, op);
    ApplyMoves(s.ledger, op);
    forall b | b in s.coordinators && s.coordinators[b].started
      ensures Undisturbed(s.ledger, ledger, s.coordinators[b])
    {
      assert Tracked(digest, s.ledger, s.coordinators[b]);
      ConfinedOp(s.ledger, op, s.coordinators[b].job);
    }
    forall j | Succeeds(ledger, j) ensures Succeeds(s.ledger, j) { ConfinedOp(s.ledger, op, j); }
    LedgerAgrees(digest, s, ledger);
  }

  lemma FinishDisturbsNot(s: State, p: Pending, c: Coordinator)
    requires !IsQa(s, p.job) && c.job in s.recs && IsQa(s, c.job)
    ensures Undisturbed(s, Finish(s, p), c)
  {}

  lemma FinishSucceedsNone(s: State, p: Pending)
    ensures NoNewSuccess(s, Finish(s, p))
  {}

  lemma LateCommitAgrees(digest: Digest, s: System, p: Pending)
    requires OnceInv(s) && AgreeInv(digest, s) && !IsQa(s.ledger, p.job)
    ensures AgreeInv(digest, s.(ledger := Finish(s.ledger, p)))
  {
    FinishMoves(s.ledger, p);
    FinishSucceedsNone(s.ledger, p);
    forall b | b in s.coordinators && s.coordinators[b].started
      ensures Undisturbed(s.ledger, Finish(s.ledger, p), s.coordinators[b])
    {
      assert Tracked(digest, s.ledger, s.coordinators[b]);
      FinishDisturbsNot(s.ledger, p, s.coordinators[b]);
    }
    LedgerAgrees(digest, s, Finish(s.ledger, p));
  }

  lemma LocalAgrees(digest: Digest, s: System, id: nat, c: Coordinator)
    requires OnceInv(s) && AgreeInv(digest, s) && id in s.coordinators && c.started == s.coordinators[id].started
    requires SameProgress(s.coordinators[id], c)
    ensures AgreeInv(digest, Set(s, id, c))
  {
    assert c.started ==> Tracked(digest, s.ledger, s.coordinators[id]);
    ProgressAgrees(digest, s, id, c);
  }

  lemma BeginStepAgrees(digest: Digest, s: System, id: nat, delivery: Delivery)
    requires OnceInv(s) && AgreeInv(digest, s) && id in s.coordinators && s.coordinators[id].pc.AtBegin?
    ensures var c := s.coordinators[id];
            |c.results| < |c.selected| && (
            var (ledger, reply) := QaInvoke(s.ledger, c.job, c.token, QaBegin(NextProfile(c)));
            AgreeInv(digest, Sent(s, id, delivery, ledger, reply)))
  {
    var c := s.coordinators[id];
    var (ledger, reply) := QaInvoke(s.ledger, c.job, c.token, QaBegin(NextProfile(c)));
    BeginCallFacts(digest, s, id);
    BeginAgrees(digest, s, id, delivery, ledger, reply);
  }

  lemma QuietStepAgrees(digest: Digest, s: System, id: nat, delivery: Delivery)
    requires OnceInv(s) && AgreeInv(digest, s) && id in s.coordinators
    requires NextCall(s.coordinators[id]).Some? && !s.coordinators[id].pc.AtBegin?
    ensures var c := s.coordinators[id];
            var (ledger, reply) := QaInvoke(s.ledger, c.job, c.token, NextCall(c).value);
            AgreeInv(digest, Sent(s, id, delivery, ledger, reply))
  {
    var c := s.coordinators[id];
    var (ledger, reply) := QaInvoke(s.ledger, c.job, c.token, NextCall(c).value);
    assert c.started ==> Tracked(digest, s.ledger, c);
    match c.pc {
      case AtStart => StartFacts(digest, s.ledger, c);
      case AtReject => CompleteFacts(digest, s.ledger, c);
      case AtComplete => CompleteFacts(digest, s.ledger, c);
      case _ => OtherFacts(digest, s.ledger, c);
    }
    SentAgrees(digest, s, id, delivery, ledger, reply);
  }

  lemma CallAgrees(digest: Digest, s: System, id: nat, delivery: Delivery)
    requires OnceInv(s) && AgreeInv(digest, s) && id in s.coordinators
    ensures AgreeInv(digest, CallStep(s, id, delivery))
  {
    var c := s.coordinators[id];
    if NextCall(c).Some? {
      if delivery.NotSent? {
        ExceptedProgress(c);
        LocalAgrees(digest, s, id, Excepted(c));
      } else if c.pc.AtBegin? {
        BeginStepAgrees(digest, s, id, delivery);
      } else {
        QuietStepAgrees(digest, s, id, delivery);
      }
    }
  }

  lemma EntriesAreHistory(digest: Digest, s: System, entries: seq<Entry>)
    requires AgreeInv(digest, s)
    ensures AgreeInv(digest, s.(entries := entries))
  {}

  lemma LocalIsSet(s: System, id: nat, choice: Choice)
    requires id in s.coordinators
    ensures LocalStep(s, id, choice) ==
              Set(s, id, Local(s.coordinators[id], choice)).(entries := LocalStep(s, id, choice).entries)
  {}

  lemma LocallyAgrees(digest: Digest, s: System, id: nat, choice: Choice)
    requires OnceInv(s) && AgreeInv(digest, s) && id in s.coordinators
    ensures AgreeInv(digest, LocalStep(s, id, choice))
  {
    var c := s.coordinators[id];
    LocalProgress(c, choice);
    LocalAdvances(c, choice);
    LocalAgrees(digest, s, id, Local(c, choice));
    EntriesAreHistory(digest, Set(s, id, Local(c, choice)), LocalStep(s, id, choice).entries);
    LocalIsSet(s, id, choice);
  }

  lemma SpawnTracked(digest: Digest, s: System, id: nat, c: Coordinator)
    requires AllTracked(digest, s) && CommitsOk(digest, s) && id !in s.coordinators && !c.started
    ensures AllTracked(digest, Set(s, id, c)) && CommitsOk(digest, Set(s, id, c))
  {}

  lemma SpawnAttributed(s: System, id: nat, c: Coordinator, j: JobId)
    requires id !in s.coordinators && j in s.ledger.recs && Attributed(s, j)
    ensures Attributed(Set(s, id, c), j)
  {}

  lemma SpawnAgrees(digest: Digest, s: System, id: nat, c: Coordinator)
    requires AgreeInv(digest, s) && id !in s.coordinators && !c.started
    ensures AgreeInv(digest, Set(s, id, c))
  {
    SpawnTracked(digest, s, id, c);
    forall j | Succeeds(s.ledger, j) ensures Attributed(Set(s, id, c), j) { SpawnAttributed(s, id, c, j); }
  }

  lemma NextAgrees(digest: Digest, s: System, step: Step)
    requires OnceInv(s) && AgreeInv(digest, s) && Confined(s, step)
    ensures AgreeInv(digest, Next(digest, s, step))
  {
    match step
    case Environment(op) => EnvironmentAgrees(digest, s, op);
    case LateCommit(p) => LateCommitAgrees(digest, s, p);
    case Spawn(id, j, t, config, required) =>
      if id !in s.coordinators { SpawnAgrees(digest, s, id, Fresh(j, t, config, required)); }
    case Locally(id, choice) => if id in s.coordinators { LocallyAgrees(digest, s, id, choice); }
    case Calls(id, delivery) => if id in s.coordinators { CallAgrees(digest, s, id, delivery); }
    case ChecksCommit(id) => if id in s.coordinators { CheckAgrees(digest, s, id); }
    case FinishesCommit(id, delivered) => if id in s.commits { FinishAgrees(digest, s, id, delivered); }
    case Crash(id) =>
      if id in s.coordinators {
        ExceptedProgress(s.coordinators[id]);
        LocalAgrees(digest, s, id, s.coordinators[id].(pc := Gone));
      }
  }

  lemma {:induction false} ExecuteAgrees(digest: Digest, s: System, steps: seq<Step>)
    requires OnceInv(s) && AgreeInv(digest, s) && AllConfined(digest, s, steps)
    ensures OnceInv(Execute(digest, s, steps)) && AgreeInv(digest, Execute(digest, s, steps))
    decreases |steps|
  {
    if |steps| > 0 {
      NextOnce(digest, s, steps[0]);
      NextAgrees(digest, s, steps[0]);
      ExecuteAgrees(digest, Next(digest, s, steps[0]), steps[1..]);
    }
  }

  // ---- the agreement ----

  lemma ClaimsAreSelection(digest: Digest, r: JobRecord, c: Coordinator)
    requires RecordInv(r) && Tracks(digest, r, c) && CompletedBy(r, c)
    ensures r.effects.Keys == set p | p in c.selected :: ProfileKey(c.job, p)
  {
    forall k | k in r.effects ensures exists p :: p in c.selected && k == ProfileKey(c.job, p) {
      assert KeyOf(c, k);
    }
    forall p | p in c.selected ensures ProfileKey(c.job, p) in r.effects {
      var i :| 0 <= i < |c.selected| && c.selected[i] == p;
      assert Landed(digest, r, c, i);
    }
  }

  lemma RunAttributes(digest: Digest, start: Time, steps: seq<Step>, j: JobId)
    requires AllConfined(digest, Initial(start), steps)
    requires Succeeds(Execute(digest, Initial(start), steps).ledger, j)
    ensures var s := Execute(digest, Initial(start), steps);
            && Attributed(s, j) && SafeRecord(s.ledger.recs[j]) && WellFormed(s.coordinators[s.completedBy[j]])
            && Tracks(digest, s.ledger.recs[j], s.coordinators[s.completedBy[j]])
  {
    ExecuteAgrees(digest, Initial(start), steps);
    var s := Execute(digest, Initial(start), steps);
    assert Attributed(s, j);
    assert Tracked(digest, s.ledger, s.coordinators[s.completedBy[j]]);
  }

  /** When a QA job is succeeded, the coordinator that completed it ran every
      profile it had selected, once; the effect keys of the job are exactly the
      keys of those profiles, every effect is committed with the digest of that
      profile's result, and the recorded status is qa_passed exactly when every
      result was a pass. The profiles include all of the baseline and all that the
      job requires, are at most as many as configured, and beyond the baseline
      only allowed ones. Only a job that is not side-effecting, and of which
      nothing was run, can instead be recorded as a rejection. */
  lemma SucceededAgrees(digest: Digest, start: Time, steps: seq<Step>, j: JobId)
    requires AllConfined(digest, Initial(start), steps)
    requires Succeeds(Execute(digest, Initial(start), steps).ledger, j)
    ensures var s := Execute(digest, Initial(start), steps);
            && j in s.completedBy && s.completedBy[j] in s.coordinators && (
            var c, r := s.coordinators[s.completedBy[j]], s.ledger.recs[j];
            && c.job == j && Distinct(c.selected) && |c.results| == |c.selected|
            && r.effects.Keys == (set p | p in c.selected :: ProfileKey(j, p))
            && (forall i :: 0 <= i < |c.results| ==> Landed(digest, r, c, i))
            && (|| (&& Chosen(c) && c.admitted == Some(true) && c.clean == |c.results|
                    && r.row.result == Some(QaResult(if AllPassed(c.results) then "qa_passed" else "qa_failed")))
                || (&& !r.row.def.sideEffecting && c.selected == [] && c.admitted == Some(false)
                    && r.row.result == Some(QaResult("reject")))))
  {
    RunAttributes(digest, start, steps, j);
    var s := Execute(digest, Initial(start), steps);
    ClaimsAreSelection(digest, s.ledger.recs[j], s.coordinators[s.completedBy[j]]);
  }

  predicate AllPassed(results: seq<SandboxResult>) {
    forall i :: 0 <= i < |results| ==> results[i].status == BoundedCollector.Pass
  }

  predicate RecordsStatus(row: JobRow) {
    row.result.Some? && "qa_status" in row.result.value && row.result.value["qa_status"] in QA_STATUSES
  }

  /** Although the guard of b034_complete_job does not insist on a status, in
      confined runs every succeeded QA job records one of the three. */
  lemma SucceededRecordsStatus(digest: Digest, start: Time, steps: seq<Step>, j: JobId)
    requires AllConfined(digest, Initial(start), steps)
    requires Succeeds(Execute(digest, Initial(start), steps).ledger, j)
    ensures RecordsStatus(Execute(digest, Initial(start), steps).ledger.recs[j].row)
  {
    SucceededAgrees(digest, start, steps, j);
  }

  // ---- the status guard of b034_complete_job ----

  lemma AcceptedIsStored(s: State, j: JobId, t: Token, result: Json)
    requires QaInvoke(s, j, t, QaComplete(result)).1 == CompleteOk
    ensures var s' := QaInvoke(s, j, t, QaComplete(result)).0; j in s'.recs && s'.recs[j].row.result == Some(result)
  {}

  /** An accepted completion records one of the three statuses exactly when the
      submitted result has a status at all: the guard refuses every other status,
      but not its absence. */
  lemma GuardNeedsStatus(s: State, j: JobId, t: Token, result: Json)
    requires QaInvoke(s, j, t, QaComplete(result)).1 == CompleteOk
    ensures var s' := QaInvoke(s, j, t, QaComplete(result)).0;
            j in s'.recs && (RecordsStatus(s'.recs[j].row) <==> "qa_status" in result)
  {
    AcceptedIsStored(s, j, t, result);
    assert Wrapped(j, QaComplete(result)).Some?;
  }

  /** And no accepted result authorizes a promotion, in any of these spellings. */
  lemma GuardRefusesPromotion(s: State, j: JobId, t: Token, result: Json)
    requires QaInvoke(s, j, t, QaComplete(result)).1 == CompleteOk && "promotion_authorized" in result
    ensures result["promotion_authorized"] !in {"true", "t", "TRUE", "yes", "on", "1", " true "}
  {
    assert Wrapped(j, QaComplete(result)).Some?;
    if result["promotion_authorized"] in {"true", "t", "TRUE", "yes", "on", "1", " true "} {
      TruthIsTrue(result["promotion_authorized"]);
    }
  }

  /** Claims and receipts go through for QA jobs only, under the key of the job and
      the profile, and a receipt is 64 hexadecimal digits. */
  lemma WrappersCheck(s: State, j: JobId, t: Token, p: string, sha: string)
    ensures var (s', reply) := QaInvoke(s, j, t, QaBegin(p));
            reply != Raised ==>
              && j in s.recs && s.recs[j].row.def.kind == "engineering.qa" && 1 <= |p| <= 64
              && j in s'.recs && "b034:qa-profile:" + j + ":" + p in s'.recs[j].effects
    ensures var (s', reply) := QaInvoke(s, j, t, QaCommit(p, sha));
            reply != Raised ==>
              && j in s.recs && s.recs[j].row.def.kind == "engineering.qa" && LedgerColumns.HexDigits(sha, 64)
              && j in s'.recs && "b034:qa-profile:" + j + ":" + p in s'.recs[j].effects
              && s'.recs[j].effects["b034:qa-profile:" + j + ":" + p].state == EffectCommitted
  {}

  /** The empty result is accepted for any running QA job that is not side-effecting. */
  lemma EmptyResultIsAccepted(s: State, j: JobId, t: Token)
    requires IsQa(s, j) && !s.recs[j].row.def.sideEffecting && s.recs[j].row.status == Running
    requires Live(s.now, s.recs[j].row, t)
    ensures var (s', reply) := QaInvoke(s, j, t, QaComplete(map[]));
            reply == CompleteOk && j in s'.recs && s'.recs[j].row.result == Some(map[])
                && !RecordsStatus(s'.recs[j].row)
  {}

  lemma RejectOn(digest: Digest, now: Time, r: JobRecord, c: Coordinator)
    requires RecordInv(r) && Tracks(digest, r, c) && WellFormed(c) && c.pc.AtReject?
    ensures CompleteOn(now, r, c.token, Some(QaResult("reject")), QA_ACTOR).reply == CompleteOk <==>
              !r.row.def.sideEffecting && r.row.status == Running && Live(now, r.row, c.token)
  {}

  /** The admission-reject path runs no profile, and it can complete the job only
      if the job is not side-effecting: otherwise b034_complete_job raises. */
  lemma RejectPath(digest: Digest, start: Time, steps: seq<Step>, id: nat)
    requires AllConfined(digest, Initial(start), steps)
    requires var s := Execute(digest, Initial(start), steps); id in s.coordinators && s.coordinators[id].pc.AtReject?
    ensures var s := Execute(digest, Initial(start), steps);
            var c := s.coordinators[id];
            && (forall e :: e in s.entries ==> e.coordinator != id)
            && IsQa(s.ledger, c.job)
            && (QaInvoke(s.ledger, c.job, c.token, QaComplete(QaResult("reject"))).1 == CompleteOk <==>
                  var row := s.ledger.recs[c.job].row;
                  !row.def.sideEffecting && row.status == Running && Live(s.ledger.now, row, c.token))
  {
    ExecuteAgrees(digest, Initial(start), steps);
    var s := Execute(digest, Initial(start), steps);
    var c := s.coordinators[id];
    assert WellFormed(c) && Tracked(digest, s.ledger, c) && SafeRecord(s.ledger.recs[c.job]);
    RejectOn(digest, s.ledger.now, s.ledger.recs[c.job], c);
    CompleteIsPut(s.ledger, c);
  }
}
