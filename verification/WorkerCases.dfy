/** Runs of workers in which a succeeded job loses, or keeps, its branch against
    expectation. */
module WorkerCases {
  import opened Basics
  import opened LedgerTypes
  import opened LedgerSpec
  import opened LedgerInvariant
  import LedgerRuns
  import opened LedgerClients
  import opened LedgerCases
  import opened EngineeringWorker
  import opened WorkerSafety
  import opened WorkerAgreement
  import opened WorkerBranches

  /** A confined run in which deletions take effect leads to `s`. */
  ghost predicate RunsTo(start: Time, host: Host, steps: seq<Step>, s: System) {
    && AllConfined(Initial(start, host), steps) && DeletionsTakeEffect(steps)
    && s == Execute(Initial(start, host), steps)
  }

  ghost predicate Reached(s: System) {
    exists start, host, steps :: RunsTo(start, host, steps, s)
  }

  lemma {:induction false} ExecuteSnoc(s: System, steps: seq<Step>, step: Step)
    requires AllConfined(s, steps) && Confined(Execute(s, steps), step)
    ensures AllConfined(s, steps + [step]) && Execute(s, steps + [step]) == Next(Execute(s, steps), step)
    decreases |steps|
  {
    if |steps| > 0 {
      assert (steps + [step])[1..] == steps[1..] + [step];
      ExecuteSnoc(Next(s, steps[0]), steps[1..], step);
    } else {
      assert steps + [step] == [step];
      assert [step][1..] == [];
      assert Execute(s, [step]) == Execute(Next(s, step), []);
      assert AllConfined(Next(s, step), []);
    }
  }

  lemma ReachedNext(s: System, step: Step)
    requires Reached(s) && Confined(s, step) && TakesEffect(step)
    ensures Reached(Next(s, step))
  {
    var start, host, steps :| RunsTo(start, host, steps, s);
    ExecuteSnoc(Initial(start, host), steps, step);
    assert RunsTo(start, host, steps + [step], Next(s, step));
  }

  lemma ReachedLocally(s: System, id: nat, input: Input)
    requires Reached(s) && id in s.workers && (input.CleansUp? ==> input.deletes)
    ensures Reached(LocalStep(s, id, input))
  {
    ReachedNext(s, Locally(id, input));
  }

  lemma ReachedCall(s: System, id: nat, delivery: Delivery, q: WorkerCall)
    requires Reached(s) && id in s.workers && NextCall(s.workers[id]) == Some(q) && !delivery.NotSent?
    ensures var (ledger, reply) := WorkerInvoke(s.ledger, s.workers[id].job, s.workers[id].token, q);
            Reached(Sent(s, id, delivery, ledger, reply))
  {
    ReachedNext(s, Calls(id, delivery));
  }

  lemma OnlyWorkerInvoke(now: Time, j: JobId, r: JobRecord, t: Token, q: WorkerCall)
    requires Wrapped(j, q).Some?
    ensures var answer := CallOn(now, r, false, t, Wrapped(j, q).value);
            WorkerInvoke(Only(now, j, r), j, t, q) == (Only(now, j, answer.rec), answer.reply)
  {
    OnlyInvoke(now, j, r, t, Wrapped(j, q).value);
  }

  const IMPLEMENT := JobOf(IMPLEMENT_KIND, true)
  const HEAD: string := Fill(40, '0')

  function ConfigOf(root: string): Config { Config(root, root, LEASE, 60) }

  /** Worker `id` of the job, with its progress. */
  function At(t: Token, root: string, p: Progress): Worker { Worker(JOB, t, ConfigOf(root), p) }

  predicate With(s: System, id: nat, t: Token, root: string, p: Progress, now: Time, r: JobRecord) {
    id in s.workers && s.workers[id] == At(t, root, p) && s.ledger == Only(now, JOB, r)
  }

  /** What the ledger does for a call of a worker of the job. */
  predicate Answers(now: Time, r: JobRecord, t: Token, q: WorkerCall, answer: Answer) {
    Wrapped(JOB, q).Some? && CallOn(now, r, false, t, Wrapped(JOB, q).value) == answer
  }

  /** All other workers are as they were. */
  predicate Others(s: System, s': System, id: nat) {
    && s'.workers.Keys == s.workers.Keys + {id}
    && forall a :: a in s.workers && a != id ==> a in s'.workers && s'.workers[a] == s.workers[a]
  }

  predicate OnlyWorker(s: System, s': System, id: nat) {
    Others(s, s', id) && s'.host == s.host && s'.completedBy == s.completedBy
  }

  /** One call that is answered: the worker moves on, the record changes, nothing else does. */
  lemma Answered(s: System, id: nat, t: Token, root: string, p: Progress, now: Time, r: JobRecord, q: WorkerCall,
                 answer: Answer, p': Progress)
    returns (s': System)
    requires Reached(s) && With(s, id, t, root, p, now, r) && NextCall(At(t, root, p)) == Some(q)
    requires Answers(now, r, t, q, answer) && answer.reply != CompleteOk && p' == Replied(p, answer.reply)
    ensures Reached(s') && With(s', id, t, root, p', now, answer.rec) && OnlyWorker(s, s', id)
  {
    OnlyWorkerInvoke(now, JOB, r, t, q);
    ReachedCall(s, id, Delivered, q);
    s' := Sent(s, id, Delivered, Only(now, JOB, answer.rec), answer.reply);
  }

  lemma GateAnswer(now: Time, r: JobRecord, t: Token)
    ensures Answers(now, r, t, GateCall(Allow, EVIDENCE), RecordGateOn(now, r, t, Allow, EVIDENCE, WORKER_ACTOR))
  {}

  lemma StartAnswer(now: Time, r: JobRecord, t: Token)
    ensures Answers(now, r, t, StartCall, StartOn(now, r, t, WORKER_ACTOR))
  {}

  lemma HeartbeatAnswer(now: Time, r: JobRecord, t: Token)
    ensures Answers(now, r, t, HeartbeatCall(LEASE), HeartbeatOn(now, r, t, LEASE))
  {}

  lemma BeginAnswer(now: Time, r: JobRecord, t: Token)
    ensures Answers(now, r, t, BeginCall, BeginEffectOn(now, r, false, t, KEY, WORKER_ACTOR))
  {}

  lemma CommitAnswer(now: Time, r: JobRecord, t: Token)
    ensures Answers(now, r, t, CommitCall(HEAD), CommitEffectOn(now, r, t, KEY, Some(HEAD), WORKER_ACTOR))
  {
    KeyFits();
  }

  /** One outcome of the worker's own commands, by which it gets to `p'`. */
  lemma Did(s: System, id: nat, t: Token, root: string, p: Progress, now: Time, r: JobRecord, input: Input,
            p': Progress)
    returns (s': System)
    requires Reached(s) && With(s, id, t, root, p, now, r) && p' == React(p, See(At(t, root, p), s.host), input)
    requires input.CleansUp? ==> input.deletes
    ensures Reached(s') && With(s', id, t, root, p', now, r) && s' == LocalStep(s, id, input)
  {
    ReachedLocally(s, id, input);
    s' := LocalStep(s, id, input);
  }

  /** An outcome that touches neither the machine nor its history. */
  lemma DidQuietly(s: System, id: nat, t: Token, root: string, p: Progress, now: Time, r: JobRecord, input: Input,
                   p': Progress)
    returns (s': System)
    requires Reached(s) && With(s, id, t, root, p, now, r) && p' == React(p, See(At(t, root, p), s.host), input)
    requires input.GateAnswers? || input.PatchIsTested? || input.CommitIsMade? || input.Returns? || input.Aborts?
    ensures Reached(s') && With(s', id, t, root, p', now, r) && OnlyWorker(s, s', id)
  {
    s' := Did(s, id, t, root, p, now, r, input, p');
  }

  const AFTER_START := Progress(AtHeartbeat, true, false, false, false, false, false, false, None)
  const IN_BUILD := Progress(AtBuild, true, true, true, false, false, false, false, None)

  lemma Spawned(s: System, id: nat, t: Token, root: string, now: Time, r: JobRecord) returns (s': System)
    requires Reached(s) && id !in s.workers && s.ledger == Only(now, JOB, r)
    ensures Reached(s') && With(s', id, t, root, Fresh(JOB, t, ConfigOf(root)).at, now, r)
    ensures OnlyWorker(s, s', id)
  {
    ReachedNext(s, Spawn(id, JOB, t, ConfigOf(root)));
    s' := s.(workers := s.workers[id := Fresh(JOB, t, ConfigOf(root))]);
  }

  lemma PassesGate(s: System, id: nat, t: Token, root: string, now: Time, r: JobRecord, expiry: Time)
    returns (s': System, r': JobRecord)
    requires Reached(s) && id !in s.workers && s.ledger == Only(now, JOB, r)
    requires Held(r, IMPLEMENT, t, expiry, Leased, false) && now < expiry
    ensures Reached(s') && With(s', id, t, root, Fresh(JOB, t, ConfigOf(root)).at.(pc := AtStart), now, r')
        && OnlyWorker(s, s', id)
    ensures Held(r', IMPLEMENT, t, expiry, Leased, true)
    ensures r'.effects == r.effects && r'.attempts == r.attempts && r'.row.attemptCount == r.row.attemptCount
  {
    ValuesOk();
    var p := Fresh(JOB, t, ConfigOf(root)).at;
    var s0 := Spawned(s, id, t, root, now, r);
    var s1 := DidQuietly(s0, id, t, root, p, now, r, GateAnswers(Allow, EVIDENCE),
                         p.(pc := AtRecordGate(Allow, EVIDENCE)));
    Gated(now, r, IMPLEMENT, t, expiry, EVIDENCE, WORKER_ACTOR);
    var answer := RecordGateOn(now, r, t, Allow, EVIDENCE, WORKER_ACTOR);
    GateAnswer(now, r, t);
    s' := Answered(s1, id, t, root, p.(pc := AtRecordGate(Allow, EVIDENCE)), now, r, GateCall(Allow, EVIDENCE), answer,
                   p.(pc := AtStart));
    r' := answer.rec;
  }

  /** A worker takes up the leased job and gets as far as its start. */
  lemma TakesUp(s: System, id: nat, t: Token, root: string, now: Time, r: JobRecord, expiry: Time)
    returns (s': System, r': JobRecord)
    requires Reached(s) && id !in s.workers && s.ledger == Only(now, JOB, r)
    requires Held(r, IMPLEMENT, t, expiry, Leased, false) && now < expiry
    ensures Reached(s') && With(s', id, t, root, AFTER_START, now, r') && OnlyWorker(s, s', id)
    ensures Held(r', IMPLEMENT, t, expiry, Running, true)
    ensures r'.effects == r.effects && r'.attempts == r.attempts && r'.row.attemptCount == r.row.attemptCount
  {
    ValuesOk();
    var s2, r2 := PassesGate(s, id, t, root, now, r, expiry);
    Started(now, r2, IMPLEMENT, t, expiry, WORKER_ACTOR);
    var answer := StartOn(now, r2, t, WORKER_ACTOR);
    StartAnswer(now, r2, t);
    s' := Answered(s2, id, t, root, Fresh(JOB, t, ConfigOf(root)).at.(pc := AtStart), now, r2, StartCall, answer,
                   AFTER_START);
    r' := answer.rec;
  }

  /** From its start it gets as far as its worktree, if there are no leftovers. */
  lemma SetsUp(s: System, id: nat, t: Token, root: string, now: Time, r: JobRecord, expiry: Time, later: Time)
    returns (s': System, r': JobRecord)
    requires Reached(s) && With(s, id, t, root, AFTER_START, now, r)
    requires Held(r, IMPLEMENT, t, expiry, Running, true) && now < expiry && later == now + EXPIRY
    requires (root, JOB) !in s.host.evidence && (root, Short(JOB)) !in s.host.worktrees
    ensures Reached(s') && With(s', id, t, root, IN_BUILD, now, r')
    ensures SetUp(s, s', id, root)
    ensures Held(r', IMPLEMENT, t, later, Running, true)
    ensures r'.effects == r.effects && r'.attempts == r.attempts && r'.row.attemptCount == r.row.attemptCount
  {
    ValuesOk();
    Beaten(now, r, IMPLEMENT, t, expiry, LEASE);
    var answer := HeartbeatOn(now, r, t, LEASE);
    HeartbeatAnswer(now, r, t);
    var s1 := Answered(s, id, t, root, AFTER_START, now, r, HeartbeatCall(LEASE), answer, AFTER_START.(pc := AtSetup));
    r' := answer.rec;
    s' := MakesWorktree(s1, id, t, root, now, r');
  }

  predicate SetUp(s: System, s': System, id: nat, root: string) {
    && Others(s, s', id) && s'.completedBy == s.completedBy && s'.host.branches == s.host.branches
    && s'.host.evidence == s.host.evidence + {(root, JOB)}
    && s'.host.worktrees == s.host.worktrees + {(root, Short(JOB))}
  }

  lemma MakesDirectory(s: System, id: nat, t: Token, root: string, now: Time, r: JobRecord) returns (s': System)
    requires Reached(s) && With(s, id, t, root, AFTER_START.(pc := AtSetup), now, r)
    requires (root, JOB) !in s.host.evidence && (root, Short(JOB)) !in s.host.worktrees
    ensures Reached(s') && With(s', id, t, root, AFTER_START.(pc := AtWorktree, ownsDir := true), now, r)
    ensures Others(s, s', id) && s'.completedBy == s.completedBy && s'.host.branches == s.host.branches
    ensures s'.host.evidence == s.host.evidence + {(root, JOB)} && s'.host.worktrees == s.host.worktrees
  {
    SetupPath(At(t, root, AFTER_START.(pc := AtSetup)), s.host);
    s' := Did(s, id, t, root, AFTER_START.(pc := AtSetup), now, r, SetupDone,
              AFTER_START.(pc := AtWorktree, ownsDir := true));
  }

  lemma MakesWorktree(s: System, id: nat, t: Token, root: string, now: Time, r: JobRecord) returns (s': System)
    requires Reached(s) && With(s, id, t, root, AFTER_START.(pc := AtSetup), now, r)
    requires (root, JOB) !in s.host.evidence && (root, Short(JOB)) !in s.host.worktrees
    ensures Reached(s') && With(s', id, t, root, IN_BUILD, now, r) && SetUp(s, s', id, root)
  {
    var s1 := MakesDirectory(s, id, t, root, now, r);
    WorktreePath(At(t, root, AFTER_START.(pc := AtWorktree, ownsDir := true)), s1.host);
    s' := Did(s1, id, t, root, AFTER_START.(pc := AtWorktree, ownsDir := true), now, r, WorktreeIsAdded, IN_BUILD);
  }

  const KEY := CandidateKey(JOB)

  lemma KeyFits()
    ensures 1 <= |KEY| <= 256 && ActorOk(WORKER_ACTOR) && DefinitionOk(IMPLEMENT) && IsLowerHex(HEAD, 40)
  {}

  /** The candidate effect is there, in this state, and belongs to the attempt of `t`. */
  predicate HasCandidate(r: JobRecord, t: Token, state: EffectState) {
    r.effects.Keys == {KEY} && r.effects[KEY].state == state
        && Some(r.effects[KEY].attempt) == FindAttempt(r.attempts, t)
  }

  const IN_SWITCH := IN_BUILD.(pc := AtSwitch, effectStarted := true)
  const AT_COMMIT := IN_SWITCH.(pc := AtCommit, branchCreated := true, made := true)
  const WITH_BRANCH := AT_COMMIT.(pc := AtCommitEffect(HEAD), candidate := Some(HEAD))
  const AT_END := WITH_BRANCH.(pc := AtComplete(HEAD))

  // What the worker makes of each reply and outcome on this path.

  lemma SetupPath(w: Worker, host: Host)
    requires w.at.pc.AtSetup? && EvidenceDir(w) !in host.evidence && Worktree(w) !in host.worktrees
    ensures React(w.at, See(w, host), SetupDone) == w.at.(pc := AtWorktree, ownsDir := true)
    ensures Touch(w, host, SetupDone) == host.(evidence := host.evidence + {EvidenceDir(w)})
  {}

  lemma WorktreePath(w: Worker, host: Host)
    requires w.at.pc.AtWorktree? && Worktree(w) !in host.worktrees
    ensures React(w.at, See(w, host), WorktreeIsAdded) == w.at.(pc := AtBuild, worktreeAdded := true)
    ensures Touch(w, host, WorktreeIsAdded) == host.(worktrees := host.worktrees + {Worktree(w)})
  {}

  lemma BeginPath(sight: Sight, t: Token, root: string)
    ensures React(IN_BUILD, sight, PatchIsTested) == IN_BUILD.(pc := AtBegin)
    ensures NextCall(At(t, root, IN_BUILD.(pc := AtBegin))) == Some(BeginCall)
    ensures Replied(IN_BUILD.(pc := AtBegin), EffectIs(EffectStarted)) == IN_SWITCH
  {}

  lemma SwitchPath(w: Worker, host: Host)
    requires w.at.pc.AtSwitch? && Branch(w.job) !in host.branches
    ensures React(w.at, See(w, host), Switched(true, true))
        == w.at.(pc := AtCommit, branchCreated := true, made := true)
    ensures Touch(w, host, Switched(true, true)) == host.(branches := host.branches + {Branch(w.job)})
  {}

  lemma CommitPath(sight: Sight, t: Token, root: string)
    ensures React(AT_COMMIT, sight, CommitIsMade(HEAD)) == WITH_BRANCH
    ensures NextCall(At(t, root, WITH_BRANCH)) == Some(CommitCall(HEAD))
    ensures Replied(WITH_BRANCH, CommitOk) == AT_END
  {
    KeyFits();
  }

  lemma Begins(s: System, id: nat, t: Token, root: string, now: Time, r: JobRecord, expiry: Time)
    returns (s': System, r': JobRecord)
    requires Reached(s) && With(s, id, t, root, IN_BUILD, now, r) && r.effects == map[]
    requires Held(r, IMPLEMENT, t, expiry, Running, true) && now < expiry
    ensures Reached(s') && With(s', id, t, root, IN_SWITCH, now, r') && OnlyWorker(s, s', id)
    ensures Held(r', IMPLEMENT, t, expiry, Running, true) && HasCandidate(r', t, EffectStarted)
  {
    KeyFits();
    BeginPath(See(At(t, root, IN_BUILD), s.host), t, root);
    var s1 := DidQuietly(s, id, t, root, IN_BUILD, now, r, PatchIsTested, IN_BUILD.(pc := AtBegin));
    Begun(now, r, IMPLEMENT, t, expiry, KEY, WORKER_ACTOR);
    var answer := BeginEffectOn(now, r, false, t, KEY, WORKER_ACTOR);
    BeginAnswer(now, r, t);
    s' := Answered(s1, id, t, root, IN_BUILD.(pc := AtBegin), now, r, BeginCall, answer, IN_SWITCH);
    r' := answer.rec;
  }

  predicate Branched(s: System, s': System, id: nat) {
    Others(s, s', id) && s'.completedBy == s.completedBy && s'.host.branches == s.host.branches + {Branch(JOB)}
  }

  lemma Switches(s: System, id: nat, t: Token, root: string, now: Time, r: JobRecord) returns (s': System)
    requires Reached(s) && With(s, id, t, root, IN_SWITCH, now, r) && Branch(JOB) !in s.host.branches
    ensures Reached(s') && With(s', id, t, root, AT_COMMIT, now, r) && Branched(s, s', id)
  {
    SwitchPath(At(t, root, IN_SWITCH), s.host);
    s' := Did(s, id, t, root, IN_SWITCH, now, r, Switched(true, true), AT_COMMIT);
  }

  lemma Commits(s: System, id: nat, t: Token, root: string, now: Time, r: JobRecord, expiry: Time)
    returns (s': System, r': JobRecord)
    requires Reached(s) && With(s, id, t, root, AT_COMMIT, now, r)
    requires Held(r, IMPLEMENT, t, expiry, Running, true) && HasCandidate(r, t, EffectStarted) && now < expiry
    ensures Reached(s') && With(s', id, t, root, AT_END, now, r') && OnlyWorker(s, s', id)
    ensures Held(r', IMPLEMENT, t, expiry, Running, true) && HasCandidate(r', t, EffectCommitted)
  {
    KeyFits();
    CommitPath(See(At(t, root, AT_COMMIT), s.host), t, root);
    var s1 := DidQuietly(s, id, t, root, AT_COMMIT, now, r, CommitIsMade(HEAD), WITH_BRANCH);
    Committed1(now, r, IMPLEMENT, t, expiry, KEY, HEAD, WORKER_ACTOR);
    var answer := CommitEffectOn(now, r, t, KEY, Some(HEAD), WORKER_ACTOR);
    CommitAnswer(now, r, t);
    s' := Answered(s1, id, t, root, WITH_BRANCH, now, r, CommitCall(HEAD), answer, AT_END);
    r' := answer.rec;
  }

  /** From its worktree a worker gets as far as its completion, with its branch made. */
  lemma Builds(s: System, id: nat, t: Token, root: string, now: Time, r: JobRecord, expiry: Time)
    returns (s': System, r': JobRecord)
    requires Reached(s) && With(s, id, t, root, IN_BUILD, now, r) && r.effects == map[]
        && Branch(JOB) !in s.host.branches
    requires Held(r, IMPLEMENT, t, expiry, Running, true) && now < expiry
    ensures Reached(s') && With(s', id, t, root, AT_END, now, r') && Branched(s, s', id)
    ensures Held(r', IMPLEMENT, t, expiry, Running, true) && HasCandidate(r', t, EffectCommitted)
  {
    var s1, r1 := Begins(s, id, t, root, now, r, expiry);
    var s2 := Switches(s1, id, t, root, now, r1);
    s', r' := Commits(s2, id, t, root, now, r1, expiry);
  }

  const RESULT := CandidateResult(JOB, HEAD)

  lemma CompletionAccepted(now: Time, r: JobRecord, t: Token, expiry: Time)
    requires Held(r, IMPLEMENT, t, expiry, Running, true) && HasCandidate(r, t, EffectCommitted) && now < expiry
    ensures var (ledger, reply) := WorkerInvoke(Only(now, JOB, r), JOB, t, CompleteCall(RESULT));
            && reply == CompleteOk
            && ledger == Only(now, JOB, CompleteOn(now, r, t, Some(RESULT), WORKER_ACTOR).rec)
            && WorkerAgreement.Succeeds(ledger, JOB)
  {
    KeyFits();
    Completed1(now, r, IMPLEMENT, t, expiry, KEY, RESULT, WORKER_ACTOR);
    OnlyWorkerInvoke(now, JOB, r, t, CompleteCall(RESULT));
  }

  // ---- the cases ----

  const BARE := Host({}, {}, {})

  /** The job is leased, and no worker is there yet. */
  lemma LeasedCase() returns (s: System, r: JobRecord)
    ensures Reached(s) && s.ledger == Only(0, JOB, r) && s.workers == map[] && s.host == BARE
    ensures RecordInv(r) && Held(r, IMPLEMENT, TOKEN, EXPIRY, Leased, false)
    ensures r.effects == map[] && r.row.attemptCount == 1 && FindAttempt(r.attempts, TOKEN2).None?
  {
    ValuesOk();
    KeyFits();
    assert RunsTo(0, BARE, [], Initial(0, BARE));
    var r0 := NewRecord(0, IMPLEMENT, 0, 0, WORKER);
    OnlySubmit(0, JOB, IMPLEMENT);
    ReachedNext(Initial(0, BARE), Environment(SubmitJob(JOB, IMPLEMENT, 0, 0, WORKER)));
    var s0 := System(Only(0, JOB, r0), map[], BARE, map[], map[], [], map[]);
    OnlyLease(0, JOB, r0, TOKEN);
    ReachedNext(s0, Environment(LeaseNext(WORKER, LEASE, None, TOKEN, {})));
    NewRecordInv(0, IMPLEMENT, 0, 0, WORKER);
    Leased1(0, r0, WORKER, LEASE, TOKEN);
    r := LeaseOn(0, r0, WORKER, LEASE, TOKEN);
    s := s0.(ledger := Only(0, JOB, r));
  }

  /** The lease runs out, the job is reaped and leased again. */
  lemma LeasedAgain(s: System, r: JobRecord) returns (s': System, r': JobRecord)
    requires Reached(s) && s.ledger == Only(0, JOB, r) && RecordInv(r)
    requires Held(r, IMPLEMENT, TOKEN, EXPIRY, Running, true)
    requires r.effects == map[] && r.row.attemptCount == 1 && FindAttempt(r.attempts, TOKEN2).None?
    ensures Reached(s') && s'.ledger == Only(EXPIRY, JOB, r') && s'.workers == s.workers && s'.host == s.host
    ensures Held(r', IMPLEMENT, TOKEN2, 2 * EXPIRY, Leased, false) && r'.effects == map[]
  {
    var later := EXPIRY;
    ValuesOk();
    ReachedNext(s, Environment(Tick(later)));
    var s1 := s.(ledger := Only(later, JOB, r));
    OnlyReap(later, JOB, r);
    ReachedNext(s1, Environment(ReapExpired({}, WORKER)));
    Reaped1(later, r, IMPLEMENT, TOKEN, later, WORKER);
    var r2 := ReapOn(later, r, WORKER);
    OnlyLease(later, JOB, r2, TOKEN2);
    ReachedNext(s1.(ledger := Only(later, JOB, r2)), Environment(LeaseNext(WORKER, LEASE, None, TOKEN2, {})));
    Leased1(later, r2, WORKER, LEASE, TOKEN2);
    r' := LeaseOn(later, r2, WORKER, LEASE, TOKEN2);
    s' := s1.(ledger := Only(later, JOB, r'));
  }

  /** The completion is accepted; the reply arrives or is lost. */
  lemma Completes(s: System, id: nat, t: Token, root: string, now: Time, r: JobRecord, expiry: Time, delivery: Delivery)
    returns (s': System, r': JobRecord)
    requires Reached(s) && With(s, id, t, root, AT_END, now, r) && !delivery.NotSent?
    requires Held(r, IMPLEMENT, t, expiry, Running, true) && HasCandidate(r, t, EffectCommitted) && now < expiry
    ensures Reached(s') && Succeeds(s'.ledger, JOB)
    ensures With(s', id, t, root, if delivery.Delivered? then RETURNED else AT_END.(pc := AtFail), now, r')
    ensures Others(s, s', id) && s'.host == s.host && JOB in s'.completedBy && s'.completedBy[JOB] == id
  {
    CompletionAccepted(now, r, t, expiry);
    EndPath(t, root);
    ReachedCall(s, id, delivery, CompleteCall(RESULT));
    r' := CompleteOn(now, r, t, Some(RESULT), WORKER_ACTOR).rec;
    s' := Sent(s, id, delivery, Only(now, JOB, r'), CompleteOk);
    SentPath(s, id, delivery, Only(now, JOB, r'));
  }

  lemma SentPath(s: System, id: nat, delivery: Delivery, ledger: State)
    requires id in s.workers
    ensures var w, s' := s.workers[id], Sent(s, id, delivery, ledger, CompleteOk);
            && Others(s, s', id) && s'.host == s.host && w.job in s'.completedBy && s'.completedBy[w.job] == id
            && s'.workers[id] == w.(at := After(w.at, delivery, CompleteOk)) && s'.ledger == ledger
  {}

  const RETURNED := AT_END.(pc := AtReturn, success := true)

  lemma EndPath(t: Token, root: string)
    ensures NextCall(At(t, root, AT_END)) == Some(CompleteCall(RESULT))
    ensures Replied(AT_END, CompleteOk) == RETURNED && Excepted(AT_END) == AT_END.(pc := AtFail)
  {}

  /** Clean-up deletes the branch exactly if the worker does not count as successful. */
  lemma CleanPath(w: Worker, host: Host)
    requires w.at.pc.AtCleanup? && w.at.worktreeAdded && (w.at.success ==> w.at.branchCreated)
    ensures React(w.at, See(w, host), CleansUp(true, true)) == w.at.(pc := Finished(!w.at.success))
    ensures Touch(w, host, CleansUp(true, true)).branches ==
              if w.at.success then host.branches else host.branches - {Branch(w.job)}
  {}

  lemma Cleaned(s: System, id: nat, t: Token, root: string, p: Progress, now: Time, r: JobRecord) returns (s': System)
    requires Reached(s) && With(s, id, t, root, p, now, r) && p.pc.AtCleanup? && p.worktreeAdded
    requires p.success ==> p.branchCreated
    ensures Reached(s') && With(s', id, t, root, p.(pc := Finished(!p.success)), now, r)
    ensures s'.host.branches == (if p.success then s.host.branches else s.host.branches - {Branch(JOB)})
    ensures s'.completedBy == s.completedBy && Others(s, s', id)
  {
    CleanPath(At(t, root, p), s.host);
    s' := Did(s, id, t, root, p, now, r, CleansUp(true, true), p.(pc := Finished(!p.success)));
  }

  lemma OnePrefix(now: Time, r: JobRecord)
    ensures PrefixesDistinct(Only(now, JOB, r))
  {}

  const FIRST_ROOT := "a"
  const SECOND_ROOT := "b"

  lemma FirstStarts() returns (s: System, r: JobRecord)
    ensures Reached(s) && With(s, 0, TOKEN, FIRST_ROOT, AFTER_START, 0, r) && s.workers.Keys == {0} && s.host == BARE
    ensures Held(r, IMPLEMENT, TOKEN, EXPIRY, Running, true) && r.effects == map[] && r.row.attemptCount == 1
    ensures FindAttempt(r.attempts, TOKEN2).None?
  {
    var s0, r0 := LeasedCase();
    s, r := TakesUp(s0, 0, TOKEN, FIRST_ROOT, 0, r0, EXPIRY);
  }

  /** The first worker gets as far as its worktree. */
  lemma FirstCase() returns (s: System, r: JobRecord)
    ensures Reached(s) && With(s, 0, TOKEN, FIRST_ROOT, IN_BUILD, 0, r) && s.workers.Keys == {0}
    ensures Held(r, IMPLEMENT, TOKEN, EXPIRY, Running, true) && r.effects == map[] && r.row.attemptCount == 1
    ensures FindAttempt(r.attempts, TOKEN2).None? && s.host == FIRST_HOST
  {
    var s0, r0 := FirstStarts();
    s, r := SetsUpFirst(s0, TOKEN, FIRST_ROOT, r0, EXPIRY);
  }

  const FIRST_HOST := HostOf(FIRST_ROOT)

  function HostOf(root: string): Host { Host({}, {(root, Short(JOB))}, {(root, JOB)}) }

  lemma SetsUpFirst(s: System, t: Token, root: string, r: JobRecord, expiry: Time) returns (s': System, r': JobRecord)
    requires Reached(s) && With(s, 0, t, root, AFTER_START, 0, r) && s.workers.Keys == {0} && s.host == BARE
    requires Held(r, IMPLEMENT, t, expiry, Running, true) && 0 < expiry
    ensures Reached(s') && With(s', 0, t, root, IN_BUILD, 0, r') && s'.workers.Keys == {0} && s'.host == HostOf(root)
    ensures Held(r', IMPLEMENT, t, EXPIRY, Running, true)
    ensures r'.effects == r.effects && r'.attempts == r.attempts && r'.row.attemptCount == r.row.attemptCount
  {
    s', r' := SetsUp(s, 0, t, root, 0, r, expiry, EXPIRY);
  }

  /** A single worker gets as far as its completion. */
  lemma BuiltCase() returns (s: System, r: JobRecord)
    ensures Reached(s) && With(s, 0, TOKEN, FIRST_ROOT, AT_END, 0, r) && Branch(JOB) in s.host.branches
    ensures Held(r, IMPLEMENT, TOKEN, EXPIRY, Running, true) && HasCandidate(r, TOKEN, EffectCommitted)
  {
    var s0, r0 := FirstCase();
    s, r := Builds(s0, 0, TOKEN, FIRST_ROOT, 0, r0, EXPIRY);
  }

  /** The reply to the completion is lost and the process dies before clean-up: the
      job is succeeded and its branch is there, though the worker did not succeed. */
  lemma LostReplyMayKeepBranch() returns (s: System)
    ensures Reached(s) && Succeeds(s.ledger, JOB) && PrefixesDistinct(s.ledger) && JOB in s.completedBy
    ensures s.completedBy[JOB] in s.workers && !s.workers[s.completedBy[JOB]].at.success
    ensures Branch(JOB) in s.host.branches
  {
    var s0, r0 := BuiltCase();
    var s1, r1 := Completes(s0, 0, TOKEN, FIRST_ROOT, 0, r0, EXPIRY, ReplyLost);
    ReachedNext(s1, Crash(0));
    s := Set(s1, 0, Crashed(s1.workers[0].at));
    OnePrefix(0, r1);
  }

  /** The reply is lost and the process lives: clean-up deletes the branch of the succeeded job. */
  lemma LostReplyMayDeleteBranch() returns (s: System)
    ensures Reached(s) && Succeeds(s.ledger, JOB) && PrefixesDistinct(s.ledger) && JOB in s.completedBy
    ensures s.completedBy[JOB] in s.workers && !s.workers[s.completedBy[JOB]].at.success
    ensures s.workers[s.completedBy[JOB]].at.pc == Finished(true)
    ensures Branch(JOB) !in s.host.branches
  {
    var s0, r0 := BuiltCase();
    var s1, r1 := Completes(s0, 0, TOKEN, FIRST_ROOT, 0, r0, EXPIRY, ReplyLost);
    var s2 := HandlerFails(s1, 0, TOKEN, FIRST_ROOT, AT_END.(pc := AtFail), 0, r1);
    s := Cleaned(s2, 0, TOKEN, FIRST_ROOT, AT_END.(pc := AtCleanup), 0, r1);
    OnePrefix(0, r1);
  }

  /** The fail call of the exception handler fails itself, which is ignored. */
  lemma HandlerFails(s: System, id: nat, t: Token, root: string, p: Progress, now: Time, r: JobRecord)
    returns (s': System)
    requires Reached(s) && With(s, id, t, root, p, now, r) && p.pc.AtFail?
    ensures Reached(s') && With(s', id, t, root, p.(pc := AtCleanup), now, r) && OnlyWorker(s, s', id)
  {
    ReachedNext(s, Calls(id, NotSent));
    s' := Set(s, id, p.(pc := AtCleanup));
  }

  /** The first worker has a worktree when its lease runs out; the job is leased again. */
  lemma StaleCase() returns (s: System, r: JobRecord)
    ensures Reached(s) && s.ledger == Only(EXPIRY, JOB, r) && Held(r, IMPLEMENT, TOKEN2, 2 * EXPIRY, Leased, false)
    ensures s.workers.Keys == {0} && s.workers[0] == At(TOKEN, FIRST_ROOT, IN_BUILD) && r.effects == map[]
    ensures s.host == FIRST_HOST
  {
    var s0, r0 := FirstCase();
    ReachedRecord(s0, 0, r0);
    s, r := LeasedAgain(s0, r0);
  }

  lemma SecondStarts() returns (s: System, r: JobRecord)
    ensures Reached(s) && With(s, 1, TOKEN2, SECOND_ROOT, AFTER_START, EXPIRY, r)
    ensures 0 in s.workers && s.workers[0] == At(TOKEN, FIRST_ROOT, IN_BUILD) && r.effects == map[]
    ensures Held(r, IMPLEMENT, TOKEN2, 2 * EXPIRY, Running, true)
    ensures s.host == FIRST_HOST
  {
    var s0, r0 := StaleCase();
    s, r := TakesUp(s0, 1, TOKEN2, SECOND_ROOT, EXPIRY, r0, 2 * EXPIRY);
  }

  lemma RootsDiffer()
    ensures FIRST_ROOT != SECOND_ROOT
  {
    assert FIRST_ROOT[0] != SECOND_ROOT[0];
  }

  /** The second worker, with other roots, gets as far as its completion. */
  lemma TwoWorkersCase() returns (s: System, r: JobRecord)
    ensures Reached(s) && With(s, 1, TOKEN2, SECOND_ROOT, AT_END, EXPIRY, r)
    ensures 0 in s.workers && s.workers[0] == At(TOKEN, FIRST_ROOT, IN_BUILD)
    ensures Held(r, IMPLEMENT, TOKEN2, 2 * EXPIRY, Running, true) && HasCandidate(r, TOKEN2, EffectCommitted)
  {
    var s0, r0 := SecondStarts();
    RootsDiffer();
    var s1, r1 := SetsUp(s0, 1, TOKEN2, SECOND_ROOT, EXPIRY, r0, 2 * EXPIRY, 2 * EXPIRY);
    s, r := Builds(s1, 1, TOKEN2, SECOND_ROOT, EXPIRY, r1, 2 * EXPIRY);
  }

  lemma ReachedRecord(s: System, now: Time, r: JobRecord)
    requires Reached(s) && s.ledger == Only(now, JOB, r)
    ensures RecordInv(r)
  {
    var start, host, steps :| RunsTo(start, host, steps, s);
    ExecuteWorks(Initial(start, host), host.branches, steps);
    assert LedgerRuns.SafeRecord(s.ledger.recs[JOB]);
  }

  lemma SecondReturns() returns (s: System, r: JobRecord)
    ensures Reached(s) && With(s, 1, TOKEN2, SECOND_ROOT, RETURNED, EXPIRY, r)
    ensures Succeeds(s.ledger, JOB) && JOB in s.completedBy && s.completedBy[JOB] == 1
    ensures 0 in s.workers && s.workers[0] == At(TOKEN, FIRST_ROOT, IN_BUILD)
  {
    var s0, r0 := TwoWorkersCase();
    s, r := Completes(s0, 1, TOKEN2, SECOND_ROOT, EXPIRY, r0, 2 * EXPIRY, Delivered);
  }

  /** The second worker gets its reply, succeeds and cleans up. */
  lemma SecondSucceeds() returns (s: System, r: JobRecord)
    ensures Reached(s) && With(s, 1, TOKEN2, SECOND_ROOT, RETURNED.(pc := Finished(false)), EXPIRY, r)
    ensures Succeeds(s.ledger, JOB) && JOB in s.completedBy && s.completedBy[JOB] == 1
    ensures 0 in s.workers && s.workers[0] == At(TOKEN, FIRST_ROOT, IN_BUILD)
  {
    var s0, r0 := SecondReturns();
    var p := RETURNED.(pc := AtCleanup);
    ReturnPath();
    var s1 := DidQuietly(s0, 1, TOKEN2, SECOND_ROOT, RETURNED, EXPIRY, r0, Returns, p);
    s := Cleaned(s1, 1, TOKEN2, SECOND_ROOT, p, EXPIRY, r0);
    r := r0;
  }

  lemma ReturnPath()
    ensures forall sight :: React(RETURNED, sight, Returns) == RETURNED.(pc := AtCleanup)
    ensures forall sight :: React(IN_BUILD, sight, Aborts) == IN_BUILD.(pc := AtFail)
  {}

  /** Then the first one raises and cleans up. */
  lemma StaleCleanUp(s: System, now: Time, r: JobRecord) returns (s': System)
    requires Reached(s) && With(s, 0, TOKEN, FIRST_ROOT, IN_BUILD, now, r)
    ensures Reached(s') && s'.ledger == s.ledger && s'.completedBy == s.completedBy && Branch(JOB) !in s'.host.branches
    ensures Others(s, s', 0)
  {
    var p := IN_BUILD.(pc := AtFail);
    ReturnPath();
    var s1 := DidQuietly(s, 0, TOKEN, FIRST_ROOT, IN_BUILD, now, r, Aborts, p);
    var s2 := HandlerFails(s1, 0, TOKEN, FIRST_ROOT, p, now, r);
    s' := Cleaned(s2, 0, TOKEN, FIRST_ROOT, p.(pc := AtCleanup), now, r);
  }

  /** The reply was received, the worker that completed the job succeeded and kept
      the branch; and yet it is gone. */
  lemma StaleWorkerDeletesBranch() returns (s: System)
    ensures Reached(s) && Succeeds(s.ledger, JOB) && PrefixesDistinct(s.ledger) && JOB in s.completedBy
    ensures s.completedBy[JOB] in s.workers && s.workers[s.completedBy[JOB]].at.success
    ensures s.workers[s.completedBy[JOB]].at.pc == Finished(false)
    ensures Branch(JOB) !in s.host.branches
  {
    var s0, r := SecondSucceeds();
    s := StaleCleanUp(s0, EXPIRY, r);
    OnePrefix(EXPIRY, r);
  }
}
