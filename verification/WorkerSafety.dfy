/** What holds of all workers together in every run: no branch without its claim,
    one candidate per job, one worker per evidence directory. */
module WorkerSafety {
  import opened Basics
  import opened LedgerTypes
  import opened LedgerSpec
  import opened LedgerInvariant
  import opened LedgerRuns
  import opened LedgerSplitCommit
  import opened LedgerClients
  import opened EngineeringWorker

  // ---- one worker ----

  predicate BeforeStart(pc: Pc) { pc.AtGate? || pc.AtRecordGate? || pc.AtStart? || pc.Gone? }

  predicate BeforeSetup(pc: Pc) {
    pc.AtGate? || pc.AtRecordGate? || pc.AtStart? || pc.AtHeartbeat? || pc.AtSetup?
  }

  predicate BeforeSwitch(pc: Pc) { BeforeSetup(pc) || pc.AtWorktree? || pc.AtBuild? || pc.AtBegin? || pc.AtSwitch? }

  predicate WellFormed(p: Progress) {
    && (!p.started ==> BeforeStart(p.pc))
    && (!p.ownsDir ==> BeforeSetup(p.pc) || p.pc.Gone?)
    && (BeforeSetup(p.pc) ==> !p.ownsDir)
    && (BeforeSwitch(p.pc) ==> !p.made)
    && (InEffect(p.pc) ==> p.effectStarted)
    && (p.effectStarted || p.ownsDir || p.worktreeAdded ==> p.started)
    && (p.worktreeAdded || p.effectStarted ==> p.ownsDir)
    && (p.made ==> p.effectStarted)
    && (p.branchCreated ==> p.made)
    && (InEffect(p.pc) && !p.pc.AtSwitch? ==> p.branchCreated)
    && (p.pc.AtReturn? ==> p.success)
    && (p.success ==> p.branchCreated && (p.pc.AtReturn? || p.pc.AtFail? || p.pc.AtCleanup? || Ended(p.pc)))
    && (p.pc.Finished? && p.pc.deleted ==> p.worktreeAdded && !p.success)
    && (p.pc.AtCommitEffect? || p.pc.AwaitCommit? || p.pc.AtComplete? ==> p.candidate == Some(p.pc.head))
  }

  predicate Backed(s: State, w: Worker) {
    && (w.at.started ==> w.job in s.recs && Spent(s.recs[w.job], w.token))
    && (w.at.effectStarted ==> HoldsClaim(s, w.job, w.token, CandidateKey(w.job)))
  }

  /** A later state of the same process. */
  predicate Continues(p: Progress, p': Progress) {
    && (p.started ==> p'.started) && (p.effectStarted ==> p'.effectStarted) && (p.ownsDir ==> p'.ownsDir)
    && (p.made ==> p'.made) && (p.pc.Finished? ==> p'.pc == p.pc) && WellFormed(p')
  }

  /** The process has left the effect, for good or ill. */
  predicate Over(pc: Pc) { pc.AtReturn? || pc.AtFail? || pc.AtCleanup? || Ended(pc) }

  lemma ExceptedContinues(p: Progress)
    requires WellFormed(p)
    ensures Continues(p, Excepted(p)) && Excepted(p) == p.(pc := Excepted(p).pc)
    ensures Excepted(p).pc.Finished? ==> p.pc.Finished?
    ensures !InTry(Excepted(p).pc) && (Over(p.pc) || InTry(p.pc) ==> Over(Excepted(p).pc))
  {}

  lemma CrashContinues(p: Progress)
    requires WellFormed(p)
    ensures Continues(p, Crashed(p)) && Crashed(p) == p.(pc := Crashed(p).pc)
    ensures Crashed(p).pc.Finished? ==> p.pc.Finished?
  {}

  predicate SameCalls(p: Progress, p': Progress) { p'.started == p.started && p'.effectStarted == p.effectStarted }

  /** How a worker moves on by itself: it finishes by its clean-up only, goes from
      the switch to the commit to its claim in this order, and never leaves the end. */
  predicate Goes(p: Progress, p': Progress, input: Input) {
    && (p'.pc.Finished? && !p.pc.Finished? ==> p'.pc == Finished(Deletes(p, input)))
    && (p'.pc.AtSwitch? || p'.pc.AwaitCommit? || p'.pc.AtComplete? ==> p'.pc == p.pc)
    && (p'.pc.AtCommit? ==> p.pc.AtCommit? || p.pc.AtSwitch?)
    && (p'.pc.AtCommitEffect? ==> p'.pc == p.pc || p.pc.AtCommit?)
    && (Over(p.pc) ==> Over(p'.pc)) && (p.pc.AtCommit? || p'.candidate == p.candidate)
  }

  /** What every step of a worker does, but for what it makes. */
  predicate Steps(p: Progress, p': Progress, input: Input) {
    Continues(p, p') && SameCalls(p, p') && Goes(p, p', input) && (p.branchCreated ==> p'.branchCreated)
  }

  lemma AbortIsException(p: Progress, sight: Sight)
    ensures React(p, sight, Aborts) == Excepted(p)
  {}

  lemma AbortContinues(p: Progress, sight: Sight, input: Input)
    requires WellFormed(p) && input.Aborts?
    ensures var p' := React(p, sight, input); Steps(p, p', input) && p'.made == p.made && p'.ownsDir == p.ownsDir
  {
    AbortIsException(p, sight);
    ExceptedContinues(p);
  }

  lemma SetupContinues(p: Progress, sight: Sight, input: Input)
    requires WellFormed(p) && (input.SetupDone? || input.WorktreeIsAdded?)
    ensures var p' := React(p, sight, input);
            Steps(p, p', input) && p'.made == p.made && p'.ownsDir == (p.ownsDir || MakesDir(p, sight, input))
  {
    ExceptedContinues(p);
  }

  lemma SwitchContinues(p: Progress, sight: Sight, input: Input)
    requires WellFormed(p) && input.Switched?
    ensures var p' := React(p, sight, input);
            Steps(p, p', input) && p'.made == (p.made || Creates(p, sight, input)) && p'.ownsDir == p.ownsDir
  {}

  lemma CleanContinues(p: Progress, sight: Sight, input: Input)
    requires WellFormed(p) && input.CleansUp?
    ensures var p' := React(p, sight, input); Steps(p, p', input) && p'.made == p.made && p'.ownsDir == p.ownsDir
  {}

  lemma CommitContinues(p: Progress, sight: Sight, input: Input)
    requires WellFormed(p) && input.CommitIsMade?
    ensures var p' := React(p, sight, input); Steps(p, p', input) && p'.made == p.made && p'.ownsDir == p.ownsDir
  {}

  lemma AdvanceContinues(p: Progress, sight: Sight, input: Input)
    requires WellFormed(p) && (input.GateAnswers? || input.PatchIsTested? || input.Returns?)
    ensures var p' := React(p, sight, input); Steps(p, p', input) && p'.made == p.made && p'.ownsDir == p.ownsDir
  {}

  lemma ReactContinues(p: Progress, sight: Sight, input: Input)
    requires WellFormed(p)
    ensures var p' := React(p, sight, input);
            && Steps(p, p', input) && p'.made == (p.made || Creates(p, sight, input))
            && p'.ownsDir == (p.ownsDir || MakesDir(p, sight, input))
  {
    match input
    case Aborts => AbortContinues(p, sight, input);
    case SetupDone => SetupContinues(p, sight, input);
    case WorktreeIsAdded => SetupContinues(p, sight, input);
    case Switched(_, _) => SwitchContinues(p, sight, input);
    case CleansUp(_, _) => CleanContinues(p, sight, input);
    case CommitIsMade(_) => CommitContinues(p, sight, input);
    case _ => AdvanceContinues(p, sight, input);
  }

  /** How a reply moves a worker on. */
  predicate Turns(p: Progress, p': Progress, reply: Reply) {
    && (p'.pc.AtSwitch? ==> p.pc.AtBegin? && reply == EffectIs(EffectStarted))
    && (p'.pc.AtComplete? ==> p.pc.AtCommitEffect? && reply == CommitOk && p'.pc.head == p.pc.head)
    && !p'.pc.AtCommit? && !p'.pc.AtCommitEffect? && !p'.pc.AwaitCommit?
    && (Over(p.pc) ==> Over(p'.pc)) && p'.branchCreated == p.branchCreated
    && p'.candidate == p.candidate && (p.pc.AtComplete? ==> Over(p'.pc))
  }

  lemma RepliedTurns(p: Progress, reply: Reply)
    requires WellFormed(p) && !p.pc.AwaitCommit?
    ensures Turns(p, Replied(p, reply), reply)
  {
    ExceptedContinues(p);
  }

  lemma RepliedContinues(p: Progress, reply: Reply)
    requires WellFormed(p)
    ensures var p' := Replied(p, reply);
            && Continues(p, p') && (p'.started && !p.started ==> p.pc.AtStart? && reply == StartOk)
            && (p'.effectStarted && !p.effectStarted ==> p.pc.AtBegin? && reply == EffectIs(EffectStarted))
            && p'.made == p.made && p'.ownsDir == p.ownsDir && (p'.pc.Finished? ==> p.pc.Finished?)
  {
    ExceptedContinues(p);
  }

  lemma AfterTurns(p: Progress, delivery: Delivery, reply: Reply)
    requires WellFormed(p) && !p.pc.AwaitCommit?
    ensures Turns(p, After(p, delivery, reply), reply)
  {
    RepliedTurns(p, reply);
    ExceptedContinues(p);
  }

  // ---- all workers: the ledger ----

  ghost predicate AllBacked(s: System) {
    forall id :: id in s.workers ==> WellFormed(s.workers[id].at) && Backed(s.ledger, s.workers[id])
  }

  ghost predicate OneStarted(s: System) {
    forall a, b :: a in s.workers && b in s.workers && a != b && s.workers[a].at.started && s.workers[b].at.started
      ==> !(s.workers[a].job == s.workers[b].job && s.workers[a].token == s.workers[b].token)
  }

  ghost predicate CallsOk(s: System) {
    Safe(s.ledger) && AllBacked(s) && OneStarted(s)
  }

  lemma LedgerWorks(s: System, ledger: State)
    requires CallsOk(s) && Moves(s.ledger, ledger)
    ensures CallsOk(s.(ledger := ledger))
  {
    forall id | id in s.workers ensures Backed(ledger, s.workers[id]) {
      var w := s.workers[id];
      if w.at.effectStarted { ClaimStable(s.ledger, ledger, w.job, w.token, CandidateKey(w.job)); }
    }
  }

  /** Only one process can start with a given token. */
  ghost predicate MayStart(s: System, id: nat, p: Progress)
    requires id in s.workers
  {
    p.started && !s.workers[id].at.started ==>
      forall b :: b in s.workers && b != id && s.workers[b].at.started ==>
        !(s.workers[b].job == s.workers[id].job && s.workers[b].token == s.workers[id].token)
  }

  lemma WorkerWorks(s: System, id: nat, p: Progress)
    requires CallsOk(s) && id in s.workers && Continues(s.workers[id].at, p)
    requires Backed(s.ledger, s.workers[id].(at := p)) && MayStart(s, id, p)
    ensures CallsOk(Set(s, id, p))
  {}

  /** A worker moves on without a reply from the ledger. */
  lemma QuietlyWorks(s: System, id: nat, p: Progress)
    requires CallsOk(s) && id in s.workers && Continues(s.workers[id].at, p) && SameCalls(s.workers[id].at, p)
    ensures CallsOk(Set(s, id, p))
  {
    WorkerWorks(s, id, p);
  }

  // ---- calls ----

  lemma InvokeWorks(s: State, j: JobId, t: Token, q: WorkerCall)
    requires Safe(s)
    ensures Moves(s, WorkerInvoke(s, j, t, q).0)
  {
    if Wrapped(j, q).None? {
      AllEvolveReflexive(s);
    } else {
      InvokeMoves(s, j, t, Wrapped(j, q).value);
    }
  }

  lemma StartIsInvoke(s: State, j: JobId, t: Token)
    ensures WorkerInvoke(s, j, t, StartCall) == InvokeAnswer(s, j, t, Start(WORKER_ACTOR))
  {}

  lemma StartReply(s: State, j: JobId, t: Token)
    requires Safe(s) && WorkerInvoke(s, j, t, StartCall).1 == StartOk
    ensures j in s.recs && !Spent(s.recs[j], t)
    ensures var s' := WorkerInvoke(s, j, t, StartCall).0; j in s'.recs && Spent(s'.recs[j], t)
  {
    StartIsInvoke(s, j, t);
    StartSpends(s, j, t, WORKER_ACTOR);
  }

  lemma BeginIsInvoke(s: State, j: JobId, t: Token)
    ensures WorkerInvoke(s, j, t, BeginCall) == InvokeAnswer(s, j, t, BeginEffect(CandidateKey(j), WORKER_ACTOR))
  {}

  lemma BeginReply(s: State, j: JobId, t: Token)
    requires Safe(s) && WorkerInvoke(s, j, t, BeginCall).1.EffectIs?
    ensures HoldsClaim(WorkerInvoke(s, j, t, BeginCall).0, j, t, CandidateKey(j))
  {
    BeginIsInvoke(s, j, t);
    BeginClaims(s, j, t, CandidateKey(j), WORKER_ACTOR);
  }

  lemma BackedContinues(s: State, s': State, w: Worker, p: Progress)
    requires Moves(s, s') && Backed(s, w)
    requires p.started && !w.at.started ==> w.job in s'.recs && Spent(s'.recs[w.job], w.token)
    requires p.effectStarted && !w.at.effectStarted ==> HoldsClaim(s', w.job, w.token, CandidateKey(w.job))
    ensures Backed(s', w.(at := p))
  {
    if w.at.effectStarted { ClaimStable(s, s', w.job, w.token, CandidateKey(w.job)); }
  }

  /** What a worker knows once the reply to its call is in: one that has just
      started has spent its token, one that has just begun its effect holds the claim. */
  predicate Learns(s: State, w: Worker, ledger: State, reply: Reply) {
    && (w.at.pc.AtStart? && reply == StartOk ==>
          w.job in s.recs && !Spent(s.recs[w.job], w.token) && w.job in ledger.recs
              && Spent(ledger.recs[w.job], w.token))
    && (w.at.pc.AtBegin? && reply == EffectIs(EffectStarted) ==>
          HoldsClaim(ledger, w.job, w.token, CandidateKey(w.job)))
  }

  lemma StartTeaches(s: State, w: Worker)
    requires Safe(s) && w.at.pc.AtStart?
    ensures var (ledger, reply) := WorkerInvoke(s, w.job, w.token, StartCall); Learns(s, w, ledger, reply)
  {
    if WorkerInvoke(s, w.job, w.token, StartCall).1 == StartOk { StartReply(s, w.job, w.token); }
  }

  lemma BeginTeaches(s: State, w: Worker)
    requires Safe(s) && w.at.pc.AtBegin?
    ensures var (ledger, reply) := WorkerInvoke(s, w.job, w.token, BeginCall); Learns(s, w, ledger, reply)
  {
    if WorkerInvoke(s, w.job, w.token, BeginCall).1.EffectIs? { BeginReply(s, w.job, w.token); }
  }

  lemma CallTeaches(s: State, w: Worker)
    requires Safe(s) && NextCall(w).Some?
    ensures var (ledger, reply) := WorkerInvoke(s, w.job, w.token, NextCall(w).value); Learns(s, w, ledger, reply)
  {
    if w.at.pc.AtStart? {
      assert NextCall(w) == Some(StartCall);
      StartTeaches(s, w);
    } else if w.at.pc.AtBegin? {
      assert NextCall(w) == Some(BeginCall);
      BeginTeaches(s, w);
    } else {
      OthersLearnNothing(s, w, WorkerInvoke(s, w.job, w.token, NextCall(w).value));
    }
  }

  lemma OthersLearnNothing(s: State, w: Worker, answer: (State, Reply))
    requires !w.at.pc.AtStart? && !w.at.pc.AtBegin?
    ensures Learns(s, w, answer.0, answer.1)
  {}

  lemma RepliedBacked(s: State, w: Worker, ledger: State, reply: Reply)
    requires WellFormed(w.at) && Backed(s, w) && Moves(s, ledger) && Learns(s, w, ledger, reply)
    ensures Backed(ledger, w.(at := Replied(w.at, reply)))
    ensures Replied(w.at, reply).started && !w.at.started ==> w.job in s.recs && !Spent(s.recs[w.job], w.token)
  {
    RepliedContinues(w.at, reply);
    BackedContinues(s, ledger, w, Replied(w.at, reply));
  }

  lemma RepliedWorks(s: System, id: nat, ledger: State, reply: Reply)
    requires CallsOk(s) && id in s.workers && Moves(s.ledger, ledger) && Learns(s.ledger, s.workers[id], ledger, reply)
    ensures CallsOk(Set(s.(ledger := ledger), id, Replied(s.workers[id].at, reply)))
  {
    var w := s.workers[id];
    LedgerWorks(s, ledger);
    RepliedBacked(s.ledger, w, ledger, reply);
    RepliedContinues(w.at, reply);
    WorkerWorks(s.(ledger := ledger), id, Replied(w.at, reply));
  }

  lemma LostWorks(s: System, id: nat, ledger: State)
    requires CallsOk(s) && id in s.workers && Moves(s.ledger, ledger)
    ensures CallsOk(Set(s.(ledger := ledger), id, Excepted(s.workers[id].at)))
  {
    LedgerWorks(s, ledger);
    ExceptedContinues(s.workers[id].at);
    QuietlyWorks(s.(ledger := ledger), id, Excepted(s.workers[id].at));
  }

  lemma SentWorks(s: System, id: nat, delivery: Delivery, ledger: State, reply: Reply)
    requires CallsOk(s) && id in s.workers && Moves(s.ledger, ledger) && Learns(s.ledger, s.workers[id], ledger, reply)
    ensures CallsOk(Sent(s, id, delivery, ledger, reply))
  {
    if delivery.Delivered? { RepliedWorks(s, id, ledger, reply); } else { LostWorks(s, id, ledger); }
  }

  lemma CallWorks(s: System, id: nat, delivery: Delivery)
    requires CallsOk(s) && id in s.workers
    ensures CallsOk(CallStep(s, id, delivery))
  {
    var w := s.workers[id];
    if NextCall(w).Some? {
      if delivery.NotSent? {
        ExceptedContinues(w.at);
        QuietlyWorks(s, id, Excepted(w.at));
      } else {
        var (ledger, reply) := WorkerInvoke(s.ledger, w.job, w.token, NextCall(w).value);
        InvokeWorks(s.ledger, w.job, w.token, NextCall(w).value);
        CallTeaches(s.ledger, w);
        SentWorks(s, id, delivery, ledger, reply);
      }
    }
  }

  lemma CheckWorks(s: System, id: nat)
    requires CallsOk(s) && id in s.workers
    ensures CallsOk(CheckStep(s, id))
  {
    var w := s.workers[id];
    if w.at.pc.AtCommitEffect? {
      ExceptedContinues(w.at);
      QuietlyWorks(s, id, Excepted(w.at));
      QuietlyWorks(s.(commits := CheckStep(s, id).commits), id, w.at.(pc := AwaitCommit(w.at.pc.head)));
    }
  }

  lemma ToldContinues(p: Progress, delivered: bool, reply: Reply)
    requires WellFormed(p)
    ensures Continues(p, Told(p, delivered, reply)) && SameCalls(p, Told(p, delivered, reply))
    ensures SameMarks(p, Told(p, delivered, reply)) && (Over(p.pc) ==> Over(Told(p, delivered, reply).pc))
  {
    ExceptedContinues(p);
  }

  lemma FinishWorks(s: System, id: nat, delivered: bool)
    requires CallsOk(s)
    ensures CallsOk(FinishStep(s, id, delivered))
  {
    if id in s.commits {
      var ledger := Finish(s.ledger, s.commits[id]);
      var s1 := s.(ledger := ledger, commits := s.commits - {id});
      FinishMoves(s.ledger, s.commits[id]);
      LedgerWorks(s, ledger);
      assert CallsOk(s1);
      if id in s.workers {
        ToldContinues(s.workers[id].at, delivered, CommitReply(s.ledger, s.commits[id]));
        QuietlyWorks(s1, id, Told(s.workers[id].at, delivered, CommitReply(s.ledger, s.commits[id])));
      }
    }
  }

  lemma LocalWorks(s: System, id: nat, input: Input)
    requires CallsOk(s) && id in s.workers
    ensures CallsOk(LocalStep(s, id, input))
  {
    var w := s.workers[id];
    ReactContinues(w.at, See(w, s.host), input);
    QuietlyWorks(s, id, React(w.at, See(w, s.host), input));
  }

  lemma EnvironmentWorks(s: System, op: Op)
    requires CallsOk(s)
    ensures CallsOk(s.(ledger := Apply(s.ledger, op)))
  {
    ApplyMoves(s.ledger, op);
    LedgerWorks(s, Apply(s.ledger, op));
  }

  lemma LateCommitWorks(s: System, p: Pending)
    requires CallsOk(s)
    ensures CallsOk(s.(ledger := Finish(s.ledger, p)))
  {
    FinishMoves(s.ledger, p);
    LedgerWorks(s, Finish(s.ledger, p));
  }

  lemma SpawnBacked(s: System, id: nat, w: Worker)
    requires AllBacked(s) && id !in s.workers && WellFormed(w.at) && !w.at.started
    ensures AllBacked(s.(workers := s.workers[id := w]))
  {}

  lemma SpawnWorks(s: System, id: nat, w: Worker)
    requires CallsOk(s) && id !in s.workers && WellFormed(w.at) && !w.at.started
    ensures CallsOk(s.(workers := s.workers[id := w]))
  {
    SpawnBacked(s, id, w);
    assert OneStarted(s.(workers := s.workers[id := w]));
  }

  lemma CrashWorks(s: System, id: nat)
    requires CallsOk(s) && id in s.workers
    ensures CallsOk(Set(s, id, Crashed(s.workers[id].at)))
  {
    CrashContinues(s.workers[id].at);
    QuietlyWorks(s, id, Crashed(s.workers[id].at));
  }

  lemma NextWorks(s: System, step: Step)
    requires CallsOk(s)
    ensures CallsOk(Next(s, step))
  {
    match step
    case Environment(op) => EnvironmentWorks(s, op);
    case LateCommit(p) => LateCommitWorks(s, p);
    case Spawn(id, j, t, config) => if id !in s.workers { SpawnWorks(s, id, Fresh(j, t, config)); }
    case Locally(id, input) => if id in s.workers { LocalWorks(s, id, input); }
    case Calls(id, delivery) => if id in s.workers { CallWorks(s, id, delivery); }
    case ChecksCommit(id) => if id in s.workers { CheckWorks(s, id); }
    case FinishesCommit(id, delivered) => FinishWorks(s, id, delivered);
    case Crash(id) => if id in s.workers { CrashWorks(s, id); }
  }

  // ---- all workers: the machine ----

  predicate MadeBy(s: System, id: nat, b: string) {
    id in s.workers && s.workers[id].at.made && Branch(s.workers[id].job) == b
  }

  ghost predicate BranchesOk(s: System, initial: set<string>) {
    forall b :: b in s.host.branches && b !in initial ==> exists id :: MadeBy(s, id, b)
  }

  /** An evidence directory is made once, and stays. */
  ghost predicate DirsOk(s: System) {
    && (forall id :: id in s.workers && s.workers[id].at.ownsDir ==> EvidenceDir(s.workers[id]) in s.host.evidence)
    && (forall a, b :: a in s.workers && b in s.workers && a != b && s.workers[a].at.ownsDir && s.workers[b].at.ownsDir
          ==> EvidenceDir(s.workers[a]) != EvidenceDir(s.workers[b]))
  }

  predicate LoggedAfter(cleanups: seq<nat>, n: nat, id: nat) {
    exists i :: n <= i < |cleanups| && cleanups[i] == id
  }

  predicate HasDeleted(p: Progress) { p.pc.Finished? && p.pc.deleted }

  ghost predicate HistoryOk(s: System) {
    && (forall id :: id in s.madeAt <==> id in s.workers && s.workers[id].at.made)
    && (forall id :: id in s.madeAt ==> s.madeAt[id] <= |s.cleanups|)
    && (forall i :: 0 <= i < |s.cleanups| ==> s.cleanups[i] in s.workers && HasDeleted(s.workers[s.cleanups[i]].at))
    && (forall id :: id in s.madeAt && HasDeleted(s.workers[id].at) ==> LoggedAfter(s.cleanups, s.madeAt[id], id))
  }

  ghost predicate MachineOk(s: System, initial: set<string>) {
    BranchesOk(s, initial) && DirsOk(s) && HistoryOk(s)
  }

  /** Moving on without touching the machine. */
  predicate SameMarks(p: Progress, p': Progress) {
    && p'.made == p.made && p'.ownsDir == p.ownsDir && (p.pc.Finished? ==> p'.pc == p.pc)
    && (p'.pc.Finished? ==> p.pc.Finished?)
  }

  lemma BranchesQuiet(s: System, initial: set<string>, id: nat, p: Progress)
    requires BranchesOk(s, initial) && id in s.workers && SameMarks(s.workers[id].at, p)
    ensures BranchesOk(Set(s, id, p), initial)
  {
    forall b | b in s.host.branches && b !in initial ensures exists a :: MadeBy(Set(s, id, p), a, b) {
      var a :| MadeBy(s, a, b);
      assert MadeBy(Set(s, id, p), a, b);
    }
  }

  lemma DirsQuiet(s: System, id: nat, p: Progress)
    requires DirsOk(s) && id in s.workers && SameMarks(s.workers[id].at, p)
    ensures DirsOk(Set(s, id, p))
  {}

  lemma HistoryQuiet(s: System, id: nat, p: Progress)
    requires HistoryOk(s) && id in s.workers && SameMarks(s.workers[id].at, p)
    ensures HistoryOk(Set(s, id, p))
  {}

  lemma QuietlyKeeps(s: System, initial: set<string>, id: nat, p: Progress)
    requires MachineOk(s, initial) && id in s.workers && SameMarks(s.workers[id].at, p)
    ensures MachineOk(Set(s, id, p), initial)
  {
    BranchesQuiet(s, initial, id, p);
    DirsQuiet(s, id, p);
    HistoryQuiet(s, id, p);
  }

  lemma BranchesKept(s: System, initial: set<string>, id: nat, input: Input)
    requires BranchesOk(s, initial) && id in s.workers && WellFormed(s.workers[id].at)
    ensures BranchesOk(LocalStep(s, id, input), initial)
  {
    var w, sight := s.workers[id], See(s.workers[id], s.host);
    var s' := LocalStep(s, id, input);
    ReactContinues(w.at, sight, input);
    forall b | b in s'.host.branches && b !in initial ensures exists a :: MadeBy(s', a, b) {
      if b in s.host.branches {
        var a :| MadeBy(s, a, b);
        assert MadeBy(s', a, b);
      } else {
        assert MadeBy(s', id, b);
      }
    }
  }

  lemma DirsKept(s: System, id: nat, input: Input)
    requires DirsOk(s) && id in s.workers && WellFormed(s.workers[id].at)
    ensures DirsOk(LocalStep(s, id, input))
  {
    ReactContinues(s.workers[id].at, See(s.workers[id], s.host), input);
  }

  lemma LoggedOn(cleanups: seq<nat>, more: nat, n: nat, id: nat)
    requires LoggedAfter(cleanups, n, id)
    ensures LoggedAfter(cleanups + [more], n, id)
  {
    var i :| n <= i < |cleanups| && cleanups[i] == id;
    assert (cleanups + [more])[i] == id;
  }

  /** A worker that deletes has not deleted before, so its entry is the last one. */
  lemma DeletionLogged(s: System, id: nat, p: Progress)
    requires HistoryOk(s) && id in s.workers && HasDeleted(p) && p.made == s.workers[id].at.made
    ensures HistoryOk(Set(s.(cleanups := s.cleanups + [id]), id, p))
  {
    var s' := Set(s.(cleanups := s.cleanups + [id]), id, p);
    assert s'.cleanups[|s.cleanups|] == id;
    forall a | a in s'.madeAt && HasDeleted(s'.workers[a].at) ensures LoggedAfter(s'.cleanups, s'.madeAt[a], a) {
      if a != id { LoggedOn(s.cleanups, id, s.madeAt[a], a); }
    }
  }

  lemma CreationLogged(s: System, id: nat, p: Progress)
    requires HistoryOk(s) && id in s.workers && !s.workers[id].at.made && p.made
    requires !p.pc.Finished? && !s.workers[id].at.pc.Finished?
    ensures HistoryOk(Set(s.(madeAt := s.madeAt[id := |s.cleanups|]), id, p))
  {}

  lemma HistoryKept(s: System, id: nat, input: Input)
    requires HistoryOk(s) && id in s.workers && WellFormed(s.workers[id].at)
    ensures HistoryOk(LocalStep(s, id, input))
  {
    var p, sight := s.workers[id].at, See(s.workers[id], s.host);
    var p' := React(p, sight, input);
    ReactContinues(p, sight, input);
    var s1 := s.(host := Touch(s.workers[id], s.host, input));
    if Deletes(p, input) {
      DeletionLogged(s1, id, p');
    } else if Creates(p, sight, input) {
      CreationLogged(s1, id, p');
    } else {
      UnloggedKept(s1, id, p');
    }
  }

  lemma UnloggedKept(s: System, id: nat, p: Progress)
    requires HistoryOk(s) && id in s.workers && p.made == s.workers[id].at.made
    requires if s.workers[id].at.pc.Finished? then p.pc == s.workers[id].at.pc else !HasDeleted(p)
    ensures HistoryOk(Set(s, id, p))
  {}

  lemma LocalKeeps(s: System, initial: set<string>, id: nat, input: Input)
    requires MachineOk(s, initial) && id in s.workers && WellFormed(s.workers[id].at)
    ensures MachineOk(LocalStep(s, id, input), initial)
  {
    BranchesKept(s, initial, id, input);
    DirsKept(s, id, input);
    HistoryKept(s, id, input);
  }

  lemma CallKeeps(s: System, initial: set<string>, id: nat, delivery: Delivery)
    requires MachineOk(s, initial) && id in s.workers && WellFormed(s.workers[id].at)
    ensures MachineOk(CallStep(s, id, delivery), initial)
  {
    var w := s.workers[id];
    ExceptedContinues(w.at);
    if NextCall(w).Some? {
      if delivery.NotSent? {
        QuietlyKeeps(s, initial, id, Excepted(w.at));
      } else {
        var (ledger, reply) := WorkerInvoke(s.ledger, w.job, w.token, NextCall(w).value);
        SentKeeps(s, initial, id, delivery, ledger, reply);
      }
    }
  }

  lemma SentKeeps(s: System, initial: set<string>, id: nat, delivery: Delivery, ledger: State, reply: Reply)
    requires MachineOk(s, initial) && id in s.workers && WellFormed(s.workers[id].at)
    ensures MachineOk(Sent(s, id, delivery, ledger, reply), initial)
  {
    ExceptedContinues(s.workers[id].at);
    RepliedContinues(s.workers[id].at, reply);
    var completedBy := if reply == CompleteOk then s.completedBy[s.workers[id].job := id] else s.completedBy;
    LedgerKeeps(s, initial, ledger, s.commits, completedBy);
    QuietlyKeeps(s.(ledger := ledger, completedBy := completedBy), initial, id,
                 After(s.workers[id].at, delivery, reply));
  }

  lemma BranchesSpawn(s: System, initial: set<string>, id: nat, w: Worker)
    requires BranchesOk(s, initial) && id !in s.workers
    ensures BranchesOk(s.(workers := s.workers[id := w]), initial)
  {
    var s' := s.(workers := s.workers[id := w]);
    forall b | b in s.host.branches && b !in initial ensures exists a :: MadeBy(s', a, b) {
      var a :| MadeBy(s, a, b);
      assert MadeBy(s', a, b);
    }
  }

  lemma DirsSpawn(s: System, id: nat, w: Worker)
    requires DirsOk(s) && id !in s.workers && !w.at.ownsDir
    ensures DirsOk(s.(workers := s.workers[id := w]))
  {}

  lemma HistorySpawn(s: System, id: nat, w: Worker)
    requires HistoryOk(s) && id !in s.workers && !w.at.made
    ensures HistoryOk(s.(workers := s.workers[id := w]))
  {}

  lemma SpawnKeeps(s: System, initial: set<string>, id: nat, w: Worker)
    requires MachineOk(s, initial) && id !in s.workers && !w.at.made && !w.at.ownsDir
    ensures MachineOk(s.(workers := s.workers[id := w]), initial)
  {
    BranchesSpawn(s, initial, id, w);
    DirsSpawn(s, id, w);
    HistorySpawn(s, id, w);
  }

  lemma CrashKeeps(s: System, initial: set<string>, id: nat)
    requires MachineOk(s, initial) && id in s.workers && WellFormed(s.workers[id].at)
    ensures MachineOk(Set(s, id, Crashed(s.workers[id].at)), initial)
  {
    CrashContinues(s.workers[id].at);
    QuietlyKeeps(s, initial, id, Crashed(s.workers[id].at));
  }

  lemma CheckKeeps(s: System, initial: set<string>, id: nat)
    requires MachineOk(s, initial) && id in s.workers && WellFormed(s.workers[id].at)
    ensures MachineOk(CheckStep(s, id), initial)
  {
    var w := s.workers[id];
    if w.at.pc.AtCommitEffect? {
      ExceptedContinues(w.at);
      QuietlyKeeps(s, initial, id, Excepted(w.at));
      var s1 := s.(commits := CheckStep(s, id).commits);
      LedgerKeeps(s, initial, s.ledger, s1.commits, s.completedBy);
      QuietlyKeeps(s1, initial, id, w.at.(pc := AwaitCommit(w.at.pc.head)));
    }
  }

  lemma FinishKeeps(s: System, initial: set<string>, id: nat, delivered: bool)
    requires MachineOk(s, initial) && AllBacked(s)
    ensures MachineOk(FinishStep(s, id, delivered), initial)
  {
    if id in s.commits {
      var ledger, commits := Finish(s.ledger, s.commits[id]), s.commits - {id};
      LedgerKeeps(s, initial, ledger, commits, s.completedBy);
      if id in s.workers {
        ToldContinues(s.workers[id].at, delivered, CommitReply(s.ledger, s.commits[id]));
        QuietlyKeeps(s.(ledger := ledger, commits := commits), initial, id,
                     Told(s.workers[id].at, delivered, CommitReply(s.ledger, s.commits[id])));
      }
    }
  }

  lemma NextKeeps(s: System, initial: set<string>, step: Step)
    requires MachineOk(s, initial) && AllBacked(s)
    ensures MachineOk(Next(s, step), initial)
  {
    match step
    case Environment(op) => LedgerKeeps(s, initial, Apply(s.ledger, op), s.commits, s.completedBy);
    case LateCommit(p) => LedgerKeeps(s, initial, Finish(s.ledger, p), s.commits, s.completedBy);
    case Spawn(id, j, t, config) => if id !in s.workers { SpawnKeeps(s, initial, id, Fresh(j, t, config)); }
    case Locally(id, input) => if id in s.workers { LocalKeeps(s, initial, id, input); }
    case Calls(id, delivery) => if id in s.workers { CallKeeps(s, initial, id, delivery); }
    case ChecksCommit(id) => if id in s.workers { CheckKeeps(s, initial, id); }
    case FinishesCommit(id, delivered) => FinishKeeps(s, initial, id, delivered);
    case Crash(id) => if id in s.workers { CrashKeeps(s, initial, id); }
  }

  lemma LedgerKeeps(s: System, initial: set<string>, ledger: State, commits: map<nat, Pending>,
                    completedBy: map<JobId, nat>)
    requires MachineOk(s, initial)
    ensures MachineOk(s.(ledger := ledger, commits := commits, completedBy := completedBy), initial)
  {
    var s' := s.(ledger := ledger, commits := commits, completedBy := completedBy);
    forall b | b in s.host.branches && b !in initial ensures exists a :: MadeBy(s', a, b) {
      var a :| MadeBy(s, a, b);
      assert MadeBy(s', a, b);
    }
  }

  lemma {:induction false} ExecuteWorks(s: System, initial: set<string>, steps: seq<Step>)
    requires CallsOk(s) && MachineOk(s, initial)
    ensures CallsOk(Execute(s, steps)) && MachineOk(Execute(s, steps), initial)
    decreases |steps|
  {
    if |steps| > 0 {
      NextWorks(s, steps[0]);
      NextKeeps(s, initial, steps[0]);
      ExecuteWorks(Next(s, steps[0]), initial, steps[1..]);
    }
  }

  // ---- crash safety ----

  /** The 12-digit prefixes of the jobs in the ledger are distinct. */
  ghost predicate PrefixesDistinct(s: State) {
    forall i, j :: i in s.recs && j in s.recs && Short(i) == Short(j) ==> i == j
  }

  lemma BranchTellsShort(i: JobId, j: JobId)
    requires Branch(i) == Branch(j)
    ensures Short(i) == Short(j)
  {
    assert Short(i) == Branch(i)[8..] && Short(j) == Branch(j)[8..];
  }

  /** In every state of every run, with any crashes, a job's branch that was not
      there at the start was made by a worker whose own, allowed attempt holds
      the effect claim of that very job. */
  lemma BranchHasClaim(start: Time, host: Host, steps: seq<Step>, j: JobId)
    requires var s := Execute(Initial(start, host), steps);
             && PrefixesDistinct(s.ledger) && j in s.ledger.recs
             && Branch(j) in s.host.branches && Branch(j) !in host.branches
    ensures var s := Execute(Initial(start, host), steps);
            exists id :: MadeBy(s, id, Branch(j)) && s.workers[id].job == j
                         && HoldsClaim(s.ledger, j, s.workers[id].token, CandidateKey(j))
  {
    ExecuteWorks(Initial(start, host), host.branches, steps);
    var s := Execute(Initial(start, host), steps);
    var id :| MadeBy(s, id, Branch(j));
    assert WellFormed(s.workers[id].at) && Backed(s.ledger, s.workers[id]);
    BranchTellsShort(s.workers[id].job, j);
  }

  lemma OneCandidate(s: System, a: nat, b: nat)
    requires CallsOk(s) && a in s.workers && b in s.workers && s.workers[a].job == s.workers[b].job
    requires s.workers[a].at.effectStarted && s.workers[b].at.effectStarted
    ensures a == b
  {
    var v, w := s.workers[a], s.workers[b];
    assert WellFormed(v.at) && WellFormed(w.at) && Backed(s.ledger, v) && Backed(s.ledger, w);
    ClaimHasOneToken(s.ledger, v.job, v.token, w.token, CandidateKey(v.job));
  }

  /** At most one worker process ever passes the effect boundary of a job. */
  lemma OneCandidatePerJob(start: Time, host: Host, steps: seq<Step>, a: nat, b: nat)
    requires var s := Execute(Initial(start, host), steps);
             && a in s.workers && b in s.workers && s.workers[a].at.effectStarted && s.workers[b].at.effectStarted
             && s.workers[a].job == s.workers[b].job
    ensures a == b
  {
    ExecuteWorks(Initial(start, host), host.branches, steps);
    OneCandidate(Execute(Initial(start, host), steps), a, b);
  }
}
