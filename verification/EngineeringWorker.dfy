/** Engineering workers (B032): any number of them working against the ledger,
    one source repository and any work directories, with crashes, lost replies
    and the reaper. */
module EngineeringWorker {
  import opened Basics
  import opened LedgerTypes
  import opened LedgerSpec
  import opened LedgerInvariant
  import opened LedgerRuns
  import opened LedgerSplitCommit
  import opened LedgerClients

  const WORKER_ACTOR := "b032-engineering-worker"

  function CandidateKey(j: JobId): string { "b032:candidate-commit:" + j }

  function NoDashes(s: string): string {
    if |s| == 0 then "" else (if s[0] == '-' then "" else [s[0]]) + NoDashes(s[1..])
  }

  function Short(j: JobId): string { Left(NoDashes(j), 12) }

  function Branch(j: JobId): string { "fzh/job-" + Short(j) }

  lemma {:induction false} NoDashesKeeps(a: string, b: string)
    requires '-' !in a
    ensures NoDashes(a + b) == a + NoDashes(b)
  {
    if |a| == 0 {
      assert a + b == b;
    } else {
      assert (a + b)[1..] == a[1..] + b;
      NoDashesKeeps(a[1..], b);
    }
  }

  /** A job's branch is named after the first two groups of its uuid. */
  lemma BranchIsNamed(j: JobId)
    requires '-' !in j[..8] && j[8] == '-' && '-' !in j[9..13]
    ensures Branch(j) == "fzh/job-" + j[..8] + j[9..13]
  {
    NoDashesKeeps(j[..8], j[8..]);
    NoDashesKeeps(j[9..13], j[13..]);
    assert j == j[..8] + j[8..] && j[8..][1..] == j[9..13] + j[13..];
  }

  // ---- the b032_* wrappers ----

  datatype WorkerCall =
    | GateCall(decision: Decision, evidence: GateEvidence)
    | StartCall
    | HeartbeatCall(seconds: int)
    | BeginCall
    | CommitCall(head: string)
    | CompleteCall(result: Json)
    | FailCall(code: string, summary: string, retryable: bool, delaySeconds: int)

  /** The generic call a wrapper makes, or None when the wrapper itself raises. */
  function Wrapped(j: JobId, q: WorkerCall): Option<Call> {
    match q
    case GateCall(d, e) => Some(RecordGate(d, e, WORKER_ACTOR))
    case StartCall => Some(Start(WORKER_ACTOR))
    case HeartbeatCall(seconds) => Some(Heartbeat(seconds))
    case BeginCall => Some(BeginEffect(CandidateKey(j), WORKER_ACTOR))
    case CommitCall(head) =>
      if IsLowerHex(head, 40) then Some(CommitEffect(CandidateKey(j), Some(head), WORKER_ACTOR)) else None
    case CompleteCall(result) => Some(Complete(Some(result), WORKER_ACTOR))
    case FailCall(code, summary, retryable, delay) =>
      Some(Fail(Left(code, 128), Left(summary, 2048), retryable, delay, WORKER_ACTOR))
  }

  function WorkerInvoke(s: State, j: JobId, t: Token, q: WorkerCall): (State, Reply) {
    if Wrapped(j, q).None? then (s, Raised) else InvokeAnswer(s, j, t, Wrapped(j, q).value)
  }

  // ---- one worker ----

  /** Where a worker is. AtWorktree to AtReturn are the try block, AtFail its
      exception handler and AtCleanup its finally clause; `deleted`: the clean-up
      ran `git branch -D` and it took effect. */
  datatype Pc =
    | AtGate | AtRecordGate(decision: Decision, evidence: GateEvidence) | AtStart | AtHeartbeat | AtSetup
    | AtWorktree | AtBuild | AtBegin | AtSwitch | AtCommit | AtCommitEffect(head: string)
    | AwaitCommit(head: string) | AtComplete(head: string) | AtReturn
    | AtFail | AtCleanup | Finished(deleted: bool) | Gone

  datatype Config = Config(
    workspaceRoot: string, evidenceRoot: string, heartbeatSeconds: int, retryDelaySeconds: int)

  /** Where it is and the flags of main. History: `ownsDir`, it made the evidence
      directory; `made`, its switch created the branch; and `candidate`, the commit it made. */
  datatype Progress = Progress(
    pc: Pc, started: bool, ownsDir: bool, worktreeAdded: bool, effectStarted: bool, branchCreated: bool,
    success: bool, made: bool, candidate: Option<string>)

  /** The envelope and arguments of one process, and how far it got. */
  datatype Worker = Worker(job: JobId, token: Token, config: Config, at: Progress)

  function Fresh(j: JobId, t: Token, config: Config): Worker {
    Worker(j, t, config, Progress(AtGate, false, false, false, false, false, false, false, None))
  }

  /** From begin_effect to the end of the try block. */
  predicate InEffect(pc: Pc) {
    pc.AtSwitch? || pc.AtCommit? || pc.AtCommitEffect? || pc.AwaitCommit? || pc.AtComplete? || pc.AtReturn?
  }

  predicate InTry(pc: Pc) { pc.AtWorktree? || pc.AtBuild? || pc.AtBegin? || InEffect(pc) }

  predicate Ended(pc: Pc) { pc.Finished? || pc.Gone? }

  /** An exception. Before the try block, as for a failing heartbeat, the process
      just ends; in the handler it is swallowed, and clean-up ignores errors. */
  function Excepted(p: Progress): Progress {
    if InTry(p.pc) then p.(pc := AtFail)
    else if p.pc.AtFail? then p.(pc := AtCleanup)
    else if p.pc.AtCleanup? || p.pc.Finished? then p
    else p.(pc := Gone)
  }

  function CandidateResult(j: JobId, head: string): Json {
    map["branch" := Branch(j), "head_commit" := head, "promotion_authorized" := "false"]
  }

  function NextCall(w: Worker): Option<WorkerCall> {
    match w.at.pc
    case AtRecordGate(d, e) => Some(GateCall(d, e))
    case AtStart => Some(StartCall)
    case AtHeartbeat => Some(HeartbeatCall(w.config.heartbeatSeconds))
    case AtBegin => Some(BeginCall)
    case AtCommitEffect(head) => Some(CommitCall(head))
    case AtComplete(head) => Some(CompleteCall(CandidateResult(w.job, head)))
    case AtFail => Some(FailCall("b032_execution_failed", "", true, w.config.retryDelaySeconds))
    case _ => None
  }

  function Replied(p: Progress, reply: Reply): Progress {
    match p.pc
    case AtRecordGate(d, _) => if d == Allow && reply == GateStatus(Leased) then p.(pc := AtStart) else Excepted(p)
    case AtStart => if reply == StartOk then p.(started := true, pc := AtHeartbeat) else Excepted(p)
    case AtHeartbeat => if reply.LeaseUntil? then p.(pc := AtSetup) else Excepted(p)
    case AtBegin =>
      if reply == EffectIs(EffectStarted) then p.(effectStarted := true, pc := AtSwitch) else Excepted(p)
    case AtCommitEffect(head) => if reply == CommitOk then p.(pc := AtComplete(head)) else Excepted(p)
    case AwaitCommit(head) => if reply == CommitOk then p.(pc := AtComplete(head)) else Excepted(p)
    case AtComplete(_) => if reply == CompleteOk then p.(success := true, pc := AtReturn) else Excepted(p)
    case _ => Excepted(p)
  }

  // ---- the machine it works on ----

  /** Branches of the source repository, linked worktrees (by workspace root and
      directory name) and evidence directories (by evidence root and job). */
  datatype Host = Host(branches: set<string>, worktrees: set<(string, string)>, evidence: set<(string, JobId)>)

  function Worktree(w: Worker): (string, string) { (w.config.workspaceRoot, Short(w.job)) }

  function EvidenceDir(w: Worker): (string, JobId) { (w.config.evidenceRoot, w.job) }

  /** What a worker sees of it. */
  datatype Sight = Sight(evidenceExists: bool, worktreeExists: bool, branchExists: bool)

  function See(w: Worker, host: Host): Sight {
    Sight(EvidenceDir(w) in host.evidence, Worktree(w) in host.worktrees, Branch(w.job) in host.branches)
  }

  /** The outcomes of a worker's own commands. A failed `git switch -c` may still
      have created the branch, unless it existed; the commands of clean-up may
      fail, and their failure is ignored. */
  datatype Input =
    | GateAnswers(decision: Decision, evidence: GateEvidence)
    | SetupDone
    | WorktreeIsAdded
    | PatchIsTested
    | Switched(created: bool, ok: bool)
    | CommitIsMade(head: string)
    | Returns
    | CleansUp(removes: bool, deletes: bool)
    | Aborts

  /** SetupDone is the check for leftovers and the making of the evidence directory. */
  predicate MakesDir(p: Progress, sight: Sight, input: Input) {
    p.pc.AtSetup? && input.SetupDone? && !sight.evidenceExists && !sight.worktreeExists
  }

  predicate Adds(p: Progress, sight: Sight, input: Input) {
    p.pc.AtWorktree? && input.WorktreeIsAdded? && !sight.worktreeExists
  }

  predicate Creates(p: Progress, sight: Sight, input: Input) {
    p.pc.AtSwitch? && input.Switched? && (input.created || input.ok) && !sight.branchExists
  }

  /** Clean-up of a worktree that was added; the branch goes unless the job succeeded. */
  predicate Cleans(p: Progress, input: Input) { p.pc.AtCleanup? && input.CleansUp? && p.worktreeAdded }

  predicate Deletes(p: Progress, input: Input) {
    Cleans(p, input) && !(p.success && p.branchCreated) && input.deletes
  }

  /** One step of a worker. */
  function React(p: Progress, sight: Sight, input: Input): Progress {
    match (p.pc, input)
    case (AtGate, GateAnswers(d, e)) => p.(pc := AtRecordGate(d, e))
    case (AtSetup, SetupDone) =>
      if MakesDir(p, sight, input) then p.(ownsDir := true, pc := AtWorktree) else Excepted(p)
    case (AtWorktree, WorktreeIsAdded) =>
      if Adds(p, sight, input) then p.(worktreeAdded := true, pc := AtBuild) else Excepted(p)
    case (AtBuild, PatchIsTested) => p.(pc := AtBegin)
    case (AtSwitch, Switched(_, ok)) =>
      var p' := p.(made := p.made || Creates(p, sight, input));
      if ok && !sight.branchExists then p'.(branchCreated := true, pc := AtCommit) else Excepted(p')
    case (AtCommit, CommitIsMade(head)) =>
      if IsLowerHex(head, 40) then p.(pc := AtCommitEffect(head), candidate := Some(head)) else Excepted(p)
    case (AtReturn, Returns) => p.(pc := AtCleanup)
    case (AtCleanup, CleansUp(_, _)) => p.(pc := Finished(Deletes(p, input)))
    case (_, Aborts) => Excepted(p)
    case _ => p
  }

  /** What that step does to the machine. */
  function Touch(w: Worker, host: Host, input: Input): Host {
    var sight := See(w, host);
    if MakesDir(w.at, sight, input) then host.(evidence := host.evidence + {EvidenceDir(w)})
    else if Adds(w.at, sight, input) then host.(worktrees := host.worktrees + {Worktree(w)})
    else if Creates(w.at, sight, input) then host.(branches := host.branches + {Branch(w.job)})
    else if Cleans(w.at, input) then
      Host(if Deletes(w.at, input) then host.branches - {Branch(w.job)} else host.branches,
           if input.removes then host.worktrees - {Worktree(w)} else host.worktrees, host.evidence)
    else host
  }

  // ---- a worker on its own ----

  /** What happens to a worker: a reply to a call it is waiting for, or an outcome. */
  datatype Happening = Reply(reply: Reply) | Outcome(input: Input)

  function RunAlone(w: Worker, host: Host, run: seq<Happening>): (Worker, Host)
    decreases |run|
  {
    if |run| == 0 then (w, host)
    else
      match run[0]
      case Reply(reply) => RunAlone(if NextCall(w).Some? then w.(at := Replied(w.at, reply)) else w, host, run[1..])
      case Outcome(input) => RunAlone(w.(at := React(w.at, See(w, host), input)), Touch(w, host, input), run[1..])
  }

  /** What a worker that shares its branch with no one knows about it. `was` and
      `present`: the branch existed at the start, and exists now; `works`: the
      deletions of clean-up take effect. */
  predicate AloneOk(p: Progress, was: bool, works: bool, present: bool) {
    && (p.pc.AtBuild? || p.pc.AtBegin? || InEffect(p.pc) ==> p.worktreeAdded)
    && (p.worktreeAdded ==> InTry(p.pc) || p.pc.AtFail? || p.pc.AtCleanup? || p.pc.Finished?)
    && (p.made ==> p.worktreeAdded)
    && (p.success ==> p.branchCreated && p.made)
    && (InEffect(p.pc) && !p.pc.AtSwitch? ==> p.branchCreated && p.made)
    && (p.pc.Finished? && p.pc.deleted ==> p.worktreeAdded && !p.success)
    && (p.pc.Finished? && p.worktreeAdded && works ==> p.success || p.pc.deleted)
    && (present <==> (was || p.made) && !(p.pc.Finished? && p.pc.deleted))
  }

  lemma ExceptedAlone(p: Progress, was: bool, works: bool, present: bool)
    requires AloneOk(p, was, works, present)
    ensures AloneOk(Excepted(p), was, works, present)
  {}

  lemma RepliedAlone(w: Worker, was: bool, works: bool, present: bool, reply: Reply)
    requires AloneOk(w.at, was, works, present) && NextCall(w).Some?
    ensures AloneOk(Replied(w.at, reply), was, works, present)
  {
    ExceptedAlone(w.at, was, works, present);
  }

  predicate PresentAfter(p: Progress, sight: Sight, input: Input) {
    Creates(p, sight, input) || (sight.branchExists && !Deletes(p, input))
  }

  lemma SwitchAlone(p: Progress, was: bool, works: bool, sight: Sight, input: Input)
    requires AloneOk(p, was, works, sight.branchExists) && p.pc.AtSwitch? && input.Switched?
    ensures AloneOk(React(p, sight, input), was, works, PresentAfter(p, sight, input))
  {}

  lemma CleanAlone(p: Progress, was: bool, works: bool, sight: Sight, input: Input)
    requires AloneOk(p, was, works, sight.branchExists) && p.pc.AtCleanup? && input.CleansUp?
        && (works ==> input.deletes)
    ensures AloneOk(React(p, sight, input), was, works, PresentAfter(p, sight, input))
  {}

  lemma AdvanceAlone(p: Progress, was: bool, works: bool, sight: Sight, input: Input)
    requires AloneOk(p, was, works, sight.branchExists) && !input.Switched? && !input.CleansUp?
    ensures AloneOk(React(p, sight, input), was, works, sight.branchExists)
  {
    ExceptedAlone(p, was, works, sight.branchExists);
  }

  lemma PresentStays(p: Progress, sight: Sight, input: Input)
    requires !(p.pc.AtSwitch? && input.Switched?) && !(p.pc.AtCleanup? && input.CleansUp?)
    ensures PresentAfter(p, sight, input) == sight.branchExists
    ensures input.Switched? || input.CleansUp? ==> React(p, sight, input) == p
  {}

  lemma ReactAlone(p: Progress, was: bool, works: bool, sight: Sight, input: Input)
    requires AloneOk(p, was, works, sight.branchExists) && (works && input.CleansUp? ==> input.deletes)
    ensures AloneOk(React(p, sight, input), was, works, PresentAfter(p, sight, input))
  {
    if p.pc.AtSwitch? && input.Switched? {
      SwitchAlone(p, was, works, sight, input);
    } else if p.pc.AtCleanup? && input.CleansUp? {
      CleanAlone(p, was, works, sight, input);
    } else {
      PresentStays(p, sight, input);
      if !input.Switched? && !input.CleansUp? { AdvanceAlone(p, was, works, sight, input); }
    }
  }

  lemma TouchBranches(w: Worker, host: Host, input: Input)
    ensures Branch(w.job) in Touch(w, host, input).branches <==> PresentAfter(w.at, See(w, host), input)
    ensures Touch(w, host, input).branches - {Branch(w.job)} == host.branches - {Branch(w.job)}
  {}

  predicate DeletionsWork(run: seq<Happening>) {
    forall i :: 0 <= i < |run| && run[i].Outcome? && run[i].input.CleansUp? ==> run[i].input.deletes
  }

  lemma {:induction false} RunAloneOk(w: Worker, was: bool, works: bool, host: Host, run: seq<Happening>)
    requires AloneOk(w.at, was, works, Branch(w.job) in host.branches) && (works ==> DeletionsWork(run))
    ensures var (w', host') := RunAlone(w, host, run);
            && w'.job == w.job && AloneOk(w'.at, was, works, Branch(w.job) in host'.branches)
            && host'.branches - {Branch(w.job)} == host.branches - {Branch(w.job)}
    decreases |run|
  {
    if |run| > 0 {
      match run[0]
      case Reply(reply) =>
        if NextCall(w).Some? { RepliedAlone(w, was, works, Branch(w.job) in host.branches, reply); }
        RunAloneOk(if NextCall(w).Some? then w.(at := Replied(w.at, reply)) else w, was, works, host, run[1..]);
      case Outcome(input) =>
        ReactAlone(w.at, was, works, See(w, host), input);
        TouchBranches(w, host, input);
        RunAloneOk(w.(at := React(w.at, See(w, host), input)), was, works, Touch(w, host, input), run[1..]);
    }
  }

  /** Whatever the ledger, the model, git and the tests answer, a run that is not
      cut short leaves the job's branch exactly when it succeeded, or clean-up
      deleted nothing and the branch was made or had been there before. If the
      deletions of clean-up take effect, that is exactly when it succeeded, or
      never had a worktree and the branch had been there before. No other branch
      changes. */
  lemma BranchIffSuccess(j: JobId, t: Token, config: Config, host: Host, run: seq<Happening>)
    ensures var (w, host') := RunAlone(Fresh(j, t, config), host, run);
            var was, p := Branch(j) in host.branches, w.at;
            var deleted := p.pc.Finished? && p.pc.deleted;
            && host'.branches - {Branch(j)} == host.branches - {Branch(j)}
            && (Ended(p.pc) ==> (Branch(j) in host'.branches <==> p.success || (!deleted && (was || p.made))))
            && (deleted ==> p.worktreeAdded && !p.success)
            && (Ended(p.pc) && DeletionsWork(run) ==>
                  (Branch(j) in host'.branches <==> p.success || (was && !p.worktreeAdded)))
  {
    RunAloneOk(Fresh(j, t, config), Branch(j) in host.branches, DeletionsWork(run), host, run);
  }

  // ---- many workers, one ledger, one repository ----

  /** `commits`: the commit call of a worker whose check has passed and whose UPDATE
      is outstanding. History: `madeAt` maps a worker that created its branch to the number of
      clean-ups that had deleted a branch until then, `cleanups` are the workers
      that made these, and `completedBy` the workers whose completion was accepted. */
  datatype System = System(
    ledger: State, workers: map<nat, Worker>, host: Host, commits: map<nat, Pending>,
    madeAt: map<nat, nat>, cleanups: seq<nat>, completedBy: map<JobId, nat>)

  function Initial(start: Time, host: Host): System {
    System(Empty(start), map[], host, map[], map[], [], map[])
  }

  datatype Step =
    | Environment(op: Op)
    | LateCommit(commit: Pending)
    | Spawn(id: nat, job: JobId, token: Token, config: Config)
    | Locally(id: nat, input: Input)
    | Calls(id: nat, delivery: Delivery)
    | ChecksCommit(id: nat)
    | FinishesCommit(id: nat, delivered: bool)
    | Crash(id: nat)

  function Set(s: System, id: nat, p: Progress): System
    requires id in s.workers
  {
    s.(workers := s.workers[id := s.workers[id].(at := p)])
  }

  function Crashed(p: Progress): Progress { if p.pc.Finished? then p else p.(pc := Gone) }

  function After(p: Progress, delivery: Delivery, reply: Reply): Progress {
    if delivery.Delivered? then Replied(p, reply) else Excepted(p)
  }

  /** The system after a call of worker `id` that left the ledger as `ledger`. */
  function Sent(s: System, id: nat, delivery: Delivery, ledger: State, reply: Reply): System
    requires id in s.workers
  {
    var w := s.workers[id];
    var completedBy := if reply == CompleteOk then s.completedBy[w.job := id] else s.completedBy;
    Set(s.(ledger := ledger, completedBy := completedBy), id, After(w.at, delivery, reply))
  }

  function CallStep(s: System, id: nat, delivery: Delivery): System
    requires id in s.workers
  {
    var w := s.workers[id];
    if NextCall(w).None? then s
    else if delivery.NotSent? then Set(s, id, Excepted(w.at))
    else
      var (ledger, reply) := WorkerInvoke(s.ledger, w.job, w.token, NextCall(w).value);
      Sent(s, id, delivery, ledger, reply)
  }

  /** The check of a commit call on its own. Calls makes check and UPDATE together. */
  function CheckStep(s: System, id: nat): System
    requires id in s.workers
  {
    var w := s.workers[id];
    if !w.at.pc.AtCommitEffect? then s
    else if Wrapped(w.job, CommitCall(w.at.pc.head)).None? || !CheckPasses(s.ledger, w.job, w.token) then
      Set(s, id, Excepted(w.at))
    else
      var p := Pending(w.job, FindAttempt(s.ledger.recs[w.job].attempts, w.token), CandidateKey(w.job),
                       Some(w.at.pc.head), WORKER_ACTOR, s.ledger.now);
      Set(s.(commits := s.commits[id := p]), id, w.at.(pc := AwaitCommit(w.at.pc.head)))
  }

  /** What the end of its commit call makes of a worker that still waits for it. */
  function Told(p: Progress, delivered: bool, reply: Reply): Progress {
    if !p.pc.AwaitCommit? then p else if delivered then Replied(p, reply) else Excepted(p)
  }

  /** The UPDATE, whatever has become of the worker and the job since the check. */
  function FinishStep(s: System, id: nat, delivered: bool): System {
    if id !in s.commits then s
    else
      var p := s.commits[id];
      var s1 := s.(ledger := Finish(s.ledger, p), commits := s.commits - {id});
      if id in s.workers then Set(s1, id, Told(s.workers[id].at, delivered, CommitReply(s.ledger, p))) else s1
  }

  function LocalStep(s: System, id: nat, input: Input): System
    requires id in s.workers
  {
    var w, sight := s.workers[id], See(s.workers[id], s.host);
    Set(s.(host := Touch(w, s.host, input),
           madeAt := if Creates(w.at, sight, input) then s.madeAt[id := |s.cleanups|] else s.madeAt,
           cleanups := if Deletes(w.at, input) then s.cleanups + [id] else s.cleanups),
        id, React(w.at, sight, input))
  }

  ghost function Next(s: System, step: Step): System {
    match step
    case Environment(op) => s.(ledger := Apply(s.ledger, op))
    case LateCommit(p) => s.(ledger := Finish(s.ledger, p))
    case Spawn(id, j, t, config) => if id in s.workers then s else s.(workers := s.workers[id := Fresh(j, t, config)])
    case Locally(id, input) => if id in s.workers then LocalStep(s, id, input) else s
    case Calls(id, delivery) => if id in s.workers then CallStep(s, id, delivery) else s
    case ChecksCommit(id) => if id in s.workers then CheckStep(s, id) else s
    case FinishesCommit(id, delivered) => FinishStep(s, id, delivered)
    case Crash(id) => if id in s.workers then Set(s, id, Crashed(s.workers[id].at)) else s
  }

  ghost function Execute(s: System, steps: seq<Step>): System
    decreases |steps|
  {
    if |steps| == 0 then s else Execute(Next(s, steps[0]), steps[1..])
  }
}
