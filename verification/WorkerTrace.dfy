/** What engineering workers are and have done, traced back to the steps of the run. */
module WorkerTrace {
  import opened Basics
  import opened LedgerTypes
  import opened LedgerSpec
  import opened LedgerInvariant
  import opened LedgerRuns
  import opened LedgerSplitCommit
  import opened LedgerClients
  import opened EngineeringWorker
  import opened WorkerSafety
  import opened WorkerAgreement
  import LedgerColumns

  ghost function StateAt(start: Time, host: Host, steps: seq<Step>, i: nat): System
    requires i <= |steps|
  {
    Execute(Initial(start, host), steps[..i])
  }

  lemma {:induction false} ExecuteSnoc(s: System, steps: seq<Step>, step: Step)
    ensures Execute(s, steps + [step]) == Next(Execute(s, steps), step)
    decreases |steps|
  {
    if |steps| > 0 {
      assert (steps + [step])[1..] == steps[1..] + [step];
      ExecuteSnoc(Next(s, steps[0]), steps[1..], step);
    } else {
      assert steps + [step] == [step];
      assert [step][1..] == [];
      assert Execute(s, [step]) == Execute(Next(s, step), []);
    }
  }

  /** The last step of a run. */
  lemma ExecuteOneMore(s: System, before: seq<Step>, step: Step, steps: seq<Step>)
    requires steps == before + [step]
    ensures Execute(s, steps) == Next(Execute(s, before), step)
  {
    ExecuteSnoc(s, before, step);
  }

  /** Before step `i` worker `id` is where `at` holds. */
  ghost predicate StoodAt(start: Time, host: Host, steps: seq<Step>, id: nat, at: Pc -> bool, i: nat) {
    i <= |steps| && (var s := StateAt(start, host, steps, i); id in s.workers && at(s.workers[id].at.pc))
  }

  ghost predicate Stood(start: Time, host: Host, steps: seq<Step>, id: nat, at: Pc -> bool) {
    exists i: nat :: StoodAt(start, host, steps, id, at, i)
  }

  /** Step `i` is an outcome of worker `id`, met where `at` holds. */
  ghost predicate MetAt(start: Time, host: Host, steps: seq<Step>, id: nat, input: Input, at: Pc -> bool, i: nat) {
    i < |steps| && steps[i] == Locally(id, input) && StoodAt(start, host, steps, id, at, i)
  }

  /** At some step worker `id`, where `at` holds, met this outcome. */
  ghost predicate Met(start: Time, host: Host, steps: seq<Step>, id: nat, input: Input, at: Pc -> bool) {
    exists i: nat :: MetAt(start, host, steps, id, input, at, i)
  }

  lemma MetEarlier(start: Time, host: Host, steps: seq<Step>, n: nat, id: nat, input: Input, at: Pc -> bool)
    requires n <= |steps| && Met(start, host, steps[..n], id, input, at)
    ensures Met(start, host, steps, id, input, at)
  {
    var i: nat :| MetAt(start, host, steps[..n], id, input, at, i);
    assert steps[..n][..i] == steps[..i];
    assert MetAt(start, host, steps, id, input, at, i);
  }

  lemma StoodEarlier(start: Time, host: Host, steps: seq<Step>, n: nat, id: nat, at: Pc -> bool)
    requires n <= |steps| && Stood(start, host, steps[..n], id, at)
    ensures Stood(start, host, steps, id, at)
  {
    var i: nat :| StoodAt(start, host, steps[..n], id, at, i);
    assert steps[..n][..i] == steps[..i];
    assert StoodAt(start, host, steps, id, at, i);
  }

  lemma MetLast(start: Time, host: Host, steps: seq<Step>, id: nat, input: Input, at: Pc -> bool)
    requires |steps| > 0 && steps[|steps| - 1] == Locally(id, input)
    requires StoodAt(start, host, steps, id, at, |steps| - 1)
    ensures Met(start, host, steps, id, input, at)
  {
    assert MetAt(start, host, steps, id, input, at, |steps| - 1);
  }

  const AT_GATE: Pc -> bool := (pc: Pc) => pc.AtGate?
  const AT_SETUP: Pc -> bool := (pc: Pc) => pc.AtSetup?
  const AT_WORKTREE: Pc -> bool := (pc: Pc) => pc.AtWorktree?
  const AT_BUILD: Pc -> bool := (pc: Pc) => pc.AtBuild?
  const AT_MAKING: Pc -> bool := (pc: Pc) => pc.AtCommit?
  const IN_HANDLER: Pc -> bool := (pc: Pc) => pc.AtFail?

  predicate PastGate(p: Progress) { p.pc.AtStart? || p.started }

  predicate Tested(p: Progress) { p.pc.AtBegin? || p.effectStarted }

  predicate Placed(p: Progress) { p.worktreeAdded || p.pc.AtBuild? || Tested(p) }

  /** Clean-up, or the end of it, without success. */
  predicate CleansUpFailure(p: Progress) { (p.pc.AtCleanup? || p.pc.Finished?) && !p.success }

  /** What the steps so far must contain, given what the worker is. */
  ghost predicate Explained(start: Time, host: Host, steps: seq<Step>, id: nat, p: Progress) {
    && (p.pc.AtRecordGate? ==> Met(start, host, steps, id, GateAnswers(p.pc.decision, p.pc.evidence), AT_GATE))
    && (PastGate(p) ==> exists e :: Met(start, host, steps, id, GateAnswers(Allow, e), AT_GATE))
    && (p.ownsDir ==> Met(start, host, steps, id, SetupDone, AT_SETUP))
    && (Placed(p) ==> Met(start, host, steps, id, WorktreeIsAdded, AT_WORKTREE))
    && (Tested(p) ==> Met(start, host, steps, id, PatchIsTested, AT_BUILD))
    && (p.candidate.Some? ==> Met(start, host, steps, id, CommitIsMade(p.candidate.value), AT_MAKING))
    && (CleansUpFailure(p) ==> Stood(start, host, steps, id, IN_HANDLER))
  }

  lemma ExplainedEarlier(start: Time, host: Host, steps: seq<Step>, n: nat, id: nat, p: Progress)
    requires n <= |steps| && Explained(start, host, steps[..n], id, p)
    ensures Explained(start, host, steps, id, p)
  {
    if p.pc.AtRecordGate? {
      MetEarlier(start, host, steps, n, id, GateAnswers(p.pc.decision, p.pc.evidence), AT_GATE);
    }
    if PastGate(p) {
      var e :| Met(start, host, steps[..n], id, GateAnswers(Allow, e), AT_GATE);
      MetEarlier(start, host, steps, n, id, GateAnswers(Allow, e), AT_GATE);
    }
    if p.ownsDir { MetEarlier(start, host, steps, n, id, SetupDone, AT_SETUP); }
    if Placed(p) { MetEarlier(start, host, steps, n, id, WorktreeIsAdded, AT_WORKTREE); }
    if Tested(p) { MetEarlier(start, host, steps, n, id, PatchIsTested, AT_BUILD); }
    if p.candidate.Some? { MetEarlier(start, host, steps, n, id, CommitIsMade(p.candidate.value), AT_MAKING); }
    if CleansUpFailure(p) { StoodEarlier(start, host, steps, n, id, IN_HANDLER); }
  }

  // ---- one step of one worker ----

  /** Nothing new that would need an explanation. */
  predicate Follows(p: Progress, p': Progress) {
    && (p'.pc.AtRecordGate? ==> p'.pc == p.pc)
    && (PastGate(p') ==> PastGate(p) || (p.pc.AtRecordGate? && p.pc.decision == Allow))
    && p'.ownsDir == p.ownsDir && p'.candidate == p.candidate
    && (Placed(p') ==> Placed(p)) && (Tested(p') ==> Tested(p))
    && (CleansUpFailure(p') ==> CleansUpFailure(p) || p.pc.AtFail?)
  }

  lemma FollowsExplained(start: Time, host: Host, steps: seq<Step>, id: nat, p: Progress, p': Progress)
    requires Explained(start, host, steps, id, p) && Follows(p, p')
    requires |steps| > 0 && (p.pc.AtFail? ==> StoodAt(start, host, steps, id, IN_HANDLER, |steps| - 1))
    ensures Explained(start, host, steps, id, p')
  {}

  lemma StopsFollows(p: Progress, pc: Pc)
    requires pc.AtFail? || pc.Gone? || (pc.AtCleanup? && p.pc.AtFail?)
    ensures Follows(p, p.(pc := pc))
  {}

  lemma ExceptedFollows(p: Progress)
    ensures Follows(p, Excepted(p)) && Follows(p, Crashed(p))
  {
    StopsFollows(p, Gone);
    if InTry(p.pc) {
      StopsFollows(p, AtFail);
    } else if p.pc.AtFail? {
      StopsFollows(p, AtCleanup);
    }
  }

  lemma EarlyFollows(p: Progress, reply: Reply)
    requires p.pc.AtRecordGate? || p.pc.AtStart? || p.pc.AtHeartbeat?
    ensures Follows(p, Replied(p, reply)) || Replied(p, reply) == Excepted(p)
  {}

  lemma BeginFollows(p: Progress, reply: Reply)
    requires p.pc.AtBegin?
    ensures Follows(p, Replied(p, reply)) || Replied(p, reply) == Excepted(p)
  {}

  lemma CommitFollows(p: Progress, reply: Reply)
    requires p.pc.AtCommitEffect? || p.pc.AwaitCommit?
    ensures Follows(p, Replied(p, reply)) || Replied(p, reply) == Excepted(p)
  {}

  lemma CompleteFollows(p: Progress, reply: Reply)
    requires p.pc.AtComplete?
    ensures Follows(p, Replied(p, reply)) || Replied(p, reply) == Excepted(p)
  {}

  lemma RepliedFollows(p: Progress, reply: Reply)
    ensures Follows(p, Replied(p, reply))
  {
    ExceptedFollows(p);
    if p.pc.AtRecordGate? || p.pc.AtStart? || p.pc.AtHeartbeat? {
      EarlyFollows(p, reply);
    } else if p.pc.AtBegin? {
      BeginFollows(p, reply);
    } else if p.pc.AtCommitEffect? || p.pc.AwaitCommit? {
      CommitFollows(p, reply);
    } else if p.pc.AtComplete? {
      CompleteFollows(p, reply);
    }
  }

  predicate NeedsNone(p: Progress, input: Input) {
    && !(p.pc.AtGate? && input.GateAnswers?) && !(p.pc.AtSetup? && input.SetupDone?)
    && !(p.pc.AtWorktree? && input.WorktreeIsAdded?) && !(p.pc.AtBuild? && input.PatchIsTested?)
    && !(p.pc.AtCommit? && input.CommitIsMade?)
  }

  lemma OtherwiseFollows(p: Progress, sight: Sight, input: Input)
    requires NeedsNone(p, input) && WellFormed(p)
    ensures Follows(p, React(p, sight, input))
  {
    ExceptedFollows(p);
  }

  /** Worker `id` stands at `p` before the last step, which is an outcome of it. */
  ghost predicate LastMeets(start: Time, host: Host, steps: seq<Step>, id: nat, p: Progress, input: Input) {
    && |steps| > 0 && steps[|steps| - 1] == Locally(id, input)
    && (var s := StateAt(start, host, steps, |steps| - 1); id in s.workers && s.workers[id].at == p)
  }

  lemma QuietExplained(start: Time, host: Host, steps: seq<Step>, id: nat, p: Progress, p': Progress, input: Input)
    requires LastMeets(start, host, steps, id, p, input) && Explained(start, host, steps, id, p) && Follows(p, p')
    ensures Explained(start, host, steps, id, p')
  {
    assert p.pc.AtFail? ==> StoodAt(start, host, steps, id, IN_HANDLER, |steps| - 1);
    FollowsExplained(start, host, steps, id, p, p');
  }

  /** The outcomes that do need one are those recorded. */
  lemma LocalExplained(start: Time, host: Host, steps: seq<Step>, id: nat, p: Progress, sight: Sight, input: Input)
    requires LastMeets(start, host, steps, id, p, input) && Explained(start, host, steps, id, p) && WellFormed(p)
    ensures Explained(start, host, steps, id, React(p, sight, input))
  {
    if NeedsNone(p, input) {
      OtherwiseFollows(p, sight, input);
      QuietExplained(start, host, steps, id, p, React(p, sight, input), input);
    } else if React(p, sight, input) == Excepted(p) {
      ExceptedFollows(p);
      QuietExplained(start, host, steps, id, p, Excepted(p), input);
    } else {
      NewExplained(start, host, steps, id, p, sight, input);
    }
  }

  lemma NewExplained(start: Time, host: Host, steps: seq<Step>, id: nat, p: Progress, sight: Sight, input: Input)
    requires LastMeets(start, host, steps, id, p, input) && Explained(start, host, steps, id, p)
    requires !NeedsNone(p, input) && React(p, sight, input) != Excepted(p)
    ensures Explained(start, host, steps, id, React(p, sight, input))
  {
    if p.pc.AtGate? {
      MetLast(start, host, steps, id, input, AT_GATE);
      GateExplained(start, host, steps, id, p, sight, input);
    } else if p.pc.AtSetup? {
      MetLast(start, host, steps, id, input, AT_SETUP);
      SetupExplained(start, host, steps, id, p, sight, input);
    } else if p.pc.AtWorktree? {
      MetLast(start, host, steps, id, input, AT_WORKTREE);
      WorktreeExplained(start, host, steps, id, p, sight, input);
    } else if p.pc.AtBuild? {
      MetLast(start, host, steps, id, input, AT_BUILD);
      BuildExplained(start, host, steps, id, p, sight, input);
    } else {
      MetLast(start, host, steps, id, input, AT_MAKING);
      CommitExplained(start, host, steps, id, p, sight, input);
    }
  }

  // What an outcome that was met explains.

  lemma GateExplained(start: Time, host: Host, steps: seq<Step>, id: nat, p: Progress, sight: Sight, input: Input)
    requires Explained(start, host, steps, id, p) && p.pc.AtGate? && input.GateAnswers?
    requires Met(start, host, steps, id, input, AT_GATE)
    requires React(p, sight, input) != Excepted(p)
    ensures Explained(start, host, steps, id, React(p, sight, input))
  {
    assert React(p, sight, input) == p.(pc := AtRecordGate(input.decision, input.evidence));
  }

  lemma SetupExplained(start: Time, host: Host, steps: seq<Step>, id: nat, p: Progress, sight: Sight, input: Input)
    requires Explained(start, host, steps, id, p) && p.pc.AtSetup? && input.SetupDone?
    requires Met(start, host, steps, id, input, AT_SETUP)
    requires React(p, sight, input) != Excepted(p)
    ensures Explained(start, host, steps, id, React(p, sight, input))
  {
    assert React(p, sight, input) == p.(ownsDir := true, pc := AtWorktree);
  }

  lemma WorktreeExplained(start: Time, host: Host, steps: seq<Step>, id: nat, p: Progress, sight: Sight, input: Input)
    requires Explained(start, host, steps, id, p) && p.pc.AtWorktree? && input.WorktreeIsAdded?
    requires Met(start, host, steps, id, input, AT_WORKTREE)
    requires React(p, sight, input) != Excepted(p)
    ensures Explained(start, host, steps, id, React(p, sight, input))
  {
    assert React(p, sight, input) == p.(worktreeAdded := true, pc := AtBuild);
  }

  lemma BuildExplained(start: Time, host: Host, steps: seq<Step>, id: nat, p: Progress, sight: Sight, input: Input)
    requires Explained(start, host, steps, id, p) && p.pc.AtBuild? && input.PatchIsTested?
    requires Met(start, host, steps, id, input, AT_BUILD)
    requires React(p, sight, input) != Excepted(p)
    ensures Explained(start, host, steps, id, React(p, sight, input))
  {
    assert React(p, sight, input) == p.(pc := AtBegin);
  }

  lemma CommitExplained(start: Time, host: Host, steps: seq<Step>, id: nat, p: Progress, sight: Sight, input: Input)
    requires Explained(start, host, steps, id, p) && p.pc.AtCommit? && input.CommitIsMade?
    requires Met(start, host, steps, id, input, AT_MAKING)
    requires React(p, sight, input) != Excepted(p)
    ensures Explained(start, host, steps, id, React(p, sight, input))
  {
    assert React(p, sight, input) == p.(pc := AtCommitEffect(input.head), candidate := Some(input.head));
  }

  // ---- the run ----

  lemma CallFollows(s: System, a: nat, delivery: Delivery, id: nat)
    requires a in s.workers && id in s.workers
    ensures id in CallStep(s, a, delivery).workers
    ensures Follows(s.workers[id].at, CallStep(s, a, delivery).workers[id].at)
  {
    var w := s.workers[id];
    ExceptedFollows(w.at);
    if a == id && NextCall(w).Some? {
      var (ledger, reply) := WorkerInvoke(s.ledger, w.job, w.token, NextCall(w).value);
      RepliedFollows(w.at, reply);
    }
  }

  lemma CheckFollows(s: System, a: nat, id: nat)
    requires a in s.workers && id in s.workers
    ensures id in CheckStep(s, a).workers && Follows(s.workers[id].at, CheckStep(s, a).workers[id].at)
  {
    if s.workers[a].at.pc.AtCommitEffect? { CheckIs(s, a); }
    ExceptedFollows(s.workers[id].at);
  }

  lemma FinishFollows(s: System, a: nat, delivered: bool, id: nat)
    requires id in s.workers
    ensures id in FinishStep(s, a, delivered).workers
    ensures Follows(s.workers[id].at, FinishStep(s, a, delivered).workers[id].at)
  {
    ExceptedFollows(s.workers[id].at);
    if a in s.commits { RepliedFollows(s.workers[id].at, CommitReply(s.ledger, s.commits[a])); }
  }

  lemma StepFollows(s: System, step: Step, id: nat)
    requires id in s.workers && !(step.Locally? && step.id == id)
    ensures id in Next(s, step).workers && Follows(s.workers[id].at, Next(s, step).workers[id].at)
  {
    match step
    case Calls(a, delivery) => if a in s.workers { CallFollows(s, a, delivery, id); }
    case ChecksCommit(a) => if a in s.workers { CheckFollows(s, a, id); }
    case FinishesCommit(a, delivered) => FinishFollows(s, a, delivered, id);
    case Crash(a) => ExceptedFollows(s.workers[id].at);
    case _ =>
  }

  lemma LocalIsReact(s: System, id: nat, input: Input)
    requires id in s.workers
    ensures LocalStep(s, id, input).workers[id].at == React(s.workers[id].at, See(s.workers[id], s.host), input)
  {}

  lemma SpawnedIsFresh(s: System, step: Step, id: nat)
    requires id !in s.workers && id in Next(s, step).workers
    ensures var w := Next(s, step).workers[id]; w == Fresh(w.job, w.token, w.config)
  {}

  lemma RunBacked(start: Time, host: Host, steps: seq<Step>)
    ensures AllBacked(Execute(Initial(start, host), steps))
  {
    ExecuteWorks(Initial(start, host), host.branches, steps);
  }

  /** In every run every worker is what its steps have made of it. */
  lemma {:induction false} RunExplained(start: Time, host: Host, steps: seq<Step>, id: nat)
    requires id in Execute(Initial(start, host), steps).workers
    ensures Explained(start, host, steps, id, Execute(Initial(start, host), steps).workers[id].at)
    decreases |steps|
  {
    if |steps| > 0 {
      var n := |steps| - 1;
      var s, step := StateAt(start, host, steps, n), steps[n];
      ExecuteOneMore(Initial(start, host), steps[..n], steps[n], steps);
      if id in s.workers {
        var p := s.workers[id].at;
        RunExplained(start, host, steps[..n], id);
        ExplainedEarlier(start, host, steps, n, id, p);
        if step.Locally? && step.id == id {
          RunBacked(start, host, steps[..n]);
          assert WellFormed(p);
          LocalExplained(start, host, steps, id, p, See(s.workers[id], s.host), step.input);
          LocalIsReact(s, id, step.input);
        } else {
          StepFollows(s, step, id);
          assert p.pc.AtFail? ==> StoodAt(start, host, steps, id, IN_HANDLER, n);
          FollowsExplained(start, host, steps, id, p, Next(s, step).workers[id].at);
        }
      } else {
        SpawnedIsFresh(s, step, id);
      }
    }
  }

  // ---- what follows ----

  /** A job's branch that was not there at the start was made by a worker whose
      gate had allowed, that had found no leftovers, and that had its patch tested
      in its own worktree before it claimed the effect. */
  lemma BranchesAreTested(start: Time, host: Host, steps: seq<Step>, b: string)
    requires b in Execute(Initial(start, host), steps).host.branches && b !in host.branches
    ensures exists id :: MadeBy(Execute(Initial(start, host), steps), id, b) && WasTested(start, host, steps, id)
  {
    ExecuteWorks(Initial(start, host), host.branches, steps);
    var id :| MadeBy(Execute(Initial(start, host), steps), id, b);
    MadeIsTested(start, host, steps, id);
  }

  ghost predicate WasTested(start: Time, host: Host, steps: seq<Step>, id: nat) {
    && (exists e :: Met(start, host, steps, id, GateAnswers(Allow, e), AT_GATE))
    && Met(start, host, steps, id, SetupDone, AT_SETUP) && Met(start, host, steps, id, WorktreeIsAdded, AT_WORKTREE)
    && Met(start, host, steps, id, PatchIsTested, AT_BUILD)
  }

  lemma MadeIsTested(start: Time, host: Host, steps: seq<Step>, id: nat)
    requires var s := Execute(Initial(start, host), steps); id in s.workers && s.workers[id].at.made
    ensures WasTested(start, host, steps, id)
  {
    RunExplained(start, host, steps, id);
    RunBacked(start, host, steps);
    assert WellFormed(Execute(Initial(start, host), steps).workers[id].at);
  }

  /** No worker cleans up a failure without having been in the handler, where it
      reports the failure to the ledger. */
  lemma FailuresAreHandled(start: Time, host: Host, steps: seq<Step>, id: nat)
    requires var s := Execute(Initial(start, host), steps); id in s.workers && CleansUpFailure(s.workers[id].at)
    ensures Stood(start, host, steps, id, IN_HANDLER)
  {
    RunExplained(start, host, steps, id);
  }

  /** In confined runs the commit a succeeded job names was made by the worker that
      completed it, after its patch had been tested. */
  lemma RecordedCommitWasMade(start: Time, host: Host, steps: seq<Step>, j: JobId)
    requires AllConfined(Initial(start, host), steps) && Succeeds(Execute(Initial(start, host), steps).ledger, j)
    ensures var s := Execute(Initial(start, host), steps);
            && j in s.completedBy && s.ledger.recs[j].row.result.Some?
            && "head_commit" in s.ledger.recs[j].row.result.value
            && WasTested(start, host, steps, s.completedBy[j])
            && Met(start, host, steps, s.completedBy[j],
                   CommitIsMade(s.ledger.recs[j].row.result.value["head_commit"]), AT_MAKING)
  {
    SucceededNamesItsCommit(start, host, steps, j);
    var s := Execute(Initial(start, host), steps);
    RunBacked(start, host, steps);
    assert WellFormed(s.workers[s.completedBy[j]].at);
    RunExplained(start, host, steps, s.completedBy[j]);
    MadeIsTested(start, host, steps, s.completedBy[j]);
  }

  lemma FailCallIs(s: System, id: nat)
    requires id in s.workers && s.workers[id].at.pc.AtFail?
    ensures var w := s.workers[id];
            CallStep(s, id, Delivered).ledger
              == InvokeAnswer(s.ledger, w.job, w.token,
                              Fail("b032_execution_failed", "", true, w.config.retryDelaySeconds, WORKER_ACTOR)).0
    ensures CallStep(s, id, Delivered).workers[id].at.pc == AtCleanup
  {
    var w := s.workers[id];
    assert NextCall(w).Some?;
    assert Wrapped(w.job, NextCall(w).value)
        == Some(Fail("b032_execution_failed", "", true, w.config.retryDelaySeconds, WORKER_ACTOR));
  }

  /** What the report does while the lease lasts: a job without effects is retried
      after the configured delay within its budget, one with effects is quarantined. */
  lemma ReportedFailure(s: System, id: nat)
    requires Safe(s.ledger) && id in s.workers && s.workers[id].at.pc.AtFail? && s.workers[id].job in s.ledger.recs
    requires LedgerColumns.HeldBy(s.ledger.now, s.ledger.recs[s.workers[id].job], s.workers[id].token)
    ensures var w, s' := s.workers[id], CallStep(s, id, Delivered);
            && s'.workers[id].at.pc == AtCleanup && w.job in s'.ledger.recs
            && LedgerColumns.Reported(s.ledger.now, s.ledger.recs[w.job], "b032_execution_failed",
                                      w.config.retryDelaySeconds, s'.ledger.recs[w.job].row)
  {
    var w, code := s.workers[id], "b032_execution_failed";
    FailCallIs(s, id);
    assert SafeRecord(s.ledger.recs[w.job]);
    LedgerColumns.ReportGoesThrough(s.ledger, w.job, w.token, code, w.config.retryDelaySeconds, WORKER_ACTOR);
  }

  // ---- what a reply does ----

  lemma RaisedIsExcepted(p: Progress)
    ensures Replied(p, Raised) == Excepted(p)
  {}

  lemma CallExcepts(s: System, id: nat, delivery: Delivery)
    requires id in s.workers && NextCall(s.workers[id]).Some?
    requires var w := s.workers[id];
             delivery.Delivered? ==> WorkerInvoke(s.ledger, w.job, w.token, NextCall(w).value).1 == Raised
    ensures CallStep(s, id, delivery).workers[id].at == Excepted(s.workers[id].at)
  {
    RaisedIsExcepted(s.workers[id].at);
  }

  /** A call that raises, is not sent, or whose reply is lost ends the course of the
      worker: in its handler from within the try block, in the clean-up from within
      the handler, otherwise at once. */
  lemma RefusedCall(s: System, id: nat, delivery: Delivery)
    requires id in s.workers && NextCall(s.workers[id]).Some?
    requires var w := s.workers[id];
             delivery.Delivered? ==> WorkerInvoke(s.ledger, w.job, w.token, NextCall(w).value).1 == Raised
    ensures var pc := s.workers[id].at.pc;
            CallStep(s, id, delivery).workers[id].at.pc ==
              if pc.AtFail? then AtCleanup
              else if pc.AtRecordGate? || pc.AtStart? || pc.AtHeartbeat? then Gone else AtFail
  {
    CallExcepts(s, id, delivery);
    assert NextCall(s.workers[id]).Some?;
  }

  lemma HeartbeatCallIs(s: System, id: nat)
    requires id in s.workers && s.workers[id].at.pc.AtHeartbeat?
    ensures var w, s' := s.workers[id], CallStep(s, id, Delivered);
            var (ledger, reply) := InvokeAnswer(s.ledger, w.job, w.token, Heartbeat(w.config.heartbeatSeconds));
            s'.ledger == ledger && (reply.LeaseUntil? ==> s'.workers[id].at.pc == AtSetup)
  {
    var w := s.workers[id];
    assert NextCall(w) == Some(HeartbeatCall(w.config.heartbeatSeconds));
    assert Wrapped(w.job, NextCall(w).value) == Some(Heartbeat(w.config.heartbeatSeconds));
  }

  /** The heartbeat prolongs the lease by the configured time, and then the work begins. */
  lemma HeartbeatTaken(s: System, id: nat)
    requires id in s.workers && s.workers[id].at.pc.AtHeartbeat? && s.workers[id].job in s.ledger.recs
    requires RecordInv(s.ledger.recs[s.workers[id].job])
    requires 15 <= s.workers[id].config.heartbeatSeconds <= 3600
    requires LedgerColumns.HeldBy(s.ledger.now, s.ledger.recs[s.workers[id].job], s.workers[id].token)
    ensures var w, s' := s.workers[id], CallStep(s, id, Delivered);
            && s'.workers[id].at.pc == AtSetup && w.job in s'.ledger.recs
            && s'.ledger.recs[w.job].row.leaseExpiresAt == Some(s.ledger.now + w.config.heartbeatSeconds * SECOND)
  {
    var w := s.workers[id];
    HeartbeatCallIs(s, id);
    LedgerColumns.HeartbeatProlongs(s.ledger, w.job, w.token, w.config.heartbeatSeconds);
  }

  lemma RefusedHalf(s: System, id: nat)
    requires id in s.workers && s.workers[id].at.pc.AtCommitEffect?
    requires CheckStep(s, id) == Set(s, id, Excepted(s.workers[id].at))
    ensures var w := s.workers[id];
            WorkerInvoke(s.ledger, w.job, w.token, CommitCall(w.at.pc.head)) == (s.ledger, Raised)
  {
    var w := s.workers[id];
    assert CheckStep(s, id).workers[id].at.pc == AtFail;
    if w.job in s.ledger.recs { assert Put(s.ledger, w.job, s.ledger.recs[w.job]) == s.ledger; }
  }

  lemma PassedHalf(s: System, id: nat)
    requires id in s.workers && s.workers[id].at.pc.AtCommitEffect?
    requires CheckStep(s, id) != Set(s, id, Excepted(s.workers[id].at))
    ensures var w, s1 := s.workers[id], CheckStep(s, id);
            && id in s1.commits && s1.ledger == s.ledger && id in s1.workers
            && s1.workers[id].at == w.at.(pc := AwaitCommit(w.at.pc.head))
            && (Finish(s.ledger, s1.commits[id]), CommitReply(s.ledger, s1.commits[id]))
                 == WorkerInvoke(s.ledger, w.job, w.token, CommitCall(w.at.pc.head))
  {}

  /** Check and UPDATE of a commit with nothing in between are the whole call. */
  lemma CommitInHalves(s: System, id: nat)
    requires id in s.workers && id !in s.commits && s.workers[id].at.pc.AtCommitEffect?
    ensures var w, s' := s.workers[id], FinishStep(CheckStep(s, id), id, true);
            var (ledger, reply) := WorkerInvoke(s.ledger, w.job, w.token, CommitCall(w.at.pc.head));
            && s'.ledger == ledger && id in s'.workers
            && s'.workers[id].at == w.at.(pc := if reply == CommitOk then AtComplete(w.at.pc.head) else AtFail)
  {
    if CheckStep(s, id) == Set(s, id, Excepted(s.workers[id].at)) {
      RefusedHalf(s, id);
    } else {
      PassedHalf(s, id);
      TellsWaiting(CheckStep(s, id), id);
    }
  }

  lemma TellsWaiting(s: System, id: nat)
    requires id in s.commits && id in s.workers && s.workers[id].at.pc.AwaitCommit?
    ensures var p, reply, s' := s.workers[id].at, CommitReply(s.ledger, s.commits[id]), FinishStep(s, id, true);
            && s'.ledger == Finish(s.ledger, s.commits[id]) && id in s'.workers
            && s'.workers[id].at == p.(pc := if reply == CommitOk then AtComplete(p.pc.head) else AtFail)
  {}

  /** A receipt goes through under the key of the job only, and is 40 hexadecimal digits. */
  lemma WrapperChecks(s: State, j: JobId, t: Token, head: string)
    ensures var (s', reply) := WorkerInvoke(s, j, t, CommitCall(head));
            reply != Raised ==>
              && LedgerColumns.HexDigits(head, 40) && j in s'.recs
              && "b032:candidate-commit:" + j in s'.recs[j].effects
              && s'.recs[j].effects["b032:candidate-commit:" + j].state == EffectCommitted
  {}

  // ---- what an outcome does ----

  lemma LocalIsTouch(s: System, id: nat, input: Input)
    requires id in s.workers
    ensures LocalStep(s, id, input).host == Touch(s.workers[id], s.host, input)
  {}

  /** Leftovers end a worker before it touches anything; otherwise it has its evidence directory. */
  lemma SetupSeesLeftovers(w: Worker, host: Host)
    requires w.at.pc.AtSetup?
    ensures var pc', host' := React(w.at, See(w, host), SetupDone).pc, Touch(w, host, SetupDone);
            var worktree, directory := (w.config.workspaceRoot, Short(w.job)), (w.config.evidenceRoot, w.job);
            if worktree in host.worktrees || directory in host.evidence then host' == host && pc' == Gone
            else host' == host.(evidence := host.evidence + {directory}) && pc' == AtWorktree
  {
    var p' := React(w.at, See(w, host), SetupDone);
    assert p' == if MakesDir(w.at, See(w, host), SetupDone) then w.at.(ownsDir := true, pc := AtWorktree)
                 else Excepted(w.at);
  }

  /** A worktree is added only where there is none. */
  lemma WorktreeIsNew(w: Worker, host: Host)
    requires w.at.pc.AtWorktree?
    ensures var pc', host' := React(w.at, See(w, host), WorktreeIsAdded).pc, Touch(w, host, WorktreeIsAdded);
            var worktree := (w.config.workspaceRoot, Short(w.job));
            if worktree in host.worktrees then host' == host && pc' == AtFail
            else host' == host.(worktrees := host.worktrees + {worktree}) && pc' == AtBuild
  {}

  /** A branch is created only where there is none, and then perhaps although the command failed. */
  lemma BranchIsNew(w: Worker, host: Host, created: bool, ok: bool)
    requires w.at.pc.AtSwitch?
    ensures var input := Switched(created, ok);
            var pc', host' := React(w.at, See(w, host), input).pc, Touch(w, host, input);
            if Branch(w.job) in host.branches then host' == host && pc' == AtFail
            else
              && host' == (if created || ok then host.(branches := host.branches + {Branch(w.job)}) else host)
              && pc' == (if ok then AtCommit else AtFail)
  {}

  /** A commit whose id is malformed is not reported to the ledger. */
  lemma CommitIsChecked(w: Worker, host: Host, head: string)
    requires w.at.pc.AtCommit?
    ensures React(w.at, See(w, host), CommitIsMade(head)).pc
              == if LedgerColumns.HexDigits(head, 40) then AtCommitEffect(head) else AtFail
    ensures Touch(w, host, CommitIsMade(head)) == host
  {
    LedgerColumns.HexIsChecked(head, 40);
  }

  lemma AbortExcepts(w: Worker, host: Host)
    ensures React(w.at, See(w, host), Aborts) == Excepted(w.at) && Touch(w, host, Aborts) == host
  {}

  /** An exception in the try block leads to the handler, one before it ends the
      worker at once; nothing is touched. */
  lemma AbortLeads(w: Worker, host: Host)
    requires !w.at.pc.Finished?
    ensures var pc, pc' := w.at.pc, React(w.at, See(w, host), Aborts).pc;
            pc' == if pc.AtFail? || pc.AtCleanup? then AtCleanup
                   else if pc.AtGate? || pc.AtRecordGate? || pc.AtStart? || pc.AtHeartbeat? || pc.AtSetup? || pc.Gone?
                   then Gone else AtFail
    ensures Touch(w, host, Aborts) == host
  {
    AbortExcepts(w, host);
  }

  /** Clean-up removes the job's own worktree and branch at most, the branch only without success. */
  lemma CleanUpTakes(w: Worker, host: Host, removes: bool, deletes: bool)
    requires w.at.pc.AtCleanup? && (w.at.success ==> w.at.branchCreated)
    ensures var host', worktree := Touch(w, host, CleansUp(removes, deletes)), (w.config.workspaceRoot, Short(w.job));
            && host'.evidence == host.evidence
            && host'.worktrees == (if w.at.worktreeAdded && removes then host.worktrees - {worktree}
                                   else host.worktrees)
            && host'.branches == (if w.at.worktreeAdded && deletes && !w.at.success
                                  then host.branches - {Branch(w.job)} else host.branches)
    ensures React(w.at, See(w, host), CleansUp(removes, deletes)).pc.Finished?
  {}
}
