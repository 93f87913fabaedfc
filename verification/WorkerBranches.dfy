/** When a branch that a worker made is still there. */
module WorkerBranches {
  import opened Basics
  import opened LedgerTypes
  import opened LedgerSpec
  import opened LedgerInvariant
  import opened LedgerRuns
  import opened LedgerSplitCommit
  import opened LedgerClients
  import opened EngineeringWorker
  import opened WorkerSafety
  import opened WorkerAgreement

  // ---- made branches ----

  /** A clean-up of a worker of job `j` has deleted since `n` clean-ups had. */
  predicate DeletedSince(s: System, n: nat, j: JobId) {
    exists i :: n <= i < |s.cleanups| && s.cleanups[i] in s.workers && s.workers[s.cleanups[i]].job == j
  }

  predicate Lasts(s: System, id: nat)
    requires id in s.madeAt && id in s.workers
  {
    Branch(s.workers[id].job) in s.host.branches <==> !DeletedSince(s, s.madeAt[id], s.workers[id].job)
  }

  /** A branch a worker made is there unless its job was cleaned up since. */
  ghost predicate PresenceOk(s: System) {
    forall id :: id in s.madeAt ==> id in s.workers && Lasts(s, id)
  }

  predicate SameJobs(s: System, s': System) {
    forall id :: id in s.workers ==> id in s'.workers && s'.workers[id].job == s.workers[id].job
  }

  lemma SinceKept(s: System, s': System, n: nat, j: JobId)
    requires HistoryOk(s) && SameJobs(s, s') && s'.cleanups == s.cleanups
    ensures DeletedSince(s', n, j) <==> DeletedSince(s, n, j)
  {}

  predicate SameHistory(s: System, s': System) {
    SameJobs(s, s') && s'.cleanups == s.cleanups && s'.madeAt == s.madeAt && s'.host.branches == s.host.branches
  }

  /** Steps that neither make nor delete a branch. */
  lemma PresenceQuiet(s: System, s': System)
    requires PresenceOk(s) && HistoryOk(s) && SameHistory(s, s')
    ensures PresenceOk(s')
  {
    forall id | id in s'.madeAt ensures id in s'.workers && Lasts(s', id) {
      assert Lasts(s, id);
      SinceKept(s, s', s.madeAt[id], s.workers[id].job);
    }
  }

  lemma DistinctBranches(s: System, a: nat, b: nat)
    requires CallsOk(s) && PrefixesDistinct(s.ledger) && a in s.workers && b in s.workers
    requires s.workers[a].at.started && s.workers[b].at.started && s.workers[a].job != s.workers[b].job
    ensures Branch(s.workers[a].job) != Branch(s.workers[b].job)
  {
    assert Backed(s.ledger, s.workers[a]) && Backed(s.ledger, s.workers[b]);
    if Branch(s.workers[a].job) == Branch(s.workers[b].job) { BranchTellsShort(s.workers[a].job, s.workers[b].job); }
  }

  lemma SinceDeletion(s: System, s': System, id: nat, n: nat, j: JobId)
    requires HistoryOk(s) && SameJobs(s, s') && id in s.workers && s'.cleanups == s.cleanups + [id] && n <= |s.cleanups|
    ensures DeletedSince(s', n, j) <==> DeletedSince(s, n, j) || s.workers[id].job == j
  {
    assert s'.cleanups[|s.cleanups|] == id;
    if DeletedSince(s, n, j) {
      var i :| n <= i < |s.cleanups| && s.cleanups[i] in s.workers && s.workers[s.cleanups[i]].job == j;
      assert s'.cleanups[i] == s.cleanups[i];
    }
    if i :| n <= i < |s'.cleanups| && s'.cleanups[i] in s'.workers && s'.workers[s'.cleanups[i]].job == j {
      if i < |s.cleanups| { assert s.cleanups[i] in s.workers; }
    }
  }

  predicate DeletesBranch(s: System, s': System, id: nat)
    requires id in s.workers
  {
    && SameJobs(s, s') && s'.cleanups == s.cleanups + [id] && s'.madeAt == s.madeAt
    && s'.host.branches == s.host.branches - {Branch(s.workers[id].job)}
  }

  /** Workers of different jobs have different branches. */
  ghost predicate BranchesApart(s: System, id: nat)
    requires id in s.workers
  {
    forall a :: a in s.workers && s.workers[a].at.started && s.workers[a].job != s.workers[id].job
      ==> Branch(s.workers[a].job) != Branch(s.workers[id].job)
  }

  lemma AreApart(s: System, id: nat)
    requires CallsOk(s) && PrefixesDistinct(s.ledger) && id in s.workers && s.workers[id].at.started
    ensures BranchesApart(s, id)
  {
    forall a | a in s.workers && s.workers[a].at.started && s.workers[a].job != s.workers[id].job
      ensures Branch(s.workers[a].job) != Branch(s.workers[id].job)
    {
      DistinctBranches(s, a, id);
    }
  }

  lemma LastsDeletion(s: System, s': System, id: nat, a: nat)
    requires HistoryOk(s) && id in s.workers && BranchesApart(s, id) && DeletesBranch(s, s', id)
    requires a in s.madeAt && a in s.workers && s.workers[a].at.started && a in s'.workers && Lasts(s, a)
    ensures Lasts(s', a)
  {
    SinceDeletion(s, s', id, s.madeAt[a], s.workers[a].job);
  }

  lemma PresenceDeletes(s: System, s': System, id: nat)
    requires CallsOk(s) && HistoryOk(s) && PresenceOk(s) && PrefixesDistinct(s.ledger)
    requires id in s.workers && s.workers[id].at.started && DeletesBranch(s, s', id)
    ensures PresenceOk(s')
  {
    AreApart(s, id);
    forall a | a in s'.madeAt ensures a in s'.workers && Lasts(s', a) {
      assert WellFormed(s.workers[a].at);
      LastsDeletion(s, s', id, a);
    }
  }

  predicate MakesBranch(s: System, s': System, id: nat)
    requires id in s.workers
  {
    && SameJobs(s, s') && s'.cleanups == s.cleanups && s'.madeAt == s.madeAt[id := |s.cleanups|]
    && s'.host.branches == s.host.branches + {Branch(s.workers[id].job)}
  }

  lemma LastsCreation(s: System, s': System, id: nat, a: nat)
    requires HistoryOk(s) && id in s.workers && MakesBranch(s, s', id)
    requires a in s.madeAt && a != id && a in s.workers && a in s'.workers && Lasts(s, a)
    requires Branch(s.workers[a].job) != Branch(s.workers[id].job)
    ensures Lasts(s', a)
  {
    SinceKept(s, s', s.madeAt[a], s.workers[a].job);
  }

  lemma PresenceCreates(s: System, s': System, id: nat)
    requires CallsOk(s) && HistoryOk(s) && PresenceOk(s) && PrefixesDistinct(s.ledger)
    requires id in s.workers && s.workers[id].at.effectStarted && MakesBranch(s, s', id)
    ensures PresenceOk(s')
  {
    assert WellFormed(s.workers[id].at);
    AreApart(s, id);
    forall a | a in s'.madeAt && a != id ensures a in s'.workers && Lasts(s', a) {
      assert WellFormed(s.workers[a].at);
      if s.workers[a].job == s.workers[id].job { OneCandidate(s, a, id); }
      LastsCreation(s, s', id, a);
    }
    assert !DeletedSince(s', |s'.cleanups|, s'.workers[id].job);
  }

  /** What a step of a worker does to branches and history. */
  lemma LocalHistory(s: System, id: nat, input: Input)
    requires id in s.workers
    ensures var w, s' := s.workers[id], LocalStep(s, id, input);
            if Deletes(w.at, input) then DeletesBranch(s, s', id)
            else if Creates(w.at, See(w, s.host), input) then MakesBranch(s, s', id)
            else SameHistory(s, s')
  {}

  lemma PresenceLocal(s: System, id: nat, input: Input)
    requires CallsOk(s) && HistoryOk(s) && PresenceOk(s) && PrefixesDistinct(s.ledger) && id in s.workers
    ensures PresenceOk(LocalStep(s, id, input))
  {
    var w := s.workers[id];
    assert WellFormed(w.at);
    LocalHistory(s, id, input);
    if Deletes(w.at, input) {
      PresenceDeletes(s, LocalStep(s, id, input), id);
    } else if Creates(w.at, See(w, s.host), input) {
      PresenceCreates(s, LocalStep(s, id, input), id);
    } else {
      PresenceQuiet(s, LocalStep(s, id, input));
    }
  }

  lemma CallHistory(s: System, id: nat, delivery: Delivery)
    requires id in s.workers
    ensures SameHistory(s, CallStep(s, id, delivery))
  {}

  lemma CommitHistory(s: System, id: nat, delivered: bool)
    ensures id in s.workers ==> SameHistory(s, CheckStep(s, id))
    ensures SameHistory(s, FinishStep(s, id, delivered))
  {}

  lemma OtherHistory(s: System, step: Step)
    requires !step.Locally? && !step.Calls? && !step.ChecksCommit? && !step.FinishesCommit?
    ensures SameHistory(s, Next(s, step))
  {}

  lemma PresenceNext(s: System, step: Step)
    requires CallsOk(s) && HistoryOk(s) && PresenceOk(s) && PrefixesDistinct(s.ledger)
    ensures PresenceOk(Next(s, step))
  {
    match step
    case Locally(id, input) => if id in s.workers { PresenceLocal(s, id, input); }
    case Calls(id, delivery) =>
      if id in s.workers {
        CallHistory(s, id, delivery);
        PresenceQuiet(s, CallStep(s, id, delivery));
      }
    case ChecksCommit(id) =>
      CommitHistory(s, id, true);
      if id in s.workers { PresenceQuiet(s, CheckStep(s, id)); }
    case FinishesCommit(id, delivered) =>
      CommitHistory(s, id, delivered);
      PresenceQuiet(s, FinishStep(s, id, delivered));
    case _ =>
      OtherHistory(s, step);
      PresenceQuiet(s, Next(s, step));
  }

  lemma CommitLedger(s: System, id: nat, delivered: bool)
    ensures id in s.workers ==> CheckStep(s, id).ledger == s.ledger
    ensures FinishStep(s, id, delivered).ledger ==
              if id in s.commits then Finish(s.ledger, s.commits[id]) else s.ledger
  {}

  lemma NextMoves(s: System, step: Step)
    requires CallsOk(s)
    ensures AllEvolve(s.ledger, Next(s, step).ledger)
  {
    AllEvolveReflexive(s.ledger);
    match step
    case Environment(op) => ApplyMoves(s.ledger, op);
    case LateCommit(p) => FinishMoves(s.ledger, p);
    case ChecksCommit(id) => CommitLedger(s, id, true);
    case FinishesCommit(id, delivered) =>
      CommitLedger(s, id, delivered);
      if id in s.commits { FinishMoves(s.ledger, s.commits[id]); }
    case Calls(id, delivery) =>
      if id in s.workers && NextCall(s.workers[id]).Some? {
        InvokeWorks(s.ledger, s.workers[id].job, s.workers[id].token, NextCall(s.workers[id]).value);
      }
    case _ =>
  }

  /** Jobs are never removed, so prefixes that are distinct at the end always were. */
  lemma {:induction false} ExecuteMoves(s: System, steps: seq<Step>)
    requires CallsOk(s)
    ensures AllEvolve(s.ledger, Execute(s, steps).ledger)
    decreases |steps|
  {
    if |steps| == 0 {
      AllEvolveReflexive(s.ledger);
    } else {
      NextWorks(s, steps[0]);
      NextMoves(s, steps[0]);
      ExecuteMoves(Next(s, steps[0]), steps[1..]);
      AllEvolveTransitive(s.ledger, Next(s, steps[0]).ledger, Execute(s, steps).ledger);
    }
  }

  lemma {:induction false} ExecutePresence(s: System, initial: set<string>, steps: seq<Step>)
    requires CallsOk(s) && MachineOk(s, initial) && PresenceOk(s) && PrefixesDistinct(Execute(s, steps).ledger)
    ensures PresenceOk(Execute(s, steps))
    decreases |steps|
  {
    ExecuteMoves(s, steps);
    if |steps| > 0 {
      NextWorks(s, steps[0]);
      NextKeeps(s, initial, steps[0]);
      PresenceNext(s, steps[0]);
      ExecutePresence(Next(s, steps[0]), initial, steps[1..]);
    }
  }

  // ---- clean-ups that take effect ----

  /** Every `git branch -D` of a clean-up takes effect. */
  predicate DeletionsTakeEffect(steps: seq<Step>) {
    forall i :: 0 <= i < |steps| && steps[i].Locally? && steps[i].input.CleansUp? ==> steps[i].input.deletes
  }

  predicate TakesEffect(step: Step) { step.Locally? && step.input.CleansUp? ==> step.input.deletes }

  predicate NeedsWorktree(pc: Pc) { pc.AtBuild? || pc.AtBegin? || InEffect(pc) }

  /** A clean-up of a worktree without success has deleted; a made branch comes with a worktree. */
  predicate Tidy(p: Progress) {
    && (p.pc.Finished? && p.worktreeAdded ==> p.success || p.pc.deleted)
    && (NeedsWorktree(p.pc) ==> p.worktreeAdded) && (p.made ==> p.worktreeAdded)
  }

  lemma ExceptedTidy(p: Progress)
    requires Tidy(p)
    ensures Tidy(Excepted(p)) && Tidy(Crashed(p))
  {}

  lemma GateTidy(p: Progress, reply: Reply)
    requires Tidy(p) && p.pc.AtRecordGate?
    ensures Tidy(Replied(p, reply))
  {}

  lemma StartTidy(p: Progress, reply: Reply)
    requires Tidy(p) && p.pc.AtStart?
    ensures Tidy(Replied(p, reply))
  {}

  lemma HeartbeatTidy(p: Progress, reply: Reply)
    requires Tidy(p) && p.pc.AtHeartbeat?
    ensures Tidy(Replied(p, reply))
  {}

  lemma RepliedInEffect(p: Progress, reply: Reply)
    requires Tidy(p) && NeedsWorktree(p.pc)
    ensures Tidy(Replied(p, reply))
  {
    assert Excepted(p) == p.(pc := AtFail);
  }

  lemma RepliedElse(p: Progress, reply: Reply)
    requires !p.pc.AtRecordGate? && !p.pc.AtStart? && !p.pc.AtHeartbeat? && !NeedsWorktree(p.pc)
    ensures Replied(p, reply) == Excepted(p)
  {}

  lemma RepliedTidy(p: Progress, reply: Reply)
    requires Tidy(p)
    ensures Tidy(Replied(p, reply))
  {
    if p.pc.AtRecordGate? {
      GateTidy(p, reply);
    } else if p.pc.AtStart? {
      StartTidy(p, reply);
    } else if p.pc.AtHeartbeat? {
      HeartbeatTidy(p, reply);
    } else if NeedsWorktree(p.pc) {
      RepliedInEffect(p, reply);
    } else {
      RepliedElse(p, reply);
      ExceptedTidy(p);
    }
  }

  lemma CleanedTidy(p: Progress, sight: Sight, input: Input)
    requires Tidy(p) && input.CleansUp? && input.deletes
    ensures Tidy(React(p, sight, input))
  {}

  lemma SwitchedTidy(p: Progress, sight: Sight, input: Input)
    requires Tidy(p) && input.Switched?
    ensures Tidy(React(p, sight, input))
  {}

  lemma ReactTidy(p: Progress, sight: Sight, input: Input)
    requires Tidy(p) && (input.CleansUp? ==> input.deletes)
    ensures Tidy(React(p, sight, input))
  {
    match input
    case CleansUp(_, _) => CleanedTidy(p, sight, input);
    case Switched(_, _) => SwitchedTidy(p, sight, input);
    case _ => ExceptedTidy(p);
  }

  /** Whoever has deleted is in the log of clean-ups that deleted. */
  predicate IsLogged(cleanups: seq<nat>, id: nat, p: Progress) { HasDeleted(p) ==> id in cleanups }

  ghost predicate AllTidy(s: System) {
    forall id :: id in s.workers ==> Tidy(s.workers[id].at) && IsLogged(s.cleanups, id, s.workers[id].at)
  }

  lemma SetTidy(s: System, id: nat, p: Progress)
    requires AllTidy(s) && id in s.workers && Tidy(p) && IsLogged(s.cleanups, id, p)
    ensures AllTidy(Set(s, id, p))
  {}

  lemma LocalTidy(s: System, id: nat, input: Input)
    requires AllTidy(s) && id in s.workers && WellFormed(s.workers[id].at) && (input.CleansUp? ==> input.deletes)
    ensures AllTidy(LocalStep(s, id, input))
  {
    var w, sight := s.workers[id], See(s.workers[id], s.host);
    ReactTidy(w.at, sight, input);
    ReactContinues(w.at, sight, input);
    var s1 := s.(cleanups := LocalStep(s, id, input).cleanups);
    assert s.cleanups <= s1.cleanups && (Deletes(w.at, input) ==> s1.cleanups[|s.cleanups|] == id);
    SetTidy(s1, id, React(w.at, sight, input));
  }

  lemma CallTidy(s: System, id: nat, delivery: Delivery)
    requires AllTidy(s) && id in s.workers && WellFormed(s.workers[id].at)
    ensures AllTidy(CallStep(s, id, delivery))
  {
    var w := s.workers[id];
    if NextCall(w).Some? {
      ExceptedTidy(w.at);
      ExceptedContinues(w.at);
      if delivery.NotSent? {
        SetTidy(s, id, Excepted(w.at));
      } else {
        var (ledger, reply) := WorkerInvoke(s.ledger, w.job, w.token, NextCall(w).value);
        RepliedTidy(w.at, reply);
        RepliedContinues(w.at, reply);
        SetTidy(s, id, After(w.at, delivery, reply));
      }
    }
  }

  lemma CheckTidy(s: System, id: nat)
    requires AllTidy(s) && id in s.workers && WellFormed(s.workers[id].at)
    ensures AllTidy(CheckStep(s, id))
  {
    var p := s.workers[id].at;
    if p.pc.AtCommitEffect? {
      ExceptedTidy(p);
      ExceptedContinues(p);
      SetTidy(s, id, Excepted(p));
      SetTidy(s.(commits := CheckStep(s, id).commits), id, p.(pc := AwaitCommit(p.pc.head)));
    }
  }

  lemma ToldTidy(p: Progress, delivered: bool, reply: Reply)
    requires Tidy(p) && WellFormed(p)
    ensures Tidy(Told(p, delivered, reply)) && (HasDeleted(Told(p, delivered, reply)) ==> HasDeleted(p))
  {
    ExceptedTidy(p);
    ExceptedContinues(p);
    RepliedTidy(p, reply);
  }

  lemma FinishTidy(s: System, id: nat, delivered: bool)
    requires AllTidy(s) && AllBacked(s)
    ensures AllTidy(FinishStep(s, id, delivered))
  {
    if id in s.commits && id in s.workers {
      var reply := CommitReply(s.ledger, s.commits[id]);
      ToldTidy(s.workers[id].at, delivered, reply);
      SetTidy(s, id, Told(s.workers[id].at, delivered, reply));
    }
  }

  lemma OtherTidy(s: System, step: Step)
    requires AllTidy(s) && (step.Environment? || step.LateCommit? || step.Spawn?)
    ensures AllTidy(Next(s, step))
  {}

  lemma NextTidy(s: System, step: Step)
    requires AllTidy(s) && AllBacked(s) && TakesEffect(step)
    ensures AllTidy(Next(s, step))
  {
    match step
    case Locally(id, input) => if id in s.workers { LocalTidy(s, id, input); }
    case Calls(id, delivery) => if id in s.workers { CallTidy(s, id, delivery); }
    case ChecksCommit(id) => if id in s.workers { CheckTidy(s, id); }
    case FinishesCommit(id, delivered) => FinishTidy(s, id, delivered);
    case Crash(id) =>
      if id in s.workers {
        ExceptedTidy(s.workers[id].at);
        SetTidy(s, id, Crashed(s.workers[id].at));
      }
    case _ => OtherTidy(s, step);
  }

  lemma {:induction false} ExecuteTidy(s: System, steps: seq<Step>)
    requires CallsOk(s) && AllTidy(s) && DeletionsTakeEffect(steps)
    ensures AllTidy(Execute(s, steps))
    decreases |steps|
  {
    if |steps| > 0 {
      NextWorks(s, steps[0]);
      assert TakesEffect(steps[0]);
      NextTidy(s, steps[0]);
      assert forall i :: 0 <= i < |steps| - 1 ==> steps[1..][i] == steps[i + 1];
      ExecuteTidy(Next(s, steps[0]), steps[1..]);
    }
  }

  // ---- when a succeeded job still has its branch ----

  lemma RunWorks(start: Time, host: Host, steps: seq<Step>)
    ensures var s := Execute(Initial(start, host), steps); AllBacked(s) && DirsOk(s) && HistoryOk(s)
  {
    ExecuteWorks(Initial(start, host), host.branches, steps);
  }

  lemma RunPresence(start: Time, host: Host, steps: seq<Step>)
    requires PrefixesDistinct(Execute(Initial(start, host), steps).ledger)
    ensures PresenceOk(Execute(Initial(start, host), steps))
  {
    ExecutePresence(Initial(start, host), host.branches, steps);
  }

  lemma RunTidy(start: Time, host: Host, steps: seq<Step>)
    requires DeletionsTakeEffect(steps)
    ensures AllTidy(Execute(Initial(start, host), steps))
  {
    ExecuteTidy(Initial(start, host), steps);
  }

  /** Another worker of the job of worker `id` has deleted the branch by its
      clean-up since worker `id` made it. */
  predicate DeletedByOther(s: System, id: nat)
    requires id in s.workers && id in s.madeAt
  {
    exists i :: s.madeAt[id] <= i < |s.cleanups| && s.cleanups[i] != id
      && s.cleanups[i] in s.workers && s.workers[s.cleanups[i]].job == s.workers[id].job
  }

  lemma WhoDeleted(s: System, id: nat)
    requires HistoryOk(s) && id in s.workers && id in s.madeAt
    ensures DeletedSince(s, s.madeAt[id], s.workers[id].job) <==> HasDeleted(s.workers[id].at) || DeletedByOther(s, id)
  {}

  lemma CreditKeepsBranch(s: System, j: JobId)
    requires AllBacked(s) && HistoryOk(s) && PresenceOk(s) && j in s.ledger.recs && Credited(s, j)
    ensures s.completedBy[j] in s.madeAt && s.workers[s.completedBy[j]].at.made
    ensures Branch(j) in s.host.branches <==>
              !HasDeleted(s.workers[s.completedBy[j]].at) && !DeletedByOther(s, s.completedBy[j])
  {
    var id := s.completedBy[j];
    assert WellFormed(s.workers[id].at) && Lasts(s, id);
    WhoDeleted(s, id);
  }

  /** Where clean-ups may fail to delete: the branch of a succeeded job is there
      until the worker that completed it, or another one, does delete it. */
  lemma SucceededUntilDeleted(start: Time, host: Host, steps: seq<Step>, j: JobId)
    requires AllConfined(Initial(start, host), steps)
    requires var s := Execute(Initial(start, host), steps);
             Succeeds(s.ledger, j) && PrefixesDistinct(s.ledger)
    ensures var s := Execute(Initial(start, host), steps);
            && j in s.completedBy && s.completedBy[j] in s.workers && s.completedBy[j] in s.madeAt && (
            var w := s.workers[s.completedBy[j]];
            && w.job == j && w.at.made && WellFormed(w.at)
            && (Branch(j) in s.host.branches <==> !HasDeleted(w.at) && !DeletedByOther(s, s.completedBy[j])))
  {
    RunCredits(start, host, steps, j);
    RunWorks(start, host, steps);
    RunPresence(start, host, steps);
    CreditKeepsBranch(Execute(Initial(start, host), steps), j);
  }

  /** A worker that made its branch has deleted it exactly if it ran its clean-up without success. */
  lemma DeletedIsCleanedUp(p: Progress)
    requires WellFormed(p) && Tidy(p) && p.made
    ensures HasDeleted(p) <==> p.pc.Finished? && !p.success
  {}

  /** When a succeeded job still has its branch: exactly when the worker that
      completed it got the reply or never got to its clean-up, and no other worker
      of the job has deleted the branch by its clean-up since it was made. */
  lemma SucceededKeepsBranch(start: Time, host: Host, steps: seq<Step>, j: JobId)
    requires AllConfined(Initial(start, host), steps) && DeletionsTakeEffect(steps)
    requires var s := Execute(Initial(start, host), steps);
             Succeeds(s.ledger, j) && PrefixesDistinct(s.ledger)
    ensures var s := Execute(Initial(start, host), steps);
            && j in s.completedBy && s.completedBy[j] in s.workers && s.completedBy[j] in s.madeAt && (
            var w := s.workers[s.completedBy[j]];
            && w.job == j && w.at.made
            && (Branch(j) in s.host.branches <==>
                  (w.at.success || !w.at.pc.Finished?) && !DeletedByOther(s, s.completedBy[j])))
  {
    SucceededUntilDeleted(start, host, steps, j);
    RunTidy(start, host, steps);
    var s := Execute(Initial(start, host), steps);
    DeletedIsCleanedUp(s.workers[s.completedBy[j]].at);
  }

  /** Who is in the log: the workers that had a worktree and ran their clean-up without success. */
  lemma CleanUpsAreLogged(start: Time, host: Host, steps: seq<Step>, id: nat)
    requires DeletionsTakeEffect(steps)
    ensures var s := Execute(Initial(start, host), steps);
            id in s.cleanups <==>
              id in s.workers && (
              var p := s.workers[id].at;
              p.pc.Finished? && p.worktreeAdded && !p.success)
  {
    RunTidy(start, host, steps);
    RunWorks(start, host, steps);
    LogIsExact(Execute(Initial(start, host), steps), id);
  }

  lemma LogIsExact(s: System, id: nat)
    requires AllTidy(s) && AllBacked(s) && HistoryOk(s)
    ensures id in s.cleanups <==> id in s.workers && HasDeleted(s.workers[id].at)
    ensures id in s.workers ==>
              var p := s.workers[id].at;
              HasDeleted(p) <==> p.pc.Finished? && p.worktreeAdded && !p.success
  {
    if id in s.cleanups {
      var i :| 0 <= i < |s.cleanups| && s.cleanups[i] == id;
    }
    if id in s.workers { assert WellFormed(s.workers[id].at) && Tidy(s.workers[id].at); }
  }

  lemma OneDeletesPerDir(s: System, a: nat, b: nat)
    requires AllBacked(s) && DirsOk(s) && a in s.workers && b in s.workers && a != b
    requires s.workers[a].job == s.workers[b].job
        && s.workers[a].config.evidenceRoot == s.workers[b].config.evidenceRoot
    requires s.workers[a].at.made
    ensures !HasDeleted(s.workers[b].at)
  {
    assert WellFormed(s.workers[a].at) && WellFormed(s.workers[b].at);
    assert s.workers[a].at.ownsDir && EvidenceDir(s.workers[a]) == EvidenceDir(s.workers[b]);
  }

  /** A worker whose evidence root is the same cannot be that other worker: the
      check for leftovers lets only one worker per evidence directory get that far. */
  lemma SharedRootIsSafe(start: Time, host: Host, steps: seq<Step>, a: nat, b: nat)
    requires var s := Execute(Initial(start, host), steps);
             && a in s.workers && b in s.workers && a != b && s.workers[a].job == s.workers[b].job
             && s.workers[a].config.evidenceRoot == s.workers[b].config.evidenceRoot && s.workers[a].at.made
    ensures !HasDeleted(Execute(Initial(start, host), steps).workers[b].at)
    ensures b !in Execute(Initial(start, host), steps).cleanups
  {
    RunWorks(start, host, steps);
    OneDeletesPerDir(Execute(Initial(start, host), steps), a, b);
  }

  /** So where all workers of the job share the evidence root, the branch is there
      exactly when the worker that completed the job got the reply or never got to its clean-up. */
  lemma SharedRootKeepsBranch(start: Time, host: Host, steps: seq<Step>, j: JobId, root: string)
    requires AllConfined(Initial(start, host), steps) && DeletionsTakeEffect(steps)
    requires var s := Execute(Initial(start, host), steps);
             && Succeeds(s.ledger, j) && PrefixesDistinct(s.ledger)
             && forall id :: id in s.workers && s.workers[id].job == j ==> s.workers[id].config.evidenceRoot == root
    ensures var s := Execute(Initial(start, host), steps);
            && j in s.completedBy && s.completedBy[j] in s.workers && (
            var w := s.workers[s.completedBy[j]];
            Branch(j) in s.host.branches <==> w.at.success || !w.at.pc.Finished?)
  {
    SucceededKeepsBranch(start, host, steps, j);
    var s := Execute(Initial(start, host), steps);
    var id := s.completedBy[j];
    if DeletedByOther(s, id) {
      var i :| s.madeAt[id] <= i < |s.cleanups| && s.cleanups[i] != id
        && s.cleanups[i] in s.workers && s.workers[s.cleanups[i]].job == s.workers[id].job;
      SharedRootIsSafe(start, host, steps, id, s.cleanups[i]);
    }
  }
}
