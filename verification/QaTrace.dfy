/** What QA coordinators are and have done, traced back to the steps of the run. */
module QaTrace {
  import opened Basics
  import opened LedgerTypes
  import opened LedgerSpec
  import opened LedgerInvariant
  import opened LedgerRuns
  import opened LedgerSplitCommit
  import opened LedgerClients
  import opened QaProfiles
  import opened QaCoordinator
  import opened QaSafety
  import opened QaAgreement
  import BoundedCollector
  import LedgerColumns

  ghost function StateAt(digest: Digest, start: Time, steps: seq<Step>, i: nat): System
    requires i <= |steps|
  {
    Execute(digest, Initial(start), steps[..i])
  }

  lemma {:induction false} ExecuteSnoc(digest: Digest, s: System, steps: seq<Step>, step: Step)
    ensures Execute(digest, s, steps + [step]) == Next(digest, Execute(digest, s, steps), step)
    decreases |steps|
  {
    if |steps| > 0 {
      assert (steps + [step])[1..] == steps[1..] + [step];
      ExecuteSnoc(digest, Next(digest, s, steps[0]), steps[1..], step);
    } else {
      assert steps + [step] == [step];
      assert [step][1..] == [];
      assert Execute(digest, s, [step]) == Execute(digest, Next(digest, s, step), []);
    }
  }

  /** The last step of a run. */
  lemma ExecuteOneMore(digest: Digest, s: System, before: seq<Step>, step: Step, steps: seq<Step>)
    requires steps == before + [step]
    ensures Execute(digest, s, steps) == Next(digest, Execute(digest, s, before), step)
  {
    ExecuteSnoc(digest, s, before, step);
  }

  /** Step `i` is an outcome of coordinator `id`, met where `at` holds. */
  ghost predicate MetAt(digest: Digest, start: Time, steps: seq<Step>, id: nat, choice: Choice, at: Pc -> bool,
                        i: nat) {
    && i < |steps| && steps[i] == Locally(id, choice)
    && (var s := StateAt(digest, start, steps, i); id in s.coordinators && at(s.coordinators[id].pc))
  }

  /** At some step coordinator `id`, where `at` holds, met this outcome. */
  ghost predicate Met(digest: Digest, start: Time, steps: seq<Step>, id: nat, choice: Choice, at: Pc -> bool) {
    exists i: nat :: MetAt(digest, start, steps, id, choice, at, i)
  }

  lemma MetEarlier(digest: Digest, start: Time, steps: seq<Step>, n: nat, id: nat, choice: Choice, at: Pc -> bool)
    requires n <= |steps| && Met(digest, start, steps[..n], id, choice, at)
    ensures Met(digest, start, steps, id, choice, at)
  {
    var i: nat :| MetAt(digest, start, steps[..n], id, choice, at, i);
    assert steps[..n][..i] == steps[..i];
    assert MetAt(digest, start, steps, id, choice, at, i);
  }

  lemma MetLast(digest: Digest, start: Time, steps: seq<Step>, id: nat, choice: Choice, at: Pc -> bool)
    requires |steps| > 0 && steps[|steps| - 1] == Locally(id, choice)
    requires var s := StateAt(digest, start, steps, |steps| - 1);
             id in s.coordinators && at(s.coordinators[id].pc)
    ensures Met(digest, start, steps, id, choice, at)
  {
    assert MetAt(digest, start, steps, id, choice, at, |steps| - 1);
  }

  const AT_GATE: Pc -> bool := (pc: Pc) => pc.AtGate?
  const AT_ADMISSION: Pc -> bool := (pc: Pc) => pc.AtAdmission?
  const IN_SANDBOX: Pc -> bool := (pc: Pc) => pc.InSandbox?

  /** The gate allowed, if the coordinator has got that far. */
  predicate PastGate(c: Coordinator) { c.pc.AtStart? || c.started }

  /** What the steps so far must contain, given what the coordinator is. */
  ghost predicate Explained(digest: Digest, start: Time, steps: seq<Step>, id: nat, c: Coordinator) {
    && (c.pc.AtRecordGate? ==> Met(digest, start, steps, id, GateAnswers(c.pc.decision, c.pc.evidence), AT_GATE))
    && (PastGate(c) ==> exists e :: Met(digest, start, steps, id, GateAnswers(Allow, e), AT_GATE))
    && (c.admitted.Some? ==> Met(digest, start, steps, id, Admission(c.admitted.value), AT_ADMISSION))
    && (c.pc.AtCommit? || c.pc.AwaitCommit? ==> Met(digest, start, steps, id, SandboxReturns(c.pc.result), IN_SANDBOX))
    && forall i :: 0 <= i < |c.results| ==> Met(digest, start, steps, id, SandboxReturns(c.results[i]), IN_SANDBOX)
  }

  lemma ExplainedEarlier(digest: Digest, start: Time, steps: seq<Step>, n: nat, id: nat, c: Coordinator)
    requires n <= |steps| && Explained(digest, start, steps[..n], id, c)
    ensures Explained(digest, start, steps, id, c)
  {
    if c.pc.AtRecordGate? {
      MetEarlier(digest, start, steps, n, id, GateAnswers(c.pc.decision, c.pc.evidence), AT_GATE);
    }
    if PastGate(c) {
      var e :| Met(digest, start, steps[..n], id, GateAnswers(Allow, e), AT_GATE);
      MetEarlier(digest, start, steps, n, id, GateAnswers(Allow, e), AT_GATE);
    }
    if c.admitted.Some? { MetEarlier(digest, start, steps, n, id, Admission(c.admitted.value), AT_ADMISSION); }
    if c.pc.AtCommit? || c.pc.AwaitCommit? {
      MetEarlier(digest, start, steps, n, id, SandboxReturns(c.pc.result), IN_SANDBOX);
    }
    forall i | 0 <= i < |c.results|
      ensures Met(digest, start, steps, id, SandboxReturns(c.results[i]), IN_SANDBOX)
    {
      MetEarlier(digest, start, steps, n, id, SandboxReturns(c.results[i]), IN_SANDBOX);
    }
  }

  // ---- one step of one coordinator ----

  /** Nothing new that would need an explanation. */
  predicate Follows(c: Coordinator, c': Coordinator) {
    && (c'.pc.AtRecordGate? ==> c'.pc == c.pc)
    && (PastGate(c') ==> PastGate(c) || (c.pc.AtRecordGate? && c.pc.decision == Allow))
    && c'.admitted == c.admitted
    && (c'.pc.AtCommit? ==> c'.pc == c.pc)
    && (c'.pc.AwaitCommit? ==> c'.pc == c.pc || (c.pc.AtCommit? && c.pc.result == c'.pc.result))
    && (c'.results == c.results || (c.pc.AwaitCommit? && c'.results == c.results + [c.pc.result]))
  }

  lemma FollowsExplained(digest: Digest, start: Time, steps: seq<Step>, id: nat, c: Coordinator, c': Coordinator)
    requires Explained(digest, start, steps, id, c) && Follows(c, c')
    ensures Explained(digest, start, steps, id, c')
  {
    forall i | 0 <= i < |c'.results|
      ensures Met(digest, start, steps, id, SandboxReturns(c'.results[i]), IN_SANDBOX)
    {
      if i < |c.results| { assert c'.results[i] == c.results[i]; }
    }
  }

  lemma ExceptedFollows(c: Coordinator)
    ensures Follows(c, Excepted(c)) && Follows(c, c.(pc := Gone)) && Excepted(c).clean == c.clean
  {}

  lemma RepliedFollows(c: Coordinator, reply: Reply)
    ensures Follows(c, Replied(c, reply)) && Replied(c, reply).clean == c.clean
  {
    ExceptedFollows(c);
  }

  /** The outcomes that do need one are those recorded. */
  lemma LocalExplained(digest: Digest, start: Time, steps: seq<Step>, id: nat, choice: Choice)
    requires |steps| > 0 && steps[|steps| - 1] == Locally(id, choice)
    requires var s := StateAt(digest, start, steps, |steps| - 1);
             id in s.coordinators && Explained(digest, start, steps, id, s.coordinators[id])
    ensures var c := StateAt(digest, start, steps, |steps| - 1).coordinators[id];
            Explained(digest, start, steps, id, Local(c, choice))
  {
    var c := StateAt(digest, start, steps, |steps| - 1).coordinators[id];
    if c.pc.AtGate? && choice.GateAnswers? {
      MetLast(digest, start, steps, id, choice, AT_GATE);
    } else if c.pc.AtAdmission? && choice.Admission? {
      MetLast(digest, start, steps, id, choice, AT_ADMISSION);
    } else if c.pc.InSandbox? && choice.SandboxReturns? {
      MetLast(digest, start, steps, id, choice, IN_SANDBOX);
    } else {
      OtherwiseFollows(c, choice);
      FollowsExplained(digest, start, steps, id, c, Local(c, choice));
    }
  }

  lemma OtherwiseFollows(c: Coordinator, choice: Choice)
    requires !(c.pc.AtGate? && choice.GateAnswers?) && !(c.pc.AtAdmission? && choice.Admission?)
    requires !(c.pc.InSandbox? && choice.SandboxReturns?)
    ensures Follows(c, Local(c, choice))
  {
    ExceptedFollows(c);
  }

  // ---- the run ----

  lemma StepFollows(digest: Digest, s: System, step: Step, id: nat)
    requires id in s.coordinators && !(step.Locally? && step.id == id)
    ensures id in Next(digest, s, step).coordinators
    ensures Follows(s.coordinators[id], Next(digest, s, step).coordinators[id])
    ensures Next(digest, s, step).coordinators[id].clean == s.coordinators[id].clean
  {
    match step
    case Calls(a, delivery) => if a in s.coordinators { CallFollows(s, a, delivery, id); }
    case ChecksCommit(a) => if a in s.coordinators { CheckFollows(digest, s, a, id); }
    case FinishesCommit(a, delivered) => FinishFollows(s, a, delivered, id);
    case Locally(a, choice) =>
      if a in s.coordinators { assert LocalStep(s, a, choice).coordinators[id] == s.coordinators[id]; }
    case Crash(a) => ExceptedFollows(s.coordinators[id]);
    case _ =>
  }

  lemma CallFollows(s: System, a: nat, delivery: Delivery, id: nat)
    requires a in s.coordinators && id in s.coordinators
    ensures id in CallStep(s, a, delivery).coordinators
    ensures Follows(s.coordinators[id], CallStep(s, a, delivery).coordinators[id])
    ensures CallStep(s, a, delivery).coordinators[id].clean == s.coordinators[id].clean
  {
    var c := s.coordinators[id];
    ExceptedFollows(c);
    if a == id && NextCall(c).Some? {
      var (ledger, reply) := QaInvoke(s.ledger, c.job, c.token, NextCall(c).value);
      RepliedFollows(c, reply);
    }
  }

  lemma CheckFollows(digest: Digest, s: System, a: nat, id: nat)
    requires a in s.coordinators && id in s.coordinators
    ensures id in CheckStep(digest, s, a).coordinators
    ensures Follows(s.coordinators[id], CheckStep(digest, s, a).coordinators[id])
    ensures CheckStep(digest, s, a).coordinators[id].clean == s.coordinators[id].clean
  {
    CheckIs(digest, s, a);
    ExceptedFollows(s.coordinators[id]);
  }

  lemma FinishFollows(s: System, a: nat, delivered: bool, id: nat)
    requires id in s.coordinators
    ensures id in FinishStep(s, a, delivered).coordinators
    ensures Follows(s.coordinators[id], FinishStep(s, a, delivered).coordinators[id])
    ensures FinishStep(s, a, delivered).coordinators[id].clean == s.coordinators[id].clean
  {
    var c := s.coordinators[id];
    ExceptedFollows(c);
    if a in s.commits { RepliedFollows(c, CommitReply(s.ledger, s.commits[a])); }
  }

  lemma LocalIsLocal(s: System, id: nat, choice: Choice)
    requires id in s.coordinators
    ensures LocalStep(s, id, choice).coordinators[id] == Local(s.coordinators[id], choice)
  {}

  lemma SpawnedIsFresh(digest: Digest, s: System, step: Step, id: nat)
    requires id !in s.coordinators && id in Next(digest, s, step).coordinators
    ensures var c := Next(digest, s, step).coordinators[id]; c == Fresh(c.job, c.token, c.config, c.required)
  {}

  /** In every run every coordinator is what its steps have made of it. */
  lemma {:induction false} RunExplained(digest: Digest, start: Time, steps: seq<Step>, id: nat)
    requires id in Execute(digest, Initial(start), steps).coordinators
    ensures Explained(digest, start, steps, id, Execute(digest, Initial(start), steps).coordinators[id])
    decreases |steps|
  {
    if |steps| > 0 {
      var n := |steps| - 1;
      var s, step := StateAt(digest, start, steps, n), steps[n];
      ExecuteOneMore(digest, Initial(start), steps[..n], steps[n], steps);
      if id in s.coordinators {
        RunExplained(digest, start, steps[..n], id);
        ExplainedEarlier(digest, start, steps, n, id, s.coordinators[id]);
        if step.Locally? && step.id == id {
          LocalExplained(digest, start, steps, id, step.choice);
          LocalIsLocal(s, id, step.choice);
        } else {
          StepFollows(digest, s, step, id);
          FollowsExplained(digest, start, steps, id, s.coordinators[id], Next(digest, s, step).coordinators[id]);
        }
      } else {
        SpawnedIsFresh(digest, s, step, id);
      }
    }
  }

  const AT_CHECK: Pc -> bool := (pc: Pc) => pc.AtCheck?

  /** How often coordinator `id`, at the check after a profile, found the clone clean. */
  ghost function CleanFinds(digest: Digest, start: Time, steps: seq<Step>, id: nat): nat
    decreases |steps|
  {
    if |steps| == 0 then 0
    else CleanFinds(digest, start, steps[..|steps| - 1], id)
         + if MetAt(digest, start, steps, id, CloneIsClean, AT_CHECK, |steps| - 1) then 1 else 0
  }

  lemma StepClean(digest: Digest, s: System, step: Step, id: nat)
    requires id in s.coordinators
    ensures id in Next(digest, s, step).coordinators
    ensures Next(digest, s, step).coordinators[id].clean == s.coordinators[id].clean
              + if step == Locally(id, CloneIsClean) && s.coordinators[id].pc.AtCheck? then 1 else 0
  {
    if step.Locally? && step.id == id {
      LocalIsLocal(s, id, step.choice);
      LocalClean(s.coordinators[id], step.choice);
    } else {
      StepFollows(digest, s, step, id);
    }
  }

  lemma LocalClean(c: Coordinator, choice: Choice)
    ensures Local(c, choice).clean == c.clean + if choice.CloneIsClean? && c.pc.AtCheck? then 1 else 0
  {}

  lemma {:induction false} RunClean(digest: Digest, start: Time, steps: seq<Step>, id: nat)
    ensures var s := Execute(digest, Initial(start), steps);
            CleanFinds(digest, start, steps, id) == if id in s.coordinators then s.coordinators[id].clean else 0
    decreases |steps|
  {
    if |steps| > 0 {
      var n := |steps| - 1;
      var s := StateAt(digest, start, steps, n);
      ExecuteOneMore(digest, Initial(start), steps[..n], steps[n], steps);
      RunClean(digest, start, steps[..n], id);
      assert steps[..n] == steps[..n][..n];
      if id in s.coordinators {
        StepClean(digest, s, steps[n], id);
      } else if id in Next(digest, s, steps[n]).coordinators {
        SpawnedIsFresh(digest, s, steps[n], id);
      }
    }
  }

  lemma RunWellFormed(digest: Digest, start: Time, steps: seq<Step>)
    ensures OnceInv(Execute(digest, Initial(start), steps))
  {
    ExecuteOnce(digest, Initial(start), steps);
  }

  // ---- what follows ----

  /** No candidate code runs unadmitted: whoever has entered the sandbox had its
      admission verified, and its gate had allowed. */
  lemma EntriesAreAdmitted(digest: Digest, start: Time, steps: seq<Step>, e: Entry)
    requires e in Execute(digest, Initial(start), steps).entries
    ensures Met(digest, start, steps, e.coordinator, Admission(true), AT_ADMISSION)
    ensures exists evidence :: Met(digest, start, steps, e.coordinator, GateAnswers(Allow, evidence), AT_GATE)
  {
    RunWellFormed(digest, start, steps);
    RunExplained(digest, start, steps, e.coordinator);
    var s := Execute(digest, Initial(start), steps);
    assert EntryOk(s.ledger, e, s.coordinators[e.coordinator]) && WellFormed(s.coordinators[e.coordinator]);
  }

  /** On the reject path is only whose admission failed. */
  lemma RejectedWasNotAdmitted(digest: Digest, start: Time, steps: seq<Step>, id: nat)
    requires var s := Execute(digest, Initial(start), steps); id in s.coordinators && s.coordinators[id].pc.AtReject?
    ensures Met(digest, start, steps, id, Admission(false), AT_ADMISSION)
  {
    RunWellFormed(digest, start, steps);
    RunExplained(digest, start, steps, id);
    assert WellFormed(Execute(digest, Initial(start), steps).coordinators[id]);
  }

  /** A verified admission leads to the selection, a failed one to the reject path. */
  lemma AdmissionDecides(digest: Digest, start: Time, steps: seq<Step>, id: nat, verified: bool)
    requires var s := Execute(digest, Initial(start), steps); id in s.coordinators && s.coordinators[id].pc.AtAdmission?
    ensures var s' := Execute(digest, Initial(start), steps + [Locally(id, Admission(verified))]);
            id in s'.coordinators && s'.coordinators[id].pc == (if verified then AtSelect else AtReject)
  {
    ExecuteSnoc(digest, Initial(start), steps, Locally(id, Admission(verified)));
  }

  /** In confined runs a succeeded QA job recorded as a rejection was completed by a
      coordinator whose admission had failed; one recorded as passed or failed by
      one whose admission was verified, whose every result the sandbox returned,
      and which found the clone clean after each of them. */
  lemma RecordedAsAdmitted(digest: Digest, start: Time, steps: seq<Step>, j: JobId)
    requires AllConfined(digest, Initial(start), steps)
    requires Succeeds(Execute(digest, Initial(start), steps).ledger, j)
    ensures var s := Execute(digest, Initial(start), steps);
            && j in s.completedBy && s.completedBy[j] in s.coordinators && (
            var id, result := s.completedBy[j], s.ledger.recs[j].row.result;
            var c := s.coordinators[id];
            || (result == Some(map["qa_status" := "reject", "promotion_authorized" := "false"])
                && Met(digest, start, steps, id, Admission(false), AT_ADMISSION))
            || (result in {Some(map["qa_status" := "qa_passed", "promotion_authorized" := "false"]),
                           Some(map["qa_status" := "qa_failed", "promotion_authorized" := "false"])}
                && Met(digest, start, steps, id, Admission(true), AT_ADMISSION)
                && CleanFinds(digest, start, steps, id) == |c.results|
                && forall i :: 0 <= i < |c.results| ==>
                     Met(digest, start, steps, id, SandboxReturns(c.results[i]), IN_SANDBOX)))
  {
    SucceededAgrees(digest, start, steps, j);
    RunExplained(digest, start, steps, Execute(digest, Initial(start), steps).completedBy[j]);
    RunClean(digest, start, steps, Execute(digest, Initial(start), steps).completedBy[j]);
  }

  // ---- failures ----

  /** Step `i` is a crash of coordinator `id`, or finds it in its exception handler. */
  ghost predicate EndsAt(digest: Digest, start: Time, steps: seq<Step>, id: nat, i: nat) {
    && i < |steps|
    && (steps[i] == Crash(id)
        || (var s := StateAt(digest, start, steps, i); id in s.coordinators && s.coordinators[id].pc.AtFail?))
  }

  predicate Vanished(c: Coordinator) { c.started && c.pc.Gone? }

  lemma ExceptedVanishes(c: Coordinator)
    ensures Vanished(Excepted(c)) ==> Vanished(c) || c.pc.AtFail?
  {}

  lemma RepliedVanishes(c: Coordinator, reply: Reply)
    ensures Vanished(Replied(c, reply)) ==> Vanished(c) || c.pc.AtFail?
  {
    ExceptedVanishes(c);
  }

  lemma LocalVanishes(c: Coordinator, choice: Choice)
    ensures Vanished(Local(c, choice)) ==> Vanished(c) || c.pc.AtFail?
  {
    ExceptedVanishes(c);
  }

  lemma StepVanishes(digest: Digest, s: System, step: Step, id: nat)
    requires id in s.coordinators
    ensures id in Next(digest, s, step).coordinators
    ensures Vanished(Next(digest, s, step).coordinators[id]) ==>
              Vanished(s.coordinators[id]) || s.coordinators[id].pc.AtFail? || step == Crash(id)
  {
    var c := s.coordinators[id];
    ExceptedVanishes(c);
    match step
    case Locally(a, choice) => if a == id { LocalVanishes(c, choice); LocalIsLocal(s, id, choice); }
    case Calls(a, delivery) => if a in s.coordinators { CallVanishes(s, a, delivery, id); }
    case ChecksCommit(a) => if a in s.coordinators { CheckIs(digest, s, a); }
    case FinishesCommit(a, delivered) =>
      if a in s.commits { RepliedVanishes(c, CommitReply(s.ledger, s.commits[a])); }
    case _ =>
  }

  lemma CallVanishes(s: System, a: nat, delivery: Delivery, id: nat)
    requires a in s.coordinators && id in s.coordinators
    ensures id in CallStep(s, a, delivery).coordinators
    ensures Vanished(CallStep(s, a, delivery).coordinators[id]) ==>
              Vanished(s.coordinators[id]) || s.coordinators[id].pc.AtFail?
  {
    var c := s.coordinators[id];
    ExceptedVanishes(c);
    if a == id && NextCall(c).Some? {
      var (ledger, reply) := QaInvoke(s.ledger, c.job, c.token, NextCall(c).value);
      RepliedVanishes(c, reply);
    }
  }

  /** A coordinator that has started its job never just ends: it finishes, crashes,
      or goes through its handler, where it reports the failure. */
  lemma {:induction false} FailuresAreHandled(digest: Digest, start: Time, steps: seq<Step>, id: nat)
    requires var s := Execute(digest, Initial(start), steps);
             id in s.coordinators && s.coordinators[id].started && s.coordinators[id].pc.Gone?
    ensures exists i: nat :: EndsAt(digest, start, steps, id, i)
    decreases |steps|
  {
    if |steps| > 0 {
      var n := |steps| - 1;
      var s, step := StateAt(digest, start, steps, n), steps[n];
      ExecuteOneMore(digest, Initial(start), steps[..n], step, steps);
      if id in s.coordinators {
        StepVanishes(digest, s, step, id);
        if Vanished(s.coordinators[id]) {
          FailuresAreHandled(digest, start, steps[..n], id);
          var i: nat :| EndsAt(digest, start, steps[..n], id, i);
          assert steps[..n][..i] == steps[..i];
          assert EndsAt(digest, start, steps, id, i);
        } else {
          assert EndsAt(digest, start, steps, id, n);
        }
      } else {
        SpawnedIsFresh(digest, s, step, id);
      }
    }
  }

  lemma FailCallIs(s: System, id: nat)
    requires id in s.coordinators && s.coordinators[id].pc.AtFail? && IsQa(s.ledger, s.coordinators[id].job)
    ensures var c := s.coordinators[id];
            CallStep(s, id, Delivered).ledger
              == InvokeAnswer(s.ledger, c.job, c.token,
                              Fail("b034_qa_failed", "", true, c.config.retryDelaySeconds, QA_ACTOR)).0
    ensures CallStep(s, id, Delivered).coordinators[id].pc == Gone
  {
    var c := s.coordinators[id];
    assert NextCall(c).Some?;
    assert Wrapped(c.job, NextCall(c).value)
        == Some(Fail("b034_qa_failed", "", true, c.config.retryDelaySeconds, QA_ACTOR));
  }

  /** What the report does while the lease lasts: a job without effects is retried
      after the configured delay within its budget, one with effects is quarantined. */
  lemma ReportedFailure(s: System, id: nat)
    requires Safe(s.ledger) && id in s.coordinators && s.coordinators[id].pc.AtFail?
    requires IsQa(s.ledger, s.coordinators[id].job)
    requires LedgerColumns.HeldBy(s.ledger.now, s.ledger.recs[s.coordinators[id].job], s.coordinators[id].token)
    ensures var c, s' := s.coordinators[id], CallStep(s, id, Delivered);
            && s'.coordinators[id].pc == Gone && c.job in s'.ledger.recs
            && LedgerColumns.Reported(s.ledger.now, s.ledger.recs[c.job], "b034_qa_failed", c.config.retryDelaySeconds,
                                      s'.ledger.recs[c.job].row)
  {
    var c := s.coordinators[id];
    FailCallIs(s, id);
    assert SafeRecord(s.ledger.recs[c.job]);
    LedgerColumns.ReportGoesThrough(s.ledger, c.job, c.token, "b034_qa_failed", c.config.retryDelaySeconds, QA_ACTOR);
  }

  // ---- what a reply does ----

  lemma RaisedIsExcepted(c: Coordinator)
    ensures Replied(c, Raised) == Excepted(c)
  {}

  lemma CallExcepts(s: System, id: nat, delivery: Delivery)
    requires id in s.coordinators && NextCall(s.coordinators[id]).Some?
    requires var c := s.coordinators[id];
             delivery.Delivered? ==> QaInvoke(s.ledger, c.job, c.token, NextCall(c).value).1 == Raised
    ensures CallStep(s, id, delivery).coordinators[id] == Excepted(s.coordinators[id])
  {
    RaisedIsExcepted(s.coordinators[id]);
  }

  /** A call that raises, is not sent, or whose reply is lost ends the course of the
      coordinator: in its handler if the job has started, otherwise at once. */
  lemma RefusedCall(s: System, id: nat, delivery: Delivery)
    requires id in s.coordinators && NextCall(s.coordinators[id]).Some?
    requires var c := s.coordinators[id];
             delivery.Delivered? ==> QaInvoke(s.ledger, c.job, c.token, NextCall(c).value).1 == Raised
    ensures var c := s.coordinators[id];
            CallStep(s, id, delivery).coordinators[id].pc == if c.started && !c.pc.AtFail? then AtFail else Gone
  {
    CallExcepts(s, id, delivery);
    assert NextCall(s.coordinators[id]).Some?;
  }

  lemma HeartbeatCallIs(s: System, id: nat)
    requires id in s.coordinators && s.coordinators[id].pc.AtHeartbeat? && IsQa(s.ledger, s.coordinators[id].job)
    ensures var c, s' := s.coordinators[id], CallStep(s, id, Delivered);
            var (ledger, reply) := InvokeAnswer(s.ledger, c.job, c.token, Heartbeat(c.config.heartbeatSeconds));
            s'.ledger == ledger && (reply.LeaseUntil? ==> s'.coordinators[id].pc == AtAdmission)
  {
    var c := s.coordinators[id];
    assert NextCall(c) == Some(QaHeartbeat(c.config.heartbeatSeconds));
    assert Wrapped(c.job, NextCall(c).value) == Some(Heartbeat(c.config.heartbeatSeconds));
  }

  /** The heartbeat prolongs the lease by the configured time, and then the admission comes. */
  lemma HeartbeatTaken(s: System, id: nat)
    requires id in s.coordinators && s.coordinators[id].pc.AtHeartbeat? && IsQa(s.ledger, s.coordinators[id].job)
    requires RecordInv(s.ledger.recs[s.coordinators[id].job])
    requires 15 <= s.coordinators[id].config.heartbeatSeconds <= 3600
    requires LedgerColumns.HeldBy(s.ledger.now, s.ledger.recs[s.coordinators[id].job], s.coordinators[id].token)
    ensures var c, s' := s.coordinators[id], CallStep(s, id, Delivered);
            && s'.coordinators[id].pc == AtAdmission && c.job in s'.ledger.recs
            && s'.ledger.recs[c.job].row.leaseExpiresAt == Some(s.ledger.now + c.config.heartbeatSeconds * SECOND)
  {
    var c := s.coordinators[id];
    HeartbeatCallIs(s, id);
    LedgerColumns.HeartbeatProlongs(s.ledger, c.job, c.token, c.config.heartbeatSeconds);
  }

  /** The whole commit call in the state in which coordinator `id` makes it. */
  function CommitAnswer(digest: Digest, s: System, c: Coordinator): (State, Reply)
    requires c.pc.AtCommit? && |c.results| < |c.selected|
  {
    QaInvoke(s.ledger, c.job, c.token, QaCommit(NextProfile(c), digest(c.pc.result)))
  }

  lemma RefusedHalf(digest: Digest, s: System, id: nat)
    requires id in s.coordinators && s.coordinators[id].pc.AtCommit? && s.coordinators[id].started
    requires |s.coordinators[id].results| < |s.coordinators[id].selected|
    requires CheckStep(digest, s, id) == Set(s, id, Excepted(s.coordinators[id]))
    ensures CommitAnswer(digest, s, s.coordinators[id]) == (s.ledger, Raised)
  {
    var c := s.coordinators[id];
    assert CheckStep(digest, s, id).coordinators[id].pc == AtFail;
    if IsQa(s.ledger, c.job) { assert Put(s.ledger, c.job, s.ledger.recs[c.job]) == s.ledger; }
  }

  lemma PassedHalf(digest: Digest, s: System, id: nat)
    requires id in s.coordinators && s.coordinators[id].pc.AtCommit?
    requires |s.coordinators[id].results| < |s.coordinators[id].selected|
    requires CheckStep(digest, s, id) != Set(s, id, Excepted(s.coordinators[id]))
    ensures var c, s1 := s.coordinators[id], CheckStep(digest, s, id);
            && id in s1.commits && s1.ledger == s.ledger
            && s1.coordinators == s.coordinators[id := c.(pc := AwaitCommit(c.pc.result))]
            && (Finish(s.ledger, s1.commits[id]), CommitReply(s.ledger, s1.commits[id])) == CommitAnswer(digest, s, c)
  {}

  /** Check and UPDATE of a commit with nothing in between are the whole call: the
      profile is done if it goes through, and otherwise the handler runs. */
  lemma CommitInHalves(digest: Digest, s: System, id: nat)
    requires id in s.coordinators && id !in s.commits && s.coordinators[id].pc.AtCommit? && s.coordinators[id].started
    requires |s.coordinators[id].results| < |s.coordinators[id].selected|
    ensures var c, s' := s.coordinators[id], FinishStep(CheckStep(digest, s, id), id, true);
            var (ledger, reply) := CommitAnswer(digest, s, c);
            && s'.ledger == ledger && id in s'.coordinators
            && s'.coordinators[id] == if reply == CommitOk then c.(results := c.results + [c.pc.result], pc := AtCheck)
                                      else c.(pc := AtFail)
  {
    if CheckStep(digest, s, id) == Set(s, id, Excepted(s.coordinators[id])) {
      RefusedHalf(digest, s, id);
    } else {
      PassedHalf(digest, s, id);
    }
  }
}
