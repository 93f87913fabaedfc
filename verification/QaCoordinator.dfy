/** Any number of QA coordinators (B034) working against the ledger, with
    crashes, lost replies, duplicated envelopes, re-leases and the reaper. */
module QaCoordinator {
  import opened Basics
  import opened LedgerTypes
  import opened LedgerSpec
  import opened LedgerInvariant
  import opened LedgerRuns
  import opened LedgerSplitCommit
  import opened LedgerClients
  import BoundedCollector
  import opened QaProfiles

  const QA_KIND := "engineering.qa"
  const QA_ACTOR := "b034-adversarial-qa"

  const QA_STATUSES := {"qa_passed", "qa_failed", "reject"}

  // ---- the b034_* wrappers ----

  datatype QaCall =
    | QaGate(decision: Decision, evidence: GateEvidence)
    | QaStart
    | QaHeartbeat(seconds: int)
    | QaBegin(profile: string)
    | QaCommit(profile: string, resultSha256: string)
    | QaComplete(result: Json)
    | QaFail(code: string, summary: string, retryable: bool, delaySeconds: int)

  // The cast of text to boolean.

  predicate IsSpace(c: char) { c as int in {9, 10, 11, 12, 13, 32} }

  function TrimLeft(s: string): string {
    if |s| > 0 && IsSpace(s[0]) then TrimLeft(s[1..]) else s
  }

  function TrimRight(s: string): string {
    if |s| > 0 && IsSpace(s[|s| - 1]) then TrimRight(s[..|s| - 1]) else s
  }

  function LowerChar(c: char): char { if 'A' <= c <= 'Z' then 'a' + (c - 'A') else c }

  function Lower(s: string): string { seq(|s|, i requires 0 <= i < |s| => LowerChar(s[i])) }

  /** Unique prefixes of true, yes, on and of false, no, off are accepted, as are 1
      and 0, in any case and with surrounding spaces; None when the cast raises. */
  function BooleanOf(text: string): Option<bool> {
    var t := Lower(TrimRight(TrimLeft(text)));
    if t == "" then None
    else if t <= "true" || t <= "yes" || t == "on" || t == "1" then Some(true)
    else if t <= "false" || t <= "no" || t == "of" || t == "off" || t == "0" then Some(false)
    else None
  }

  lemma FalseIsFalse()
    ensures BooleanOf("false") == Some(false)
  {
    assert TrimRight(TrimLeft("false")) == "false";
    assert Lower("false") == "false";
    assert !("false" <= "true") && !("false" <= "yes");
  }

  lemma TruthIsTrue(text: string)
    requires text in {"true", "t", "TRUE", "yes", "on", "1", " true "}
    ensures BooleanOf(text) == Some(true)
  {
    assert TrimLeft(" true ") == "true " && TrimRight("true ") == "true";
    assert Lower("true") == "true" && Lower("TRUE") == "true";
    assert Lower("t") == "t" && Lower("yes") == "yes" && Lower("on") == "on" && Lower("1") == "1";
  }

  /** The generic call a wrapper makes, or None when the wrapper itself raises.
      A result without qa_status passes: NULL NOT IN (...) is not true. */
  function Wrapped(j: JobId, q: QaCall): Option<Call> {
    match q
    case QaGate(d, e) => Some(RecordGate(d, e, QA_ACTOR))
    case QaStart => Some(Start(QA_ACTOR))
    case QaHeartbeat(seconds) => Some(Heartbeat(seconds))
    case QaBegin(p) => if ProfileOk(p) then Some(BeginEffect(ProfileKey(j, p), QA_ACTOR)) else None
    case QaCommit(p, sha) =>
      if ProfileOk(p) && IsLowerHex(sha, 64) then Some(CommitEffect(ProfileKey(j, p), Some(sha), QA_ACTOR)) else None
    case QaComplete(result) =>
      if "qa_status" in result && result["qa_status"] !in QA_STATUSES then None
      else if "promotion_authorized" in result && BooleanOf(result["promotion_authorized"]) != Some(false) then None
      else Some(Complete(Some(result), QA_ACTOR))
    case QaFail(code, summary, retryable, delay) =>
      Some(Fail(Left(code, 128), Left(summary, 2048), retryable, delay, QA_ACTOR))
  }

  predicate IsQa(s: State, j: JobId) {
    j in s.recs && s.recs[j].row.def.kind == QA_KIND
  }

  function QaInvoke(s: State, j: JobId, t: Token, q: QaCall): (State, Reply) {
    if !IsQa(s, j) || Wrapped(j, q).None? then (s, Raised) else InvokeAnswer(s, j, t, Wrapped(j, q).value)
  }

  // ---- one coordinator ----

  datatype SandboxResult = SandboxResult(status: BoundedCollector.RunStatus, text: string)

  datatype Config = Config(
    allowed: set<string>, baseline: seq<string>, maxProfiles: nat, heartbeatSeconds: int, retryDelaySeconds: int)

  /** Where a coordinator is. From AtHeartbeat on it is inside the try block. */
  datatype Pc =
    | AtGate | AtRecordGate(decision: Decision, evidence: GateEvidence) | AtStart
    | AtHeartbeat | AtAdmission | AtReject | AtSelect
    | AtBegin | AtRun | InSandbox | AtCommit(result: SandboxResult) | AwaitCommit(result: SandboxResult) | AtCheck
    | AtComplete | AtFail | Finished | Gone

  /** `started` is execution_started; `results` are those of the profiles done
      so far, in the order of `selected`. History: how the admission ended, and how
      often the clone was found clean. */
  datatype Coordinator = Coordinator(
    job: JobId, token: Token, config: Config, required: seq<string>,
    started: bool, pc: Pc, selected: seq<string>, results: seq<SandboxResult>,
    admitted: Option<bool>, clean: nat)

  function Fresh(j: JobId, t: Token, config: Config, required: seq<string>): Coordinator {
    Coordinator(j, t, config, required, false, AtGate, [], [], None, 0)
  }

  /** An exception: before the try block the process just ends. */
  function Excepted(c: Coordinator): Coordinator {
    if c.pc.Finished? || c.pc.Gone? then c
    else c.(pc := if c.started && !c.pc.AtFail? then AtFail else Gone)
  }

  function NextProfile(c: Coordinator): string
    requires |c.results| < |c.selected|
  {
    c.selected[|c.results|]
  }

  function Verdict(results: seq<SandboxResult>): string {
    if exists i :: 0 <= i < |results| && results[i].status != BoundedCollector.Pass then "qa_failed" else "qa_passed"
  }

  function QaResult(status: string): Json {
    map["qa_status" := status, "promotion_authorized" := "false"]
  }

  /** The ledger call the coordinator makes next, apart from commits. */
  function NextCall(c: Coordinator): Option<QaCall> {
    match c.pc
    case AtRecordGate(d, e) => Some(QaGate(d, e))
    case AtStart => Some(QaStart)
    case AtHeartbeat => Some(QaHeartbeat(c.config.heartbeatSeconds))
    case AtReject => Some(QaComplete(QaResult("reject")))
    case AtBegin => if |c.results| < |c.selected| then Some(QaBegin(NextProfile(c))) else None
    case AtComplete => Some(QaComplete(QaResult(Verdict(c.results))))
    case AtFail => Some(QaFail("b034_qa_failed", "", true, c.config.retryDelaySeconds))
    case _ => None
  }

  /** How the coordinator reads the reply. */
  function Replied(c: Coordinator, reply: Reply): Coordinator {
    match c.pc
    case AtRecordGate(d, _) => if d == Allow && reply == GateStatus(Leased) then c.(pc := AtStart) else Excepted(c)
    case AtStart => if reply == StartOk then c.(started := true, pc := AtHeartbeat) else Excepted(c)
    case AtHeartbeat => if reply.LeaseUntil? then c.(pc := AtAdmission) else Excepted(c)
    case AtReject => if reply == CompleteOk then c.(pc := Finished) else Excepted(c)
    case AtBegin => if reply == EffectIs(EffectStarted) then c.(pc := AtRun) else Excepted(c)
    case AwaitCommit(r) => if reply == CommitOk then c.(results := c.results + [r], pc := AtCheck) else Excepted(c)
    case AtComplete => if reply == CompleteOk then c.(pc := Finished) else Excepted(c)
    case _ => Excepted(c)
  }

  datatype Choice =
    | GateAnswers(decision: Decision, evidence: GateEvidence)
    | Admission(verified: bool)
    | Choose(suggestions: seq<Suggestion>)
    | Enter
    | SandboxReturns(result: SandboxResult)
    | CloneIsClean
    | Abort

  /** The rest of the loop: next profile, or completion. */
  function Continue(c: Coordinator): Coordinator {
    c.(pc := if |c.results| < |c.selected| then AtBegin else AtComplete)
  }

  function Local(c: Coordinator, choice: Choice): Coordinator {
    match (c.pc, choice)
    case (AtGate, GateAnswers(d, e)) => c.(pc := AtRecordGate(d, e))
    case (AtAdmission, Admission(verified)) =>
      c.(admitted := Some(verified), pc := if verified then AtSelect else AtReject)
    case (AtSelect, Choose(suggestions)) =>
      var proposed := AddNew([], IdsWhere(suggestions, c.config.allowed, true));
      var selected := Selection(c.config.baseline, c.required, proposed);
      if (exists i :: 0 <= i < |c.required| && c.required[i] !in c.config.allowed)
          || |selected| > c.config.maxProfiles then
        Excepted(c)
      else Continue(c.(selected := selected))
    case (AtRun, Enter) => c.(pc := InSandbox)
    case (InSandbox, SandboxReturns(r)) => c.(pc := AtCommit(r))
    case (AtCheck, CloneIsClean) => Continue(c.(clean := c.clean + 1))
    case (_, Abort) => Excepted(c)
    case _ => c
  }

  // ---- the system ----

  /** History: coordinator `coordinator` entered the sandbox with its profile number `index`. */
  datatype Entry = Entry(coordinator: nat, job: JobId, profile: string, index: nat)

  /** `commits`: the commit call of a coordinator whose check has passed and whose
      UPDATE is outstanding. `entries` and `completedBy` are history. */
  datatype System = System(
    ledger: State, coordinators: map<nat, Coordinator>, commits: map<nat, Pending>,
    entries: seq<Entry>, completedBy: map<JobId, nat>)

  datatype Step =
    | Environment(op: Op)
    | LateCommit(commit: Pending)
    | Spawn(id: nat, job: JobId, token: Token, config: Config, required: seq<string>)
    | Locally(id: nat, choice: Choice)
    | Calls(id: nat, delivery: Delivery)
    | ChecksCommit(id: nat)
    | FinishesCommit(id: nat, delivered: bool)
    | Crash(id: nat)

  function Set(s: System, id: nat, c: Coordinator): System {
    s.(coordinators := s.coordinators[id := c])
  }

  function NextEntry(s: System, id: nat): Entry
    requires id in s.coordinators && |s.coordinators[id].results| < |s.coordinators[id].selected|
  {
    var c := s.coordinators[id];
    Entry(id, c.job, NextProfile(c), |c.results|)
  }

  /** The next profile enters the sandbox. */
  function EnterStep(s: System, id: nat): System
    requires id in s.coordinators && |s.coordinators[id].results| < |s.coordinators[id].selected|
  {
    var c := s.coordinators[id];
    Set(s, id, c.(pc := InSandbox)).(entries := s.entries + [NextEntry(s, id)])
  }

  function LocalStep(s: System, id: nat, choice: Choice): System
    requires id in s.coordinators
  {
    var c := s.coordinators[id];
    if c.pc.AtRun? && choice.Enter? && |c.results| < |c.selected| then EnterStep(s, id)
    else Set(s, id, Local(c, choice))
  }

  /** What a coordinator becomes after its call. */
  function After(c: Coordinator, delivery: Delivery, reply: Reply): Coordinator {
    if delivery.Delivered? then Replied(c, reply) else Excepted(c)
  }

  /** The system after a call of coordinator `id` that left the ledger as `ledger`. */
  function Sent(s: System, id: nat, delivery: Delivery, ledger: State, reply: Reply): System
    requires id in s.coordinators
  {
    var c := s.coordinators[id];
    Set(s.(ledger := ledger, completedBy := if reply == CompleteOk then s.completedBy[c.job := id] else s.completedBy),
        id, After(c, delivery, reply))
  }

  function CallStep(s: System, id: nat, delivery: Delivery): System
    requires id in s.coordinators
  {
    var c := s.coordinators[id];
    if NextCall(c).None? then s
    else if delivery.NotSent? then Set(s, id, Excepted(c))
    else
      var (ledger, reply) := QaInvoke(s.ledger, c.job, c.token, NextCall(c).value);
      Sent(s, id, delivery, ledger, reply)
  }

  function CheckStep(digest: SandboxResult -> string, s: System, id: nat): System
    requires id in s.coordinators
  {
    var c := s.coordinators[id];
    if !c.pc.AtCommit? || |c.selected| <= |c.results| then s
    else
      var q := QaCommit(NextProfile(c), digest(c.pc.result));
      if !IsQa(s.ledger, c.job) || Wrapped(c.job, q).None? || !CheckPasses(s.ledger, c.job, c.token) then
        Set(s, id, Excepted(c))
      else
        var p := Pending(c.job, FindAttempt(s.ledger.recs[c.job].attempts, c.token), ProfileKey(c.job, NextProfile(c)),
                         Some(digest(c.pc.result)), QA_ACTOR, s.ledger.now);
        Set(s.(commits := s.commits[id := p]), id, c.(pc := AwaitCommit(c.pc.result)))
  }

  function FinishStep(s: System, id: nat, delivered: bool): System {
    if id !in s.commits then s
    else
      var p := s.commits[id];
      var s1 := s.(ledger := Finish(s.ledger, p), commits := s.commits - {id});
      if id !in s.coordinators || !s.coordinators[id].pc.AwaitCommit? then s1
      else
        var c := s.coordinators[id];
        Set(s1, id, if delivered then Replied(c, CommitReply(s.ledger, p)) else Excepted(c))
  }

  ghost function Next(digest: SandboxResult -> string, s: System, step: Step): System {
    match step
    case Environment(op) => s.(ledger := Apply(s.ledger, op))
    case LateCommit(p) => s.(ledger := Finish(s.ledger, p))
    case Spawn(id, j, t, config, required) =>
      if id in s.coordinators then s else Set(s, id, Fresh(j, t, config, required))
    case Locally(id, choice) =>
      if id in s.coordinators then LocalStep(s, id, choice) else s
    case Calls(id, delivery) => if id in s.coordinators then CallStep(s, id, delivery) else s
    case ChecksCommit(id) => if id in s.coordinators then CheckStep(digest, s, id) else s
    case FinishesCommit(id, delivered) => FinishStep(s, id, delivered)
    case Crash(id) => if id in s.coordinators then Set(s, id, s.coordinators[id].(pc := Gone)) else s
  }

  ghost function Execute(digest: SandboxResult -> string, s: System, steps: seq<Step>): System
    decreases |steps|
  {
    if |steps| == 0 then s else Execute(digest, Next(digest, s, steps[0]), steps[1..])
  }

  function Initial(start: Time): System {
    System(Empty(start), map[], map[], [], map[])
  }
}
