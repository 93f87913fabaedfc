/** Each (job, profile) enters the sandbox at most once. */
module QaSafety {
  import opened Basics
  import opened LedgerTypes
  import opened LedgerSpec
  import opened LedgerInvariant
  import opened LedgerRuns
  import opened LedgerSplitCommit
  import opened LedgerClients
  import opened QaProfiles
  import opened QaCoordinator

  lemma QaInvokeMoves(s: State, j: JobId, t: Token, q: QaCall)
    requires Safe(s)
    ensures Moves(s, QaInvoke(s, j, t, q).0)
  {
    if !IsQa(s, j) || Wrapped(j, q).None? {
      AllEvolveReflexive(s);
    } else {
      InvokeMoves(s, j, t, Wrapped(j, q).value);
    }
  }

  // ---- the invariant ----

  /** The ledger holds an effect claim for profile `p` on the coordinator's own,
      allowed attempt. */
  predicate Owns(s: State, c: Coordinator, p: string) {
    HoldsClaim(s, c.job, c.token, ProfileKey(c.job, p))
  }

  predicate BeforeStart(pc: Pc) { pc.AtGate? || pc.AtRecordGate? || pc.AtStart? || pc.Gone? }

  predicate BeforeSelection(pc: Pc) {
    pc.AtGate? || pc.AtRecordGate? || pc.AtStart? || pc.AtHeartbeat? || pc.AtAdmission? || pc.AtReject? || pc.AtSelect?
  }

  /** Between the reply to begin_effect and the reply to commit_effect. */
  predicate Claimed(pc: Pc) { pc.AtRun? || pc.InSandbox? || pc.AtCommit? || pc.AwaitCommit? }

  /** The current profile may already have entered the sandbox. */
  predicate MayHaveEntered(pc: Pc) {
    pc.InSandbox? || pc.AtCommit? || pc.AwaitCommit? || pc.AtFail? || pc.Gone?
  }

  predicate PastSelection(pc: Pc) {
    pc.AtBegin? || Claimed(pc) || pc.AtCheck? || pc.AtComplete?
  }

  /** All baseline and required profiles are selected, at most the configured
      number, and beyond the baseline only allowed ones. */
  predicate Chosen(c: Coordinator) {
    && |c.selected| <= c.config.maxProfiles
    && (forall p :: p in c.config.baseline ==> p in c.selected)
    && (forall p :: p in c.required ==> p in c.selected && p in c.config.allowed)
    && (forall p :: p in c.selected ==> p in c.config.baseline || p in c.config.allowed)
  }

  predicate WellFormed(c: Coordinator) {
    && Distinct(c.selected) && |c.results| <= |c.selected|
    && (!c.started ==> BeforeStart(c.pc))
    && (BeforeSelection(c.pc) ==> c.selected == [])
    && (Claimed(c.pc) || c.pc.AtBegin? ==> |c.results| < |c.selected|)
    && (c.pc.AtComplete? ==> |c.results| == |c.selected|)
    && (PastSelection(c.pc) ==> Chosen(c))
    && HistoryOk(c)
  }

  /** Only what passed admission gets to the selection and further, only what did
      not to the reject path; and the clone was found clean after every profile done. */
  predicate HistoryOk(c: Coordinator) {
    && (BeforeAdmission(c.pc) ==> c.admitted.None?)
    && (c.pc.AtSelect? || PastSelection(c.pc) || c.selected != [] ==> c.admitted == Some(true))
    && (c.pc.AtReject? ==> c.admitted == Some(false))
    && (BeforeSelection(c.pc) ==> c.clean == 0)
    && (PastSelection(c.pc) ==> c.clean + (if c.pc.AtCheck? then 1 else 0) == |c.results|)
  }

  predicate BeforeAdmission(pc: Pc) {
    pc.AtGate? || pc.AtRecordGate? || pc.AtStart? || pc.AtHeartbeat? || pc.AtAdmission?
  }

  predicate Backed(s: State, c: Coordinator) {
    && (c.started ==> c.job in s.recs && Spent(s.recs[c.job], c.token))
    && (Claimed(c.pc) && |c.results| < |c.selected| ==> Owns(s, c, NextProfile(c)))
  }

  predicate EntryOk(s: State, e: Entry, c: Coordinator) {
    && c.started && e.job == c.job && e.index < |c.selected| && e.profile == c.selected[e.index]
    && (e.index < |c.results| || (e.index == |c.results| && MayHaveEntered(c.pc)))
    && Owns(s, c, e.profile)
  }

  ghost predicate CoordinatorsOk(s: System) {
    && (forall id :: id in s.coordinators ==> WellFormed(s.coordinators[id]) && Backed(s.ledger, s.coordinators[id]))
    && (forall a, b :: a in s.coordinators && b in s.coordinators && a != b
          && s.coordinators[a].started && s.coordinators[b].started
          ==> !(s.coordinators[a].job == s.coordinators[b].job && s.coordinators[a].token == s.coordinators[b].token))
  }

  ghost predicate EntriesOk(s: System) {
    && (forall e :: e in s.entries
          ==> e.coordinator in s.coordinators && EntryOk(s.ledger, e, s.coordinators[e.coordinator]))
    && (forall i, k :: 0 <= i < k < |s.entries| ==>
          !(s.entries[i].coordinator == s.entries[k].coordinator && s.entries[i].index == s.entries[k].index))
  }

  ghost predicate OnceInv(s: System) {
    Safe(s.ledger) && CoordinatorsOk(s) && EntriesOk(s)
  }

  // ---- preservation ----

  /** Any move of the ledger keeps the invariant. */
  lemma LedgerMoves(s: System, ledger: State)
    requires OnceInv(s) && Moves(s.ledger, ledger)
    ensures OnceInv(s.(ledger := ledger))
  {
    forall id | id in s.coordinators ensures Backed(ledger, s.coordinators[id]) {
      var c := s.coordinators[id];
      if Claimed(c.pc) && |c.results| < |c.selected| {
        ClaimStable(s.ledger, ledger, c.job, c.token, ProfileKey(c.job, NextProfile(c)));
      }
    }
    forall e | e in s.entries ensures EntryOk(ledger, e, s.coordinators[e.coordinator]) {
      var c := s.coordinators[e.coordinator];
      ClaimStable(s.ledger, ledger, c.job, c.token, ProfileKey(c.job, e.profile));
    }
  }

  /** `c'` is a later state of the same coordinator. */
  predicate Continues(c: Coordinator, c': Coordinator) {
    && c'.job == c.job && c'.token == c.token && (c.started ==> c'.started)
    && (c'.selected == c.selected || c.selected == []) && c.results <= c'.results
    && (MayHaveEntered(c.pc) && c'.results == c.results ==> MayHaveEntered(c'.pc))
  }

  lemma EntryContinues(s: State, e: Entry, c: Coordinator, c': Coordinator)
    requires EntryOk(s, e, c) && Continues(c, c')
    ensures EntryOk(s, e, c')
  {}

  /** Replacing a coordinator by a later state of it keeps the invariant, if it
      is the only one to have started with its token. */
  lemma CoordinatorMoves(s: System, id: nat, c: Coordinator)
    requires OnceInv(s) && id in s.coordinators && Continues(s.coordinators[id], c)
    requires WellFormed(c) && Backed(s.ledger, c)
    requires c.started && !s.coordinators[id].started ==>
      forall b :: b in s.coordinators && b != id && s.coordinators[b].started ==>
        !(s.coordinators[b].job == c.job && s.coordinators[b].token == c.token)
    ensures OnceInv(Set(s, id, c))
  {
    forall e | e in s.entries ensures EntryOk(s.ledger, e, Set(s, id, c).coordinators[e.coordinator]) {
      if e.coordinator == id { EntryContinues(s.ledger, e, s.coordinators[id], c); }
    }
  }

  /** Raising an exception, or crashing, is always possible. */
  lemma Stops(s: System, id: nat, c: Coordinator)
    requires OnceInv(s) && id in s.coordinators
    requires c == Excepted(s.coordinators[id]) || c == s.coordinators[id].(pc := Gone)
    ensures OnceInv(Set(s, id, c))
  {
    var was := s.coordinators[id];
    assert WellFormed(was) && Backed(s.ledger, was);
    ExceptedAdvances(was);
    GoneAdvances(was);
    StoppedBacked(s.ledger, was, c);
    CoordinatorMoves(s, id, c);
  }

  lemma StoppedBacked(s: State, c: Coordinator, c': Coordinator)
    requires Backed(s, c) && c'.job == c.job && c'.token == c.token && c'.started == c.started && !Claimed(c'.pc)
    ensures Backed(s, c')
  {}

  /** The same process, further on and still well-formed. */
  predicate Advances(c: Coordinator, c': Coordinator) {
    Continues(c, c') && WellFormed(c')
  }

  lemma ExceptedAdvances(c: Coordinator)
    requires WellFormed(c)
    ensures Advances(c, Excepted(c)) && Excepted(c).started == c.started && !Claimed(Excepted(c).pc)
  {}

  lemma GoneAdvances(c: Coordinator)
    requires WellFormed(c)
    ensures Advances(c, c.(pc := Gone))
  {}

  lemma SelectionIsChosen(c: Coordinator, suggestions: seq<Suggestion>)
    requires c.pc.AtSelect?
    ensures var c' := Local(c, Choose(suggestions)); PastSelection(c'.pc) ==> Chosen(c')
  {
    var proposed := AddNew([], IdsWhere(suggestions, c.config.allowed, true));
    SelectionIsExact(c.config.baseline, c.required, proposed);
    AddNewSelects([], IdsWhere(suggestions, c.config.allowed, true));
    forall p | p in proposed ensures p in c.config.allowed {
      IdsWhereContent(suggestions, c.config.allowed, true, p);
    }
    assert forall i :: 0 <= i < |c.required| ==> c.required[i] in c.required;
  }

  lemma SelectAdvances(c: Coordinator, suggestions: seq<Suggestion>)
    requires WellFormed(c) && c.pc.AtSelect?
    ensures var c' := Local(c, Choose(suggestions)); Advances(c, c') && c'.started == c.started && !Claimed(c'.pc)
  {
    ExceptedAdvances(c);
    SelectionIsChosen(c, suggestions);
    SelectionIsExact(c.config.baseline, c.required, AddNew([], IdsWhere(suggestions, c.config.allowed, true)));
  }

  /** A local step never claims a profile that was not claimed before it. */
  lemma LocalAdvances(c: Coordinator, choice: Choice)
    requires WellFormed(c)
    ensures var c' := Local(c, choice);
            Advances(c, c') && c'.started == c.started
            && (Claimed(c'.pc) ==> Claimed(c.pc) && c'.selected == c.selected && c'.results == c.results)
  {
    if c.pc.AtSelect? && choice.Choose? {
      SelectAdvances(c, choice.suggestions);
    } else {
      ExceptedAdvances(c);
    }
  }

  lemma RepliedAdvances(c: Coordinator, reply: Reply)
    requires WellFormed(c)
    ensures var c' := Replied(c, reply);
            Advances(c, c') && (c'.started && !c.started ==> c.pc.AtStart? && reply == StartOk)
            && (Claimed(c'.pc) ==>
                  && c.pc.AtBegin? && reply == EffectIs(EffectStarted)
                  && c'.selected == c.selected && c'.results == c.results)
  {
    ExceptedAdvances(c);
  }

  lemma LocalOnce(s: System, id: nat, choice: Choice)
    requires OnceInv(s) && id in s.coordinators
    ensures OnceInv(Set(s, id, Local(s.coordinators[id], choice)))
  {
    var c := s.coordinators[id];
    LocalAdvances(c, choice);
    CoordinatorMoves(s, id, Local(c, choice));
  }

  lemma NewEntryOk(s: System, e: Entry)
    requires EntriesOk(s) && e.coordinator in s.coordinators && EntryOk(s.ledger, e, s.coordinators[e.coordinator])
    requires forall f :: f in s.entries ==> !(f.coordinator == e.coordinator && f.index == e.index)
    ensures EntriesOk(s.(entries := s.entries + [e]))
  {}

  lemma EntersNewProfile(s: System, id: nat, f: Entry)
    requires EntriesOk(s) && id in s.coordinators && s.coordinators[id].pc.AtRun? && f in s.entries
    ensures !(f.coordinator == id && f.index == |s.coordinators[id].results|)
  {}

  lemma NextEntryOk(s: System, id: nat)
    requires OnceInv(s) && id in s.coordinators && s.coordinators[id].pc.AtRun?
    ensures |s.coordinators[id].results| < |s.coordinators[id].selected|
    ensures EntryOk(s.ledger, NextEntry(s, id), s.coordinators[id].(pc := InSandbox))
  {}

  lemma EnteredOnce(s: System, id: nat)
    requires OnceInv(s) && id in s.coordinators && s.coordinators[id].pc.AtRun?
    ensures OnceInv(Set(s, id, s.coordinators[id].(pc := InSandbox)))
  {
    assert Local(s.coordinators[id], Enter) == s.coordinators[id].(pc := InSandbox);
    LocalOnce(s, id, Enter);
  }

  lemma EnterEntries(s: System, id: nat)
    requires OnceInv(s) && id in s.coordinators && s.coordinators[id].pc.AtRun?
    ensures |s.coordinators[id].results| < |s.coordinators[id].selected| && EntriesOk(EnterStep(s, id))
  {
    NextEntryOk(s, id);
    var s1 := Set(s, id, s.coordinators[id].(pc := InSandbox));
    EnteredOnce(s, id);
    forall f | f in s.entries ensures !(f.coordinator == id && f.index == |s.coordinators[id].results|) {
      EntersNewProfile(s, id, f);
    }
    NewEntryOk(s1, NextEntry(s, id));
  }

  /** Entering the sandbox is recorded for a profile that had not entered before. */
  lemma EnterOnce(s: System, id: nat)
    requires OnceInv(s) && id in s.coordinators && s.coordinators[id].pc.AtRun?
    ensures |s.coordinators[id].results| < |s.coordinators[id].selected| && OnceInv(EnterStep(s, id))
  {
    EnterEntries(s, id);
    EnteredOnce(s, id);
  }

  /** What a coordinator knows once the reply to its call is in: one that has just
      started has spent its token, one that has just claimed a profile owns the claim. */
  predicate Learns(s: State, c: Coordinator, ledger: State, reply: Reply) {
    && (c.pc.AtStart? && reply == StartOk ==>
          c.job in s.recs && !Spent(s.recs[c.job], c.token) && c.job in ledger.recs
              && Spent(ledger.recs[c.job], c.token))
    && (c.pc.AtBegin? && reply == EffectIs(EffectStarted) && |c.results| < |c.selected| ==>
          Owns(ledger, c, NextProfile(c)))
  }

  lemma StartIsInvoke(s: State, j: JobId, t: Token)
    requires QaInvoke(s, j, t, QaStart).1 != Raised
    ensures QaInvoke(s, j, t, QaStart) == InvokeAnswer(s, j, t, Start(QA_ACTOR))
  {}

  lemma StartTeaches(s: State, c: Coordinator)
    requires Safe(s) && c.pc.AtStart?
    ensures var (ledger, reply) := QaInvoke(s, c.job, c.token, QaStart); Learns(s, c, ledger, reply)
  {
    if QaInvoke(s, c.job, c.token, QaStart).1 == StartOk {
      StartIsInvoke(s, c.job, c.token);
      StartSpends(s, c.job, c.token, QA_ACTOR);
    }
  }

  lemma BeginIsInvoke(s: State, j: JobId, t: Token, p: string)
    requires QaInvoke(s, j, t, QaBegin(p)).1 != Raised
    ensures QaInvoke(s, j, t, QaBegin(p)) == InvokeAnswer(s, j, t, BeginEffect(ProfileKey(j, p), QA_ACTOR))
  {}

  lemma BeginReply(s: State, j: JobId, t: Token, p: string)
    requires Safe(s) && QaInvoke(s, j, t, QaBegin(p)).1 == EffectIs(EffectStarted)
    ensures HoldsClaim(QaInvoke(s, j, t, QaBegin(p)).0, j, t, ProfileKey(j, p))
  {
    BeginIsInvoke(s, j, t, p);
    BeginClaims(s, j, t, ProfileKey(j, p), QA_ACTOR);
  }

  lemma BeginTeaches(s: State, c: Coordinator)
    requires Safe(s) && c.pc.AtBegin? && |c.results| < |c.selected|
    ensures var (ledger, reply) := QaInvoke(s, c.job, c.token, QaBegin(NextProfile(c))); Learns(s, c, ledger, reply)
  {
    if QaInvoke(s, c.job, c.token, QaBegin(NextProfile(c))).1 == EffectIs(EffectStarted) {
      BeginReply(s, c.job, c.token, NextProfile(c));
    }
  }

  lemma BackedAdvances(s: State, s': State, c: Coordinator, c': Coordinator)
    requires Moves(s, s') && Backed(s, c) && Continues(c, c')
    requires c'.started && !c.started ==> c.job in s'.recs && Spent(s'.recs[c.job], c.token)
    requires Claimed(c'.pc) && |c'.results| < |c'.selected| ==> Owns(s', c', NextProfile(c'))
    ensures Backed(s', c')
  {}

  lemma RepliedBacked(s: State, c: Coordinator, ledger: State, reply: Reply)
    requires WellFormed(c) && Backed(s, c) && Moves(s, ledger) && Learns(s, c, ledger, reply)
    ensures Backed(ledger, Replied(c, reply))
    ensures Replied(c, reply).started && !c.started ==> c.job in s.recs && !Spent(s.recs[c.job], c.token)
  {
    RepliedAdvances(c, reply);
    BackedAdvances(s, ledger, c, Replied(c, reply));
  }

  /** The coordinator takes in the reply to its own call. */
  lemma RepliedOnce(s: System, id: nat, ledger: State, reply: Reply)
    requires OnceInv(s) && id in s.coordinators && Moves(s.ledger, ledger)
    requires Learns(s.ledger, s.coordinators[id], ledger, reply)
    ensures OnceInv(Set(s.(ledger := ledger), id, Replied(s.coordinators[id], reply)))
  {
    var c := s.coordinators[id];
    assert WellFormed(c) && Backed(s.ledger, c);
    LedgerMoves(s, ledger);
    RepliedBacked(s.ledger, c, ledger, reply);
    RepliedAdvances(c, reply);
    CoordinatorMoves(s.(ledger := ledger), id, Replied(c, reply));
  }

  lemma LostOnce(s: System, id: nat, ledger: State)
    requires OnceInv(s) && id in s.coordinators && Moves(s.ledger, ledger)
    ensures OnceInv(Set(s.(ledger := ledger), id, Excepted(s.coordinators[id])))
  {
    LedgerMoves(s, ledger);
    Stops(s.(ledger := ledger), id, Excepted(s.coordinators[id]));
  }

  lemma SentOnce(s: System, id: nat, delivery: Delivery, ledger: State, reply: Reply)
    requires OnceInv(s) && id in s.coordinators && Moves(s.ledger, ledger)
    requires Learns(s.ledger, s.coordinators[id], ledger, reply)
    ensures OnceInv(Sent(s, id, delivery, ledger, reply))
  {
    if delivery.Delivered? { RepliedOnce(s, id, ledger, reply); } else { LostOnce(s, id, ledger); }
  }

  lemma CallTeaches(s: State, c: Coordinator)
    requires Safe(s) && NextCall(c).Some?
    ensures var (ledger, reply) := QaInvoke(s, c.job, c.token, NextCall(c).value); Learns(s, c, ledger, reply)
  {
    if c.pc.AtStart? {
      StartTeaches(s, c);
    } else if c.pc.AtBegin? {
      BeginTeaches(s, c);
    } else {
      OthersLearnNothing(s, c, QaInvoke(s, c.job, c.token, NextCall(c).value));
    }
  }

  lemma OthersLearnNothing(s: State, c: Coordinator, answer: (State, Reply))
    requires !c.pc.AtStart? && !c.pc.AtBegin?
    ensures Learns(s, c, answer.0, answer.1)
  {}

  lemma CallOnce(s: System, id: nat, delivery: Delivery)
    requires OnceInv(s) && id in s.coordinators
    ensures OnceInv(CallStep(s, id, delivery))
  {
    var c := s.coordinators[id];
    if NextCall(c).Some? {
      if delivery.NotSent? {
        Stops(s, id, Excepted(c));
      } else {
        var (ledger, reply) := QaInvoke(s.ledger, c.job, c.token, NextCall(c).value);
        QaInvokeMoves(s.ledger, c.job, c.token, NextCall(c).value);
        CallTeaches(s.ledger, c);
        SentOnce(s, id, delivery, ledger, reply);
      }
    }
  }

  lemma CheckOnce(digest: SandboxResult -> string, s: System, id: nat)
    requires OnceInv(s) && id in s.coordinators
    ensures OnceInv(CheckStep(digest, s, id))
  {
    var c := s.coordinators[id];
    CheckIs(digest, s, id);
    if c.pc.AtCommit? {
      Stops(s, id, Excepted(c));
      CommitsAreApart(s, CheckStep(digest, s, id).commits);
      AwaitOnce(s.(commits := CheckStep(digest, s, id).commits), id);
    }
  }

  lemma CommitsAreApart(s: System, commits: map<nat, Pending>)
    requires OnceInv(s)
    ensures OnceInv(s.(commits := commits))
  {}

  lemma CheckIs(digest: SandboxResult -> string, s: System, id: nat)
    requires id in s.coordinators
    ensures var c, s' := s.coordinators[id], CheckStep(digest, s, id);
            || s' == s
            || (c.pc.AtCommit? && s' == Set(s, id, Excepted(c)))
            || (c.pc.AtCommit? && s' == Set(s.(commits := s'.commits), id, c.(pc := AwaitCommit(c.pc.result))))
  {}

  lemma AwaitOnce(s: System, id: nat)
    requires OnceInv(s) && id in s.coordinators && s.coordinators[id].pc.AtCommit?
    ensures OnceInv(Set(s, id, s.coordinators[id].(pc := AwaitCommit(s.coordinators[id].pc.result))))
  {
    var c := s.coordinators[id];
    assert WellFormed(c) && Backed(s.ledger, c);
    CoordinatorMoves(s, id, c.(pc := AwaitCommit(c.pc.result)));
  }

  lemma FinishOnce(s: System, id: nat, delivered: bool)
    requires OnceInv(s)
    ensures OnceInv(FinishStep(s, id, delivered))
  {
    if id in s.commits {
      var p := s.commits[id];
      FinishMoves(s.ledger, p);
      LedgerMoves(s, Finish(s.ledger, p));
      var s1 := s.(ledger := Finish(s.ledger, p), commits := s.commits - {id});
      assert OnceInv(s1);
      if id in s.coordinators && s.coordinators[id].pc.AwaitCommit? {
        var c := s.coordinators[id];
        if delivered {
          RepliedAdvances(c, CommitReply(s.ledger, p));
          CoordinatorMoves(s1, id, Replied(c, CommitReply(s.ledger, p)));
        } else {
          Stops(s1, id, Excepted(c));
        }
      }
    }
  }

  lemma SpawnOnce(s: System, id: nat, c: Coordinator)
    requires OnceInv(s) && id !in s.coordinators
    requires exists j, t, config, required :: c == Fresh(j, t, config, required)
    ensures OnceInv(Set(s, id, c))
  {}

  lemma EnvironmentOnce(s: System, op: Op)
    requires OnceInv(s)
    ensures OnceInv(s.(ledger := Apply(s.ledger, op)))
  {
    ApplyMoves(s.ledger, op);
    LedgerMoves(s, Apply(s.ledger, op));
  }

  lemma LateCommitOnce(s: System, p: Pending)
    requires OnceInv(s)
    ensures OnceInv(s.(ledger := Finish(s.ledger, p)))
  {
    FinishMoves(s.ledger, p);
    LedgerMoves(s, Finish(s.ledger, p));
  }

  lemma LocallyOnce(s: System, id: nat, choice: Choice)
    requires OnceInv(s) && id in s.coordinators
    ensures OnceInv(LocalStep(s, id, choice))
  {
    if s.coordinators[id].pc.AtRun? && choice.Enter? { EnterOnce(s, id); } else { LocalOnce(s, id, choice); }
  }

  lemma NextOnce(digest: SandboxResult -> string, s: System, step: Step)
    requires OnceInv(s)
    ensures OnceInv(Next(digest, s, step))
  {
    match step
    case Environment(op) => EnvironmentOnce(s, op);
    case LateCommit(p) => LateCommitOnce(s, p);
    case Spawn(id, j, t, config, required) =>
      if id !in s.coordinators { SpawnOnce(s, id, Fresh(j, t, config, required)); }
    case Locally(id, choice) =>
      if id in s.coordinators { LocallyOnce(s, id, choice); }
    case Calls(id, delivery) => if id in s.coordinators { CallOnce(s, id, delivery); }
    case ChecksCommit(id) => if id in s.coordinators { CheckOnce(digest, s, id); }
    case FinishesCommit(id, delivered) => FinishOnce(s, id, delivered);
    case Crash(id) => if id in s.coordinators { Stops(s, id, s.coordinators[id].(pc := Gone)); }
  }

  lemma {:induction false} ExecuteOnce(digest: SandboxResult -> string, s: System, steps: seq<Step>)
    requires OnceInv(s)
    ensures OnceInv(Execute(digest, s, steps))
    decreases |steps|
  {
    if |steps| == 0 {
    } else {
      NextOnce(digest, s, steps[0]);
      ExecuteOnce(digest, Next(digest, s, steps[0]), steps[1..]);
    }
  }

  /** Whatever coordinators, operators, the reaper, crashes and lost replies do,
      and even if commits are not atomic: no profile of a job enters the sandbox
      twice, and each entry is made in an attempt that holds an allow decision
      and owns the effect claim for exactly that profile. */
  lemma SandboxAtMostOnce(digest: SandboxResult -> string, start: Time, steps: seq<Step>, i: nat, k: nat)
    requires var s := Execute(digest, Initial(start), steps); i < |s.entries| && k < |s.entries|
    ensures var s := Execute(digest, Initial(start), steps);
            var e := s.entries[i];
            && (s.entries[k].job == e.job && s.entries[k].profile == e.profile ==> i == k)
            && e.coordinator in s.coordinators && Owns(s.ledger, s.coordinators[e.coordinator], e.profile)
  {
    ExecuteOnce(digest, Initial(start), steps);
    var s := Execute(digest, Initial(start), steps);
    EntriesUnique(s, i, k);
  }

  /** When a profile is about to enter the sandbox, its claim is already there. */
  lemma EntryIsClaimed(digest: SandboxResult -> string, start: Time, steps: seq<Step>, id: nat)
    requires var s := Execute(digest, Initial(start), steps); id in s.coordinators && s.coordinators[id].pc.AtRun?
    ensures var s := Execute(digest, Initial(start), steps);
            |s.coordinators[id].results| < |s.coordinators[id].selected|
            && Owns(s.ledger, s.coordinators[id], NextProfile(s.coordinators[id]))
  {
    ExecuteOnce(digest, Initial(start), steps);
  }

  lemma EntriesUnique(s: System, i: nat, k: nat)
    requires OnceInv(s) && i < |s.entries| && k < |s.entries|
    ensures var e := s.entries[i];
            && (s.entries[k].job == e.job && s.entries[k].profile == e.profile ==> i == k)
            && e.coordinator in s.coordinators && Owns(s.ledger, s.coordinators[e.coordinator], e.profile)
  {
    var e, f := s.entries[i], s.entries[k];
    assert e in s.entries && f in s.entries;
    var c, d := s.coordinators[e.coordinator], s.coordinators[f.coordinator];
    if e.job == f.job && e.profile == f.profile {
      ClaimHasOneToken(s.ledger, e.job, c.token, d.token, ProfileKey(e.job, e.profile));
      assert e.coordinator == f.coordinator;
      assert e.index == f.index;
    }
  }
}
