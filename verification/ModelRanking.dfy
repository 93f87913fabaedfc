/** rank_model_candidates of the model registry: latest valid evaluation per
    candidate, policy filter, score, order. */
module ModelRanking {
  import opened Basics

  datatype RouteKind = Remote | Local
  datatype CostClass = Free | Paid | LocalCost
  datatype CandidateStatus = Candidate | Approved | Disabled | Retired

  datatype Provider = Provider(
    routeKind: RouteKind, enabled: bool, approvedPublic: bool, approvedInternal: bool, approvedConfidential: bool,
    zeroRetention: Option<bool>, trainingAllowed: Option<bool>)

  datatype ModelCandidate = ModelCandidate(
    providerKey: string, modelId: string, routeAlias: Option<string>, costClass: CostClass,
    status: CandidateStatus, enabled: bool)

  datatype Evaluation = Evaluation(
    id: int, candidateKey: string, taskRole: string, hardware: Option<string>, synthetic: bool,
    quality: Option<real>, taskSuccess: Option<real>, toolCalls: Option<real>, structuredOutput: Option<real>,
    availability: Option<real>, errorRate: Option<real>, latency: Option<real>, throughput: Option<real>,
    observedAt: int, validUntil: int)

  /** The tables joined by the query; foreign keys make the joins total. */
  datatype Registry = Registry(providers: map<string, Provider>, candidates: map<string, ModelCandidate>)

  /** Arguments of the function and now(); an argument may be NULL. */
  datatype Query = Query(taskRole: Option<string>, classification: Option<string>, hardware: Option<string>, now: int)

  datatype Ranked = Ranked(
    candidateKey: string, providerKey: string, modelId: string, routeAlias: Option<string>, routeKind: RouteKind,
    costClass: CostClass, evaluationId: int, score: real, latency: Option<real>, throughput: Option<real>,
    observedAt: int, validUntil: int)

  // ---- the query ----

  predicate Joined(g: Registry, key: string) {
    key in g.candidates && g.candidates[key].providerKey in g.providers
  }

  function ProviderOf(g: Registry, key: string): Provider
    requires Joined(g, key)
  {
    g.providers[g.candidates[key].providerKey]
  }

  /** WHERE of latest_valid. */
  predicate Valid(g: Registry, q: Query, e: Evaluation) {
    && Joined(g, e.candidateKey) && q.taskRole == Some(e.taskRole) && !e.synthetic && e.validUntil > q.now
    && match ProviderOf(g, e.candidateKey).routeKind
       case Remote => e.hardware.None?
       case Local => q.hardware.Some? && e.hardware == q.hardware
  }

  function UpperChar(c: char): char { if 'a' <= c <= 'z' then 'A' + (c - 'a') else c }

  function Upper(s: string): string { seq(|s|, i requires 0 <= i < |s| => UpperChar(s[i])) }

  predicate Cleared(p: Provider, classification: Option<string>) {
    match classification
    case None => false
    case Some(text) =>
      if Upper(text) == "PUBLIC" then p.approvedPublic
      else if Upper(text) == "INTERNAL" then p.approvedInternal
      else if Upper(text) == "CONFIDENTIAL" then
        p.approvedConfidential
            && (p.routeKind == Local || (p.zeroRetention == Some(true) && p.trainingAllowed == Some(false)))
      else false
  }

  /** WHERE of eligible; it depends on the candidate only. */
  predicate Eligible(g: Registry, q: Query, key: string) {
    && Joined(g, key) && g.candidates[key].status == Approved && g.candidates[key].enabled
    && ProviderOf(g, key).enabled && g.candidates[key].costClass != Paid
    && Cleared(ProviderOf(g, key), q.classification)
  }

  /** ORDER BY observed_at DESC, evaluation_id DESC. */
  predicate Newer(a: Evaluation, b: Evaluation) {
    a.observedAt > b.observedAt || (a.observedAt == b.observedAt && a.id > b.id)
  }

  predicate Superseded(rows: seq<Evaluation>, e: Evaluation) {
    exists f :: f in rows && f.candidateKey == e.candidateKey && Newer(f, e)
  }

  function Filter<T>(rows: seq<T>, keep: T -> bool): seq<T> {
    if |rows| == 0 then [] else (if keep(rows[0]) then [rows[0]] else []) + Filter(rows[1..], keep)
  }

  function IsValid(g: Registry, q: Query): Evaluation -> bool { e => Valid(g, q, e) }

  function IsLatest(rows: seq<Evaluation>): Evaluation -> bool { (e: Evaluation) => !Superseded(rows, e) }

  function IsEligible(g: Registry, q: Query): Evaluation -> bool { (e: Evaluation) => Eligible(g, q, e.candidateKey) }

  function ValidRows(g: Registry, q: Query, rows: seq<Evaluation>): seq<Evaluation> {
    Filter(rows, IsValid(g, q))
  }

  /** DISTINCT ON (candidate_key). */
  function Latest(rows: seq<Evaluation>): seq<Evaluation> {
    Filter(rows, IsLatest(rows))
  }

  function EligibleRows(g: Registry, q: Query, rows: seq<Evaluation>): seq<Evaluation> {
    Filter(rows, IsEligible(g, q))
  }

  function Coalesce(x: Option<real>): real { if x.Some? then x.value else 0.0 }

  function Score(e: Evaluation): real {
    Coalesce(e.quality) * 0.35 + Coalesce(e.taskSuccess) * 0.30 + Coalesce(e.toolCalls) * 0.10
    + Coalesce(e.structuredOutput) * 0.10 + Coalesce(e.availability) * 0.15 - Coalesce(e.errorRate) * 0.20
  }

  function Row(g: Registry, e: Evaluation): Ranked
    requires Joined(g, e.candidateKey)
  {
    var c := g.candidates[e.candidateKey];
    Ranked(e.candidateKey, c.providerKey, c.modelId, c.routeAlias, ProviderOf(g, e.candidateKey).routeKind, c.costClass,
           e.id, Score(e), e.latency, e.throughput, e.observedAt, e.validUntil)
  }

  /** ASC NULLS LAST. */
  predicate Quicker(a: Option<real>, b: Option<real>) {
    a.Some? && (b.None? || a.value < b.value)
  }

  predicate Before(a: Ranked, b: Ranked) {
    a.score > b.score || (a.score == b.score && (
    Quicker(a.latency, b.latency) || (a.latency == b.latency && StrLess(a.candidateKey, b.candidateKey))))
  }

  function Insert(x: Ranked, sorted: seq<Ranked>): seq<Ranked> {
    if |sorted| == 0 || Before(x, sorted[0]) then [x] + sorted else [sorted[0]] + Insert(x, sorted[1..])
  }

  predicate AllJoined(g: Registry, rows: seq<Evaluation>) {
    forall e :: e in rows ==> Joined(g, e.candidateKey)
  }

  function Sorted(g: Registry, rows: seq<Evaluation>): seq<Ranked>
    requires AllJoined(g, rows)
  {
    if |rows| == 0 then [] else Insert(Row(g, rows[0]), Sorted(g, rows[1..]))
  }

  lemma {:induction false} FilterContent<T>(rows: seq<T>, keep: T -> bool, x: T)
    ensures x in Filter(rows, keep) <==> x in rows && keep(x)
  {
    if |rows| > 0 { FilterContent(rows[1..], keep, x); }
  }

  lemma EligibleAreJoined(g: Registry, q: Query, rows: seq<Evaluation>)
    ensures AllJoined(g, EligibleRows(g, q, rows))
  {
    forall e | e in EligibleRows(g, q, rows) ensures Joined(g, e.candidateKey) {
      FilterContent(rows, IsEligible(g, q), e);
    }
  }

  /** rank_model_candidates over the evaluations in storage order. */
  function Rank(g: Registry, q: Query, rows: seq<Evaluation>): seq<Ranked> {
    EligibleAreJoined(g, q, Latest(ValidRows(g, q, rows)));
    Sorted(g, EligibleRows(g, q, Latest(ValidRows(g, q, rows))))
  }

  // ---- what the query returns ----

  predicate IdsDistinct(rows: seq<Evaluation>) {
    forall i, k :: 0 <= i < k < |rows| ==> rows[i].id != rows[k].id
  }

  /** The evaluation the query uses for its candidate. */
  predicate Chosen(g: Registry, q: Query, rows: seq<Evaluation>, e: Evaluation) {
    && e in rows && Valid(g, q, e) && Eligible(g, q, e.candidateKey)
    && forall f :: f in rows && Valid(g, q, f) && f.candidateKey == e.candidateKey ==> !Newer(f, e)
  }

  lemma PickedAreChosen(g: Registry, q: Query, rows: seq<Evaluation>, e: Evaluation)
    ensures e in EligibleRows(g, q, Latest(ValidRows(g, q, rows))) <==> Chosen(g, q, rows, e)
  {
    var valid := ValidRows(g, q, rows);
    FilterContent(Latest(valid), IsEligible(g, q), e);
    FilterContent(valid, IsLatest(valid), e);
    FilterContent(rows, IsValid(g, q), e);
    forall f ensures f in valid <==> f in rows && Valid(g, q, f) { FilterContent(rows, IsValid(g, q), f); }
  }

  lemma {:induction false} InsertContent(x: Ranked, sorted: seq<Ranked>, y: Ranked)
    ensures y in Insert(x, sorted) <==> y == x || y in sorted
  {
    if |sorted| > 0 && !Before(x, sorted[0]) { InsertContent(x, sorted[1..], y); }
  }

  lemma {:induction false} SortedContent(g: Registry, rows: seq<Evaluation>, x: Ranked)
    requires AllJoined(g, rows)
    ensures x in Sorted(g, rows) <==> exists e :: e in rows && Row(g, e) == x
  {
    if |rows| > 0 {
      InsertContent(Row(g, rows[0]), Sorted(g, rows[1..]), x);
      SortedContent(g, rows[1..], x);
      forall e ensures e in rows <==> e == rows[0] || e in rows[1..] {}
    }
  }

  /** The rows returned are those of the chosen evaluations. */
  lemma RankContent(g: Registry, q: Query, rows: seq<Evaluation>, x: Ranked)
    ensures x in Rank(g, q, rows) <==> exists e :: Chosen(g, q, rows, e) && Row(g, e) == x
  {
    var picked := EligibleRows(g, q, Latest(ValidRows(g, q, rows)));
    EligibleAreJoined(g, q, Latest(ValidRows(g, q, rows)));
    SortedContent(g, picked, x);
    forall e ensures e in picked <==> Chosen(g, q, rows, e) { PickedAreChosen(g, q, rows, e); }
  }

  // ---- order ----

  lemma BeforeStrict(a: Ranked, b: Ranked)
    ensures !(Before(a, b) && Before(b, a))
    ensures a.candidateKey != b.candidateKey ==> Before(a, b) || Before(b, a)
  {
    StrTotal(a.candidateKey, b.candidateKey);
    if StrLess(a.candidateKey, b.candidateKey) && StrLess(b.candidateKey, a.candidateKey) {
      StrTransitive(a.candidateKey, b.candidateKey, a.candidateKey);
      StrIrreflexive(a.candidateKey);
    }
  }

  lemma BeforeTransitive(a: Ranked, b: Ranked, c: Ranked)
    requires Before(a, b) && Before(b, c)
    ensures Before(a, c)
  {
    if StrLess(a.candidateKey, b.candidateKey) && StrLess(b.candidateKey, c.candidateKey) {
      StrTransitive(a.candidateKey, b.candidateKey, c.candidateKey);
    }
  }

  predicate Ordered(rows: seq<Ranked>) {
    forall i, k :: 0 <= i < k < |rows| ==> Before(rows[i], rows[k])
  }

  lemma {:induction false} InsertOrdered(x: Ranked, sorted: seq<Ranked>)
    requires Ordered(sorted) && forall y :: y in sorted ==> y.candidateKey != x.candidateKey
    ensures Ordered(Insert(x, sorted))
  {
    if |sorted| == 0 {
    } else if Before(x, sorted[0]) {
      forall k | 0 < k < |sorted| ensures Before(x, sorted[k]) { BeforeTransitive(x, sorted[0], sorted[k]); }
    } else {
      BeforeStrict(x, sorted[0]);
      InsertOrdered(x, sorted[1..]);
      var rest := Insert(x, sorted[1..]);
      forall k | 0 <= k < |rest| ensures Before(sorted[0], rest[k]) {
        InsertContent(x, sorted[1..], rest[k]);
      }
    }
  }

  predicate CandidatesDistinct(rows: seq<Evaluation>) {
    forall i, k :: 0 <= i < k < |rows| ==> rows[i].candidateKey != rows[k].candidateKey
  }

  lemma {:induction false} SortedOrdered(g: Registry, rows: seq<Evaluation>)
    requires AllJoined(g, rows) && CandidatesDistinct(rows)
    ensures Ordered(Sorted(g, rows))
  {
    if |rows| > 0 {
      SortedOrdered(g, rows[1..]);
      forall y | y in Sorted(g, rows[1..]) ensures y.candidateKey != rows[0].candidateKey {
        SortedContent(g, rows[1..], y);
      }
      InsertOrdered(Row(g, rows[0]), Sorted(g, rows[1..]));
    }
  }

  /** What a filter keeps stays in storage order, so distinctness is inherited. */
  lemma {:induction false} FilterPairs<T>(rows: seq<T>, keep: T -> bool, i: nat, k: nat) returns (i': nat, k': nat)
    requires i < k < |Filter(rows, keep)|
    ensures i' < k' < |rows| && rows[i'] == Filter(rows, keep)[i] && rows[k'] == Filter(rows, keep)[k]
  {
    if !keep(rows[0]) {
      i', k' := FilterPairs(rows[1..], keep, i, k);
      i', k' := i' + 1, k' + 1;
    } else if i > 0 {
      i', k' := FilterPairs(rows[1..], keep, i - 1, k - 1);
      i', k' := i' + 1, k' + 1;
    } else {
      FilterContent(rows[1..], keep, Filter(rows[1..], keep)[k - 1]);
      k' :| 0 <= k' < |rows[1..]| && rows[1..][k'] == Filter(rows, keep)[k];
      i', k' := 0, k' + 1;
    }
  }

  lemma IdsFilter(rows: seq<Evaluation>, keep: Evaluation -> bool)
    requires IdsDistinct(rows)
    ensures IdsDistinct(Filter(rows, keep))
  {
    forall i, k | 0 <= i < k < |Filter(rows, keep)| ensures Filter(rows, keep)[i].id != Filter(rows, keep)[k].id {
      var i', k' := FilterPairs(rows, keep, i, k);
    }
  }

  /** DISTINCT ON leaves one row per candidate. */
  lemma LatestDistinct(rows: seq<Evaluation>, keep: Evaluation -> bool)
    requires IdsDistinct(rows)
    ensures CandidatesDistinct(Filter(Latest(rows), keep))
  {
    var latest := Latest(rows);
    var kept := Filter(latest, keep);
    IdsFilter(rows, IsLatest(rows));
    forall i, k | 0 <= i < k < |kept| ensures kept[i].candidateKey != kept[k].candidateKey {
      var i', k' := FilterPairs(latest, keep, i, k);
      FilterContent(rows, IsLatest(rows), kept[i]);
      FilterContent(rows, IsLatest(rows), kept[k]);
      assert Newer(kept[i], kept[k]) || Newer(kept[k], kept[i]);
    }
  }

  /** One row per candidate, in a strict total order. */
  lemma RankIsOrdered(g: Registry, q: Query, rows: seq<Evaluation>)
    requires IdsDistinct(rows)
    ensures Ordered(Rank(g, q, rows))
    ensures forall i, k :: 0 <= i < k < |Rank(g, q, rows)| ==>
              Rank(g, q, rows)[i].candidateKey != Rank(g, q, rows)[k].candidateKey
  {
    var valid := ValidRows(g, q, rows);
    IdsFilter(rows, IsValid(g, q));
    LatestDistinct(valid, IsEligible(g, q));
    EligibleAreJoined(g, q, Latest(valid));
    SortedOrdered(g, EligibleRows(g, q, Latest(valid)));
    var ranked := Rank(g, q, rows);
    forall i, k | 0 <= i < k < |ranked| ensures ranked[i].candidateKey != ranked[k].candidateKey {
      RankContent(g, q, rows, ranked[i]);
      RankContent(g, q, rows, ranked[k]);
      var e :| Chosen(g, q, rows, e) && Row(g, e) == ranked[i];
      var f :| Chosen(g, q, rows, f) && Row(g, f) == ranked[k];
      if e.candidateKey == f.candidateKey {
        ChosenIsUnique(g, q, rows, e, f);
        BeforeStrict(ranked[i], ranked[k]);
      }
    }
  }

  lemma ChosenIsUnique(g: Registry, q: Query, rows: seq<Evaluation>, e: Evaluation, f: Evaluation)
    requires IdsDistinct(rows) && Chosen(g, q, rows, e) && Chosen(g, q, rows, f) && e.candidateKey == f.candidateKey
    ensures e == f
  {}

  lemma TailContent(rows: seq<Ranked>, x: Ranked)
    requires Ordered(rows) && |rows| > 0
    ensures x in rows[1..] <==> x in rows && x != rows[0]
  {
    BeforeStrict(rows[0], rows[0]);
    if i :| 0 < i < |rows| && rows[i] == x { assert rows[1..][i - 1] == x; }
  }

  lemma EmptyIff<T>(rows: seq<T>)
    ensures rows == [] <==> forall x :: x !in rows
  {
    if |rows| > 0 { assert rows[0] in rows; }
  }

  /** A strictly ordered sequence is determined by its elements. */
  lemma {:induction false} OrderedUnique(a: seq<Ranked>, b: seq<Ranked>)
    requires Ordered(a) && Ordered(b) && forall x :: x in a <==> x in b
    ensures a == b
  {
    if |a| == 0 {
      EmptyIff(b);
    } else {
      assert a[0] in b;
      assert b[0] in a;
      if a[0] != b[0] { BeforeStrict(a[0], b[0]); }
      forall x ensures x in a[1..] <==> x in b[1..] {
        TailContent(a, x);
        TailContent(b, x);
      }
      OrderedUnique(a[1..], b[1..]);
      assert a == [a[0]] + a[1..] && b == [b[0]] + b[1..];
    }
  }

  /** Two tables with the same relevant evaluations give the same ranking. */
  lemma SameRelevantSameRank(g: Registry, q: Query, rows: seq<Evaluation>, rows': seq<Evaluation>)
    requires IdsDistinct(rows) && IdsDistinct(rows')
    requires forall e :: Valid(g, q, e) && Eligible(g, q, e.candidateKey) ==> (e in rows <==> e in rows')
    ensures Rank(g, q, rows) == Rank(g, q, rows')
  {
    forall e ensures Chosen(g, q, rows, e) <==> Chosen(g, q, rows', e) {}
    forall x ensures x in Rank(g, q, rows) <==> x in Rank(g, q, rows') {
      RankContent(g, q, rows, x);
      RankContent(g, q, rows', x);
    }
    RankIsOrdered(g, q, rows);
    RankIsOrdered(g, q, rows');
    OrderedUnique(Rank(g, q, rows), Rank(g, q, rows'));
  }

  /** The result does not depend on how the table is stored. */
  lemma StorageOrderIrrelevant(g: Registry, q: Query, rows: seq<Evaluation>, rows': seq<Evaluation>)
    requires IdsDistinct(rows) && IdsDistinct(rows') && multiset(rows) == multiset(rows')
    ensures Rank(g, q, rows) == Rank(g, q, rows')
  {
    forall e ensures e in rows <==> e in rows' {
      assert e in rows <==> e in multiset(rows);
      assert e in rows' <==> e in multiset(rows');
    }
    SameRelevantSameRank(g, q, rows, rows');
  }

  /** Adding evaluations that are synthetic, expired, for another role or other
      hardware, or of an ineligible candidate, changes nothing. */
  lemma IrrelevantEvaluationsIgnored(g: Registry, q: Query, rows: seq<Evaluation>, more: seq<Evaluation>)
    requires IdsDistinct(rows + more)
    requires forall e :: e in more ==> !(Valid(g, q, e) && Eligible(g, q, e.candidateKey))
    ensures Rank(g, q, rows + more) == Rank(g, q, rows)
  {
    forall i, k | 0 <= i < k < |rows| ensures rows[i].id != rows[k].id {
      assert (rows + more)[i] == rows[i] && (rows + more)[k] == rows[k];
    }
    SameRelevantSameRank(g, q, rows + more, rows);
  }

  // ---- latest-then-filter is filter-then-latest ----

  lemma {:induction false} FilterSwap<T>(rows: seq<T>, a: T -> bool, b: T -> bool, c: T -> bool)
    requires forall x :: x in rows && b(x) ==> (a(x) <==> c(x))
    ensures Filter(Filter(rows, a), b) == Filter(Filter(rows, b), c)
  {
    if |rows| > 0 {
      FilterSwap(rows[1..], a, b, c);
      FilterCons(rows[0], Filter(rows[1..], a), b);
      FilterCons(rows[0], Filter(rows[1..], b), c);
      assert [] + Filter(rows[1..], a) == Filter(rows[1..], a);
      assert [] + Filter(rows[1..], b) == Filter(rows[1..], b);
      assert [] + Filter(Filter(rows[1..], b), c) == Filter(Filter(rows[1..], b), c);
    }
  }

  lemma FilterCons<T>(x: T, rows: seq<T>, keep: T -> bool)
    ensures Filter([x] + rows, keep) == (if keep(x) then [x] else []) + Filter(rows, keep)
  {}

  /** Eligibility is a property of the candidate, so it does not matter whether
      the policy filter runs after or before DISTINCT ON. */
  lemma FilterThenLatest(g: Registry, q: Query, rows: seq<Evaluation>)
    ensures EligibleRows(g, q, Latest(rows)) == Latest(EligibleRows(g, q, rows))
  {
    var eligible := EligibleRows(g, q, rows);
    forall e | e in rows && Eligible(g, q, e.candidateKey) ensures Superseded(rows, e) <==> Superseded(eligible, e) {
      forall f ensures f in eligible <==> f in rows && Eligible(g, q, f.candidateKey) {
        FilterContent(rows, IsEligible(g, q), f);
      }
    }
    FilterSwap(rows, IsLatest(rows), IsEligible(g, q), IsLatest(eligible));
  }

  // ---- score ----

  predicate UnitOrNull(x: Option<real>) { x.None? || 0.0 <= x.value <= 1.0 }

  /** The CHECK constraints of fzh.model_evaluations on the scored columns. */
  predicate ScoresChecked(e: Evaluation) {
    UnitOrNull(e.quality) && UnitOrNull(e.taskSuccess) && UnitOrNull(e.toolCalls) && UnitOrNull(e.structuredOutput)
    && UnitOrNull(e.availability) && UnitOrNull(e.errorRate)
  }

  /** Every returned score lies in [-0.20, 1.00]. */
  lemma ScoresBounded(g: Registry, q: Query, rows: seq<Evaluation>, x: Ranked)
    requires x in Rank(g, q, rows) && forall e :: e in rows ==> ScoresChecked(e)
    ensures -0.20 <= x.score <= 1.00
  {
    RankContent(g, q, rows, x);
  }

  /** Nothing is ever ranked for SECRET, or for a classification that is unknown or NULL. */
  lemma SecretRanksNothing(g: Registry, q: Query, rows: seq<Evaluation>)
    requires q.classification.None? || Upper(q.classification.value) !in {"PUBLIC", "INTERNAL", "CONFIDENTIAL"}
    ensures Rank(g, q, rows) == []
  {
    if |Rank(g, q, rows)| > 0 { RankContent(g, q, rows, Rank(g, q, rows)[0]); }
  }

  /** Whatever is ranked was promoted, is not paid, and its provider may see the
      data; confidential data goes to a remote provider only with zero retention
      and no training on it. */
  lemma PolicyHolds(g: Registry, q: Query, rows: seq<Evaluation>, x: Ranked)
    requires x in Rank(g, q, rows)
    ensures x.costClass != Paid && Joined(g, x.candidateKey)
    ensures g.candidates[x.candidateKey].status == Approved && g.candidates[x.candidateKey].enabled
    ensures var p := ProviderOf(g, x.candidateKey);
            && p.enabled && x.routeKind == p.routeKind
            && q.classification.Some? && (
            var level := Upper(q.classification.value);
            && (level == "PUBLIC" ==> p.approvedPublic)
            && (level == "INTERNAL" ==> p.approvedInternal)
            && (level == "CONFIDENTIAL" ==>
                  p.approvedConfidential
                  && (x.routeKind == Remote ==> p.zeroRetention == Some(true) && p.trainingAllowed == Some(false))))
  {
    RankContent(g, q, rows, x);
  }

  // ---- the result, column by column ----

  /** A real, current measurement of the role asked for; remote models are not
      measured on any hardware, local ones on the hardware asked for. */
  predicate Counts(g: Registry, q: Query, e: Evaluation) {
    && e.candidateKey in g.candidates && g.candidates[e.candidateKey].providerKey in g.providers
    && q.taskRole.Some? && e.taskRole == q.taskRole.value && !e.synthetic && q.now < e.validUntil
    && (if g.providers[g.candidates[e.candidateKey].providerKey].routeKind.Remote? then e.hardware.None?
        else e.hardware.Some? && q.hardware.Some? && e.hardware.value == q.hardware.value)
  }

  /** In hundredths; what was not measured counts nothing, errors count against. */
  function Hundredths(e: Evaluation): real {
    var of := (x: Option<real>) => if x.None? then 0.0 else x.value;
    35.0 * of(e.quality) + 30.0 * of(e.taskSuccess) + 10.0 * of(e.toolCalls) + 10.0 * of(e.structuredOutput)
    + 15.0 * of(e.availability) - 20.0 * of(e.errorRate)
  }

  /** The row of evaluation `e`, with the columns of its candidate and provider. */
  predicate IsRowOf(g: Registry, e: Evaluation, x: Ranked) {
    && x.candidateKey == e.candidateKey && x.evaluationId == e.id && 100.0 * x.score == Hundredths(e)
    && x.latency == e.latency && x.throughput == e.throughput
    && x.observedAt == e.observedAt && x.validUntil == e.validUntil
    && e.candidateKey in g.candidates
    && x.providerKey == g.candidates[e.candidateKey].providerKey && x.modelId == g.candidates[e.candidateKey].modelId
    && x.routeAlias == g.candidates[e.candidateKey].routeAlias && x.costClass == g.candidates[e.candidateKey].costClass
    && x.providerKey in g.providers && x.routeKind == g.providers[x.providerKey].routeKind
  }

  /** Of the measurements of its candidate that count it is the last, by time and then by id. */
  predicate LastToCount(g: Registry, q: Query, rows: seq<Evaluation>, e: Evaluation) {
    && e in rows && Counts(g, q, e)
    && forall f :: f in rows && Counts(g, q, f) && f.candidateKey == e.candidateKey ==>
         f.observedAt < e.observedAt || (f.observedAt == e.observedAt && f.id <= e.id)
  }

  /** Every row comes from the last evaluation of its candidate that counts. */
  lemma RankedRowsAreCurrent(g: Registry, q: Query, rows: seq<Evaluation>, x: Ranked)
    requires x in Rank(g, q, rows)
    ensures exists e :: LastToCount(g, q, rows, e) && IsRowOf(g, e, x)
  {
    RankContent(g, q, rows, x);
    var e :| Chosen(g, q, rows, e) && Row(g, e) == x;
    assert LastToCount(g, q, rows, e) && IsRowOf(g, e, x);
  }

  /** The policy on the columns of candidate and provider. */
  predicate MayServe(g: Registry, q: Query, key: string) {
    && key in g.candidates && g.candidates[key].providerKey in g.providers
    && (var c, p := g.candidates[key], g.providers[g.candidates[key].providerKey];
        && c.status == Approved && c.enabled && p.enabled && c.costClass != Paid && q.classification.Some?
        && (var level := Upper(q.classification.value);
            || (level == "PUBLIC" && p.approvedPublic)
            || (level == "INTERNAL" && p.approvedInternal)
            || (level == "CONFIDENTIAL" && p.approvedConfidential
                && (p.routeKind == Remote ==> p.zeroRetention == Some(true) && p.trainingAllowed == Some(false)))))
  }

  /** And every candidate that may serve and has a measurement that counts is ranked with it. */
  lemma WhoMayServeIsRanked(g: Registry, q: Query, rows: seq<Evaluation>, e: Evaluation)
    requires LastToCount(g, q, rows, e) && MayServe(g, q, e.candidateKey)
    ensures exists x :: x in Rank(g, q, rows) && IsRowOf(g, e, x)
  {
    assert Chosen(g, q, rows, e);
    RankContent(g, q, rows, Row(g, e));
    assert IsRowOf(g, e, Row(g, e));
  }

  /** Best score first; among equals the quicker, unmeasured latency last; then by key. */
  lemma RankedInOrder(g: Registry, q: Query, rows: seq<Evaluation>, i: nat, k: nat)
    requires IdsDistinct(rows) && i < k < |Rank(g, q, rows)|
    ensures var a, b := Rank(g, q, rows)[i], Rank(g, q, rows)[k];
            && a.score >= b.score
            && (a.score == b.score && a.latency.None? ==> b.latency.None?)
            && (a.score == b.score && a.latency.Some? && b.latency.Some? ==> a.latency.value <= b.latency.value)
            && (a.score == b.score && a.latency == b.latency ==> StrLess(a.candidateKey, b.candidateKey))
  {
    RankIsOrdered(g, q, rows);
    assert Before(Rank(g, q, rows)[i], Rank(g, q, rows)[k]);
  }

  /** The same letters, in whatever case. */
  predicate SameLetters(a: string, b: string) {
    && |a| == |b|
    && forall i :: 0 <= i < |a| ==>
         || a[i] == b[i] || ('a' <= a[i] <= 'z' && b[i] == 'A' + (a[i] - 'a'))
         || ('a' <= b[i] <= 'z' && a[i] == 'A' + (b[i] - 'a'))
  }

  /** The classification is read without regard to case. */
  lemma CaseIsIgnored(g: Registry, q: Query, level: string, level': string, key: string)
    requires SameLetters(level, level')
    ensures Eligible(g, q.(classification := Some(level)), key)
        <==> Eligible(g, q.(classification := Some(level')), key)
  {
    assert Upper(level) == Upper(level');
  }
}
