/** Profile identifiers, their effect keys and their selection (B034). */
module QaProfiles {
  import opened Basics
  import opened LedgerTypes

  predicate ProfileChar(c: char) {
    'A' <= c <= 'Z' || 'a' <= c <= 'z' || '0' <= c <= '9' || c in "_.:-"
  }

  /** ^[A-Za-z0-9_.:-]{1,64}$ */
  predicate ProfileOk(p: string) {
    1 <= |p| <= 64 && forall i :: 0 <= i < |p| ==> ProfileChar(p[i])
  }

  const PREFIX := "b034:qa-profile:"

  function ProfileKey(j: JobId, p: string): string {
    PREFIX + j + ":" + p
  }

  /** Although profile ids may contain ':', no two (job, profile) pairs share a
      key, because a job id has fixed length; and every key fits its column. */
  lemma ProfileKeyInjective(j: JobId, p: string, j': JobId, p': string)
    ensures ProfileKey(j, p) == ProfileKey(j', p') ==> j == j' && p == p'
    ensures ProfileOk(p) ==> 1 <= |ProfileKey(j, p)| <= 256
  {
    var n := |PREFIX|;
    var k, k' := ProfileKey(j, p), ProfileKey(j', p');
    assert k[n..n + 36] == j && k'[n..n + 36] == j';
    assert k[n + 37..] == p && k'[n + 37..] == p';
  }

  predicate Distinct<T(==)>(s: seq<T>) {
    forall i, k :: 0 <= i < k < |s| ==> s[i] != s[k]
  }

  /** `selected` followed by the items of `more` that are new, in order. */
  function AddNew(selected: seq<string>, more: seq<string>): seq<string>
    decreases |more|
  {
    if |more| == 0 then selected
    else AddNew(if more[0] in selected then selected else selected + [more[0]], more[1..])
  }

  lemma {:induction false} AddNewSnoc(selected: seq<string>, more: seq<string>, p: string)
    ensures var before := AddNew(selected, more);
            AddNew(selected, more + [p]) == if p in before then before else before + [p]
    decreases |more|
  {
    if |more| > 0 {
      assert (more + [p])[1..] == more[1..] + [p];
      AddNewSnoc(if more[0] in selected then selected else selected + [more[0]], more[1..], p);
    }
  }

  /** Nothing is lost, nothing is duplicated, and what was selected stays in front. */
  lemma {:induction false} AddNewSelects(selected: seq<string>, more: seq<string>)
    requires Distinct(selected)
    ensures Distinct(AddNew(selected, more)) && selected <= AddNew(selected, more)
    ensures forall p :: p in AddNew(selected, more) <==> p in selected || p in more
    decreases |more|
  {
    if |more| > 0 {
      var next := if more[0] in selected then selected else selected + [more[0]];
      AddNewSelects(next, more[1..]);
      assert forall p :: p in next <==> p in selected || p == more[0];
      assert forall p :: p in more <==> p == more[0] || p in more[1..];
    }
  }

  datatype Suggestion = Suggestion(id: string, hypothesis: string)

  predicate Blank(s: string) {
    forall i :: 0 <= i < |s| ==> s[i] in " \t\n\r"
  }

  predicate SuggestionOk(s: Suggestion) {
    ProfileOk(s.id) && !Blank(s.hypothesis) && |s.hypothesis| <= 2000
  }

  /** Identifiers of the suggestions that are (or are not) in the catalogue. */
  function IdsWhere(suggestions: seq<Suggestion>, allowed: set<string>, wanted: bool): seq<string> {
    if |suggestions| == 0 then []
    else
      var rest := IdsWhere(suggestions[..|suggestions| - 1], allowed, wanted);
      var id := suggestions[|suggestions| - 1].id;
      if (id in allowed) == wanted then rest + [id] else rest
  }

  predicate Suggests(suggestions: seq<Suggestion>, p: string) {
    exists i :: 0 <= i < |suggestions| && suggestions[i].id == p
  }

  lemma {:induction false} IdsWhereContent(suggestions: seq<Suggestion>, allowed: set<string>, wanted: bool, p: string)
    ensures p in IdsWhere(suggestions, allowed, wanted) <==> (p in allowed) == wanted && Suggests(suggestions, p)
  {
    if |suggestions| > 0 {
      var n := |suggestions| - 1;
      IdsWhereContent(suggestions[..n], allowed, wanted, p);
      assert Suggests(suggestions, p) <==> suggestions[n].id == p || Suggests(suggestions[..n], p) by {
        if i :| 0 <= i < n && suggestions[i].id == p { assert suggestions[..n][i].id == p; }
        if i :| 0 <= i < n && suggestions[..n][i].id == p { assert suggestions[i].id == p; }
      }
    }
  }

  /** Suggestions are gone through one by one, in their order. */
  lemma {:induction false} IdsWhereAppends(a: seq<Suggestion>, b: seq<Suggestion>, allowed: set<string>, wanted: bool)
    ensures IdsWhere(a + b, allowed, wanted) == IdsWhere(a, allowed, wanted) + IdsWhere(b, allowed, wanted)
    decreases |b|
  {
    if |b| == 0 {
      assert a + b == a;
    } else {
      assert (a + b)[..|a + b| - 1] == a + b[..|b| - 1];
      IdsWhereAppends(a, b[..|b| - 1], allowed, wanted);
    }
  }

  /** The loop of validate_model_selection; None when a suggestion is malformed. */
  method ValidateModelSelection(suggestions: seq<Suggestion>, allowed: set<string>, maximum: nat)
    returns (r: Option<(seq<string>, seq<string>)>)
    ensures r.None? <==> |suggestions| > maximum || exists i :: 0 <= i < |suggestions| && !SuggestionOk(suggestions[i])
    ensures r.Some? ==> r.value.0 == AddNew([], IdsWhere(suggestions, allowed, true))
    ensures r.Some? ==> r.value.1 == IdsWhere(suggestions, allowed, false)
  {
    if |suggestions| > maximum { return None; }
    var accepted: seq<string>, rejected: seq<string> := [], [];
    for i := 0 to |suggestions|
      invariant forall k :: 0 <= k < i ==> SuggestionOk(suggestions[k])
      invariant accepted == AddNew([], IdsWhere(suggestions[..i], allowed, true))
      invariant rejected == IdsWhere(suggestions[..i], allowed, false)
    {
      if !SuggestionOk(suggestions[i]) { return None; }
      assert suggestions[..i + 1][..i] == suggestions[..i];
      var id := suggestions[i].id;
      if id in allowed {
        AddNewSnoc([], IdsWhere(suggestions[..i], allowed, true), id);
        if id !in accepted { accepted := accepted + [id]; }
      } else {
        rejected := rejected + [id];
      }
    }
    assert suggestions[..|suggestions|] == suggestions;
    r := Some((accepted, rejected));
  }

  /** `x` is in the list, and there is no `y` before it. */
  predicate ComesBefore(list: seq<string>, x: string, y: string) {
    |list| > 0 && list[0] != y && (list[0] == x || ComesBefore(list[1..], x, y))
  }

  lemma {:induction false} ComesBeforeIn(a: seq<string>, b: seq<string>, x: string, y: string)
    ensures ComesBefore(a + b, x, y) == if x in a || y in a then ComesBefore(a, x, y) else ComesBefore(b, x, y)
  {
    if |a| == 0 {
      assert a + b == b;
    } else {
      assert (a + b)[1..] == a[1..] + b;
      ComesBeforeIn(a[1..], b, x, y);
    }
  }

  lemma {:induction false} AddNewInOrder(selected: seq<string>, more: seq<string>, x: string, y: string)
    ensures ComesBefore(AddNew(selected, more), x, y) == ComesBefore(selected + more, x, y)
    decreases |more|
  {
    if |more| == 0 {
      assert selected + more == selected;
    } else {
      var next := if more[0] in selected then selected else selected + [more[0]];
      AddNewInOrder(next, more[1..], x, y);
      ComesBeforeIn(next, more[1..], x, y);
      ComesBeforeIn(selected, [more[0]], x, y);
      ComesBeforeIn(selected, more, x, y);
    }
  }

  /** The profiles a run executes, in order. */
  function Selection(baseline: seq<string>, required: seq<string>, proposed: seq<string>): seq<string> {
    AddNew(AddNew([], baseline + required), proposed)
  }

  /** The two selection loops of the coordinator. */
  method SelectProfiles(baseline: seq<string>, required: seq<string>, proposed: seq<string>)
    returns (selected: seq<string>)
    ensures selected == Selection(baseline, required, proposed)
  {
    selected := [];
    var fixed := baseline + required;
    for i := 0 to |fixed|
      invariant selected == AddNew([], fixed[..i])
    {
      assert fixed[..i + 1] == fixed[..i] + [fixed[i]];
      AddNewSnoc([], fixed[..i], fixed[i]);
      if fixed[i] !in selected { selected := selected + [fixed[i]]; }
    }
    assert fixed[..|fixed|] == fixed;
    ghost var start := selected;
    for i := 0 to |proposed|
      invariant selected == AddNew(start, proposed[..i])
    {
      assert proposed[..i + 1] == proposed[..i] + [proposed[i]];
      AddNewSnoc(start, proposed[..i], proposed[i]);
      if proposed[i] !in selected { selected := selected + [proposed[i]]; }
    }
    assert proposed[..|proposed|] == proposed;
  }

  /** Every baseline, required and proposed profile runs, and each only once. */
  lemma SelectionIsExact(baseline: seq<string>, required: seq<string>, proposed: seq<string>)
    ensures Distinct(Selection(baseline, required, proposed))
    ensures forall p ::
              p in Selection(baseline, required, proposed) <==> p in baseline || p in required || p in proposed
  {
    AddNewSelects([], baseline + required);
    AddNewSelects(AddNew([], baseline + required), proposed);
  }

  /** They run in the order of the baseline, then what is required, then what
      was proposed, each where it first occurs. */
  lemma SelectionIsInOrder(baseline: seq<string>, required: seq<string>, proposed: seq<string>, x: string, y: string)
    ensures ComesBefore(Selection(baseline, required, proposed), x, y)
        <==> ComesBefore(baseline + required + proposed, x, y)
  {
    var fixed := baseline + required;
    AddNewInOrder([], fixed, x, y);
    assert [] + fixed == fixed;
    AddNewSelects([], fixed);
    AddNewInOrder(AddNew([], fixed), proposed, x, y);
    ComesBeforeIn(AddNew([], fixed), proposed, x, y);
    ComesBeforeIn(fixed, proposed, x, y);
  }
}
