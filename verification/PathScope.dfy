/** The path-scope predicate of the worker and the reviewer. */
module PathScope {
  import opened Basics

  // ---- PurePosixPath ----

  function Split(s: string): (parts: seq<string>)
    ensures |parts| > 0
  {
    if |s| == 0 then [""]
    else if s[0] == '/' then [""] + Split(s[1..])
    else [[s[0]] + Split(s[1..])[0]] + Split(s[1..])[1..]
  }

  function Join(parts: seq<string>): string {
    if |parts| == 0 then "" else if |parts| == 1 then parts[0] else parts[0] + "/" + Join(parts[1..])
  }

  function Kept(parts: seq<string>): seq<string> {
    if |parts| == 0 then []
    else (if parts[0] == "" || parts[0] == "." then [] else [parts[0]]) + Kept(parts[1..])
  }

  /** PurePosixPath(s).parts of a relative path. */
  function Components(s: string): seq<string> { Kept(Split(s)) }

  function AsPosix(parts: seq<string>): string { if |parts| == 0 then "." else Join(parts) }

  // ---- validate_rel_path; None when it raises ----

  function ValidateRelPath(raw: string): Option<string> {
    if |raw| == 0 || '\0' in raw || '\\' in raw || raw[0] == '/' then None
    else
      var parts := Components(raw);
      if ".." in parts || ".git" in parts then None else Some(AsPosix(parts))
  }

  predicate IsComponent(p: string) { |p| > 0 && p != "." && '/' !in p }

  predicate Proper(parts: seq<string>) {
    forall i :: 0 <= i < |parts| ==> IsComponent(parts[i])
  }

  lemma {:induction false} SplitPlain(s: string)
    ensures forall i :: 0 <= i < |Split(s)| ==> '/' !in Split(s)[i]
  {
    if |s| > 0 { SplitPlain(s[1..]); }
  }

  lemma {:induction false} KeptIsProper(parts: seq<string>)
    requires forall i :: 0 <= i < |parts| ==> '/' !in parts[i]
    ensures Proper(Kept(parts))
  {
    if |parts| > 0 { KeptIsProper(parts[1..]); }
  }

  lemma {:induction false} KeptAll(parts: seq<string>)
    requires Proper(parts)
    ensures Kept(parts) == parts
  {
    if |parts| > 0 { KeptAll(parts[1..]); }
  }

  lemma {:induction false} SplitComponent(s: string)
    requires '/' !in s
    ensures Split(s) == [s]
  {
    if |s| > 0 {
      SplitComponent(s[1..]);
      assert [s[0]] + s[1..] == s;
    }
  }

  lemma {:induction false} SplitAppend(x: string, y: string)
    ensures Split(x + "/" + y) == Split(x) + Split(y)
  {
    if |x| == 0 {
      assert (x + "/" + y)[1..] == y;
    } else {
      assert (x + "/" + y)[1..] == x[1..] + "/" + y;
      SplitAppend(x[1..], y);
    }
  }

  lemma {:induction false} SplitJoin(parts: seq<string>)
    requires |parts| > 0 && Proper(parts)
    ensures Split(Join(parts)) == parts
  {
    SplitComponent(parts[0]);
    if |parts| > 1 {
      SplitAppend(parts[0], Join(parts[1..]));
      SplitJoin(parts[1..]);
    }
  }

  lemma {:induction false} JoinAppend(a: seq<string>, b: seq<string>)
    requires |a| > 0 && |b| > 0
    ensures Join(a + b) == Join(a) + "/" + Join(b)
  {
    if |a| == 1 {
      assert (a + b)[1..] == b;
    } else {
      assert (a + b)[1..] == a[1..] + b;
      JoinAppend(a[1..], b);
    }
  }

  lemma ComponentsAreProper(s: string)
    ensures Proper(Components(s))
  {
    SplitPlain(s);
    KeptIsProper(Split(s));
  }

  /** Writing the components out and reading them back gives the same components. */
  lemma ComponentsOfPosix(parts: seq<string>)
    requires Proper(parts)
    ensures Components(AsPosix(parts)) == parts
  {
    if |parts| == 0 {
      SplitComponent(".");
      assert Kept(["."]) == Kept([]);
    } else {
      SplitJoin(parts);
      KeptAll(parts);
    }
  }

  /** A character of a joined path is a separator or belongs to a component. */
  lemma {:induction false} JoinChars(parts: seq<string>, c: char)
    requires c != '/' && c in Join(parts)
    ensures exists i :: 0 <= i < |parts| && c in parts[i]
  {
    if |parts| == 1 {
      assert c in parts[0];
    } else if c in parts[0] {
    } else {
      JoinChars(parts[1..], c);
      var i :| 0 <= i < |parts[1..]| && c in parts[1..][i];
      assert c in parts[i + 1];
    }
  }

  lemma {:induction false} SplitChars(s: string, i: nat, c: char)
    requires i < |Split(s)| && c in Split(s)[i]
    ensures c in s
  {
    if |s| > 0 {
      var rest := Split(s[1..]);
      if s[0] == '/' {
        if i > 0 { SplitChars(s[1..], i - 1, c); }
      } else if i > 0 {
        SplitChars(s[1..], i, c);
      } else if c != s[0] {
        SplitChars(s[1..], 0, c);
      }
    }
  }

  lemma {:induction false} KeptFrom(parts: seq<string>, i: nat)
    requires i < |Kept(parts)|
    ensures exists k :: 0 <= k < |parts| && parts[k] == Kept(parts)[i]
  {
    if |Kept(parts)| == |Kept(parts[1..])| {
      KeptFrom(parts[1..], i);
      var k :| 0 <= k < |parts[1..]| && parts[1..][k] == Kept(parts)[i];
      assert parts[k + 1] == Kept(parts)[i];
    } else if i > 0 {
      KeptFrom(parts[1..], i - 1);
      var k :| 0 <= k < |parts[1..]| && parts[1..][k] == Kept(parts)[i];
      assert parts[k + 1] == Kept(parts)[i];
    } else {
      assert parts[0] == Kept(parts)[0];
    }
  }

  lemma PosixChars(raw: string, c: char)
    requires c !in "./" && c in AsPosix(Components(raw))
    ensures c in raw
  {
    var parts := Components(raw);
    JoinChars(parts, c);
    var i :| 0 <= i < |parts| && c in parts[i];
    KeptFrom(Split(raw), i);
    var k :| 0 <= k < |Split(raw)| && Split(raw)[k] == parts[i];
    SplitChars(raw, k, c);
  }

  /** A validated path validates to itself. */
  lemma ValidateIsIdempotent(raw: string)
    requires ValidateRelPath(raw).Some?
    ensures ValidateRelPath(ValidateRelPath(raw).value) == ValidateRelPath(raw)
  {
    var parts := Components(raw);
    var path := AsPosix(parts);
    ComponentsAreProper(raw);
    ComponentsOfPosix(parts);
    if '\0' in path { PosixChars(raw, '\0'); }
    if '\\' in path { PosixChars(raw, '\\'); }
    if |parts| > 0 { assert path[0] == parts[0][0]; }
  }

  // ---- scopes ----

  function StripSlashes(s: string): string {
    if |s| > 0 && s[|s| - 1] == '/' then StripSlashes(s[..|s| - 1]) else s
  }

  /** path == base or path.startswith(base + "/") */
  predicate Covers(base: string, path: string) { path == base || base + "/" <= path }

  predicate Under(base: seq<string>, path: seq<string>) { base <= path && (|base| == 0 ==> |path| == 0) }

  lemma PosixSplit(parts: seq<string>)
    requires Proper(parts)
    ensures Split(AsPosix(parts)) == if |parts| == 0 then ["."] else parts
  {
    if |parts| == 0 { SplitComponent("."); } else { SplitJoin(parts); }
  }

  lemma PrefixIsUnder(base: seq<string>, path: seq<string>)
    requires Proper(base) && Proper(path) && AsPosix(base) + "/" <= AsPosix(path)
    ensures Under(base, path)
  {
    var b, p := AsPosix(base), AsPosix(path);
    var tail := p[|b| + 1..];
    assert p == b + "/" + tail;
    SplitAppend(b, tail);
    PosixSplit(base);
    PosixSplit(path);
    assert Split(p)[..|Split(b)|] == Split(b);
    assert |Split(p)| > |Split(b)|;
  }

  lemma UnderIsPrefix(base: seq<string>, path: seq<string>)
    requires Proper(base) && Proper(path) && Under(base, path) && base != path
    ensures AsPosix(base) + "/" <= AsPosix(path)
  {
    assert path == base + path[|base|..];
    JoinAppend(base, path[|base|..]);
  }

  /** On validated paths the string test is the component-wise prefix test, but
      for the base ".", which covers nothing but itself. */
  lemma CoversMeansUnder(base: seq<string>, path: seq<string>)
    requires Proper(base) && Proper(path)
    ensures Covers(AsPosix(base), AsPosix(path)) <==> Under(base, path)
  {
    PosixInjective(base, path);
    if AsPosix(base) + "/" <= AsPosix(path) { PrefixIsUnder(base, path); }
    if Under(base, path) && base != path { UnderIsPrefix(base, path); }
  }

  function ValidateAll(raws: seq<string>): Option<seq<string>> {
    if |raws| == 0 then Some([])
    else
      match (ValidateRelPath(raws[0]), ValidateAll(raws[1..]))
      case (Some(path), Some(rest)) => Some([path] + rest)
      case _ => None
  }

  function StripAll(raws: seq<string>): seq<string> { seq(|raws|, i requires 0 <= i < |raws| => StripSlashes(raws[i])) }

  predicate AnyCovers(bases: seq<string>, path: string) {
    exists i :: 0 <= i < |bases| && Covers(bases[i], path)
  }

  /** The generator any() consumes: bases after the first match are not even validated. */
  function AnyAllowed(allowed: seq<string>, path: string): Option<bool> {
    if |allowed| == 0 then Some(false)
    else
      match ValidateRelPath(StripSlashes(allowed[0]))
      case None => None
      case Some(base) => if Covers(base, path) then Some(true) else AnyAllowed(allowed[1..], path)
  }

  datatype Scope = Scope(forbidden: seq<string>, forbiddenPrefixes: seq<string>)

  /** The part both programs share; None when it raises, Some(None) when the path is forbidden. */
  function NotForbidden(raw: string, config: Scope): Option<Option<string>> {
    match (ValidateRelPath(raw), ValidateAll(config.forbidden), ValidateAll(StripAll(config.forbiddenPrefixes)))
    case (Some(path), Some(forbidden), Some(prefixes)) =>
      Some(if path in forbidden || AnyCovers(prefixes, path) then None else Some(path))
    case _ => None
  }

  /** path_allowed of the worker; a missing allowed_paths list counts as empty. */
  function WorkerAllows(raw: string, allowed: seq<string>, config: Scope): Option<bool> {
    match NotForbidden(raw, config)
    case None => None
    case Some(None) => Some(false)
    case Some(Some(path)) => if |allowed| == 0 then Some(false) else AnyAllowed(allowed, path)
  }

  /** The entry neither raises nor covers the path: evaluation goes on. */
  predicate Passes(raw: string, path: string) {
    ValidateRelPath(StripSlashes(raw)).Some? && !Covers(ValidateRelPath(StripSlashes(raw)).value, path)
  }

  lemma AnyAllowedPasses(allowed: seq<string>, path: string)
    requires |allowed| > 0 && Passes(allowed[0], path)
    ensures AnyAllowed(allowed, path) == AnyAllowed(allowed[1..], path)
  {}

  lemma {:induction false} AnyAllowedSkips(allowed: seq<string>, path: string, i: nat)
    requires i <= |allowed|
    requires forall k :: 0 <= k < i ==> Passes(allowed[k], path)
    ensures AnyAllowed(allowed, path) == AnyAllowed(allowed[i..], path)
  {
    if i > 0 {
      AnyAllowedPasses(allowed, path);
      AnyAllowedSkips(allowed[1..], path, i - 1);
      assert allowed[1..][i - 1..] == allowed[i..];
    } else {
      assert allowed[0..] == allowed;
    }
  }

  /** path_allowed of the reviewer, a loop, answers exactly as the worker's does,
      except that a missing allowed_paths list raises once it is needed. */
  method ReviewerAllows(raw: string, allowed: Option<seq<string>>, config: Scope) returns (r: Option<bool>)
    ensures allowed.Some? ==> r == WorkerAllows(raw, allowed.value, config)
    ensures allowed.None? ==> r == if NotForbidden(raw, config) == Some(None) then Some(false) else None
  {
    var checked := NotForbidden(raw, config);
    if checked.None? { return None; }
    if checked.value.None? { return Some(false); }
    if allowed.None? { return None; }
    var path, bases := checked.value.value, allowed.value;
    for i := 0 to |bases|
      invariant forall k :: 0 <= k < i ==> Passes(bases[k], path)
    {
      AnyAllowedSkips(bases, path, i);
      var base := ValidateRelPath(StripSlashes(bases[i]));
      if base.None? { return None; }
      if Covers(base.value, path) { return Some(true); }
    }
    AnyAllowedSkips(bases, path, |bases|);
    return Some(false);
  }

  // ---- what the predicate means ----

  /** Every entry of the configuration and of the job's scope is a valid path. */
  predicate AllValid(raws: seq<string>) { forall i :: 0 <= i < |raws| ==> ValidateRelPath(raws[i]).Some? }

  predicate UnderSome(raws: seq<string>, path: seq<string>) {
    exists i :: 0 <= i < |raws| && Under(Components(raws[i]), path)
  }

  predicate Listed(raws: seq<string>, path: seq<string>) {
    exists i :: 0 <= i < |raws| && Components(raws[i]) == path
  }

  lemma {:induction false} ValidateAllIs(raws: seq<string>)
    requires AllValid(raws)
    ensures ValidateAll(raws).Some? && |ValidateAll(raws).value| == |raws|
    ensures forall i :: 0 <= i < |raws| ==> ValidateAll(raws).value[i] == AsPosix(Components(raws[i]))
  {
    if |raws| > 0 { ValidateAllIs(raws[1..]); }
  }

  lemma CoversRaw(raw: string, path: seq<string>)
    requires Proper(path)
    ensures Covers(AsPosix(Components(raw)), AsPosix(path)) <==> Under(Components(raw), path)
  {
    ComponentsAreProper(raw);
    CoversMeansUnder(Components(raw), path);
  }

  /** The entry ends the evaluation: it is not a valid path, which raises, or it covers the path. */
  predicate Ends(raw: string, path: seq<string>) { ValidateRelPath(raw).None? || Under(Components(raw), path) }

  /** The first such entry. */
  predicate Decides(raws: seq<string>, path: seq<string>, i: nat) {
    i < |raws| && Ends(raws[i], path) && forall k :: 0 <= k < i ==> !Ends(raws[k], path)
  }

  lemma PassesUnlessEnds(raw: string, path: seq<string>)
    requires Proper(path)
    ensures Passes(raw, AsPosix(path)) <==> !Ends(StripSlashes(raw), path)
  {
    CoversRaw(StripSlashes(raw), path);
  }

  lemma DecidesShift(raws: seq<string>, path: seq<string>, i: nat)
    requires |raws| > 0 && !Ends(raws[0], path)
    ensures Decides(raws[1..], path, i) <==> Decides(raws, path, i + 1)
  {
    assert forall k: nat :: k < |raws| - 1 ==> raws[1..][k] == raws[k + 1];
  }

  lemma StripTail(allowed: seq<string>)
    requires |allowed| > 0
    ensures StripAll(allowed)[1..] == StripAll(allowed[1..]) && StripAll(allowed)[0] == StripSlashes(allowed[0])
  {}

  lemma AnyAllowedEnds(allowed: seq<string>, path: seq<string>)
    requires Proper(path) && |allowed| > 0 && Ends(StripSlashes(allowed[0]), path)
    ensures AnyAllowed(allowed, AsPosix(path)) ==
              if ValidateRelPath(StripSlashes(allowed[0])).None? then None else Some(true)
  {
    CoversRaw(StripSlashes(allowed[0]), path);
  }

  lemma {:induction false} AnyAllowedDecides(allowed: seq<string>, path: seq<string>, i: nat)
    requires Proper(path) && Decides(StripAll(allowed), path, i)
    ensures AnyAllowed(allowed, AsPosix(path))
        == if ValidateRelPath(StripAll(allowed)[i]).None? then None else Some(true)
  {
    StripTail(allowed);
    if i > 0 {
      PassesUnlessEnds(allowed[0], path);
      AnyAllowedPasses(allowed, AsPosix(path));
      DecidesShift(StripAll(allowed), path, i - 1);
      AnyAllowedDecides(allowed[1..], path, i - 1);
    } else {
      AnyAllowedEnds(allowed, path);
    }
  }

  lemma {:induction false} AnyAllowedMeans(allowed: seq<string>, path: seq<string>)
    requires Proper(path) && forall i: nat :: !Decides(StripAll(allowed), path, i)
    ensures AnyAllowed(allowed, AsPosix(path)) == Some(false)
  {
    if |allowed| > 0 {
      var raws := StripAll(allowed);
      StripTail(allowed);
      assert !Decides(raws, path, 0);
      PassesUnlessEnds(allowed[0], path);
      AnyAllowedPasses(allowed, AsPosix(path));
      forall i: nat ensures !Decides(raws[1..], path, i) {
        DecidesShift(raws, path, i);
        assert !Decides(raws, path, i + 1);
      }
      AnyAllowedMeans(allowed[1..], path);
    }
  }

  lemma PosixInjective(a: seq<string>, b: seq<string>)
    requires Proper(a) && Proper(b)
    ensures AsPosix(a) == AsPosix(b) <==> a == b
  {
    ComponentsOfPosix(a);
    ComponentsOfPosix(b);
  }

  lemma {:induction false} ValidateAllFails(raws: seq<string>)
    requires !AllValid(raws)
    ensures ValidateAll(raws).None?
  {
    if ValidateRelPath(raws[0]).Some? {
      if AllValid(raws[1..]) {
        forall i | 0 <= i < |raws| ensures ValidateRelPath(raws[i]).Some? {
          if i > 0 { assert raws[1..][i - 1] == raws[i]; }
        }
      }
      ValidateAllFails(raws[1..]);
    }
  }

  /** The answer for every input: the predicate raises if the path or a forbidden
      entry is not a valid path; it refuses what is forbidden or, component by
      component, under a forbidden prefix; otherwise the first entry of the scope
      that is not a valid path raises, the first that covers the path accepts it,
      and a scope without either refuses it. */
  lemma AllowedMeans(raw: string, allowed: seq<string>, config: Scope)
    ensures var path, prefixes, scope := Components(raw), StripAll(config.forbiddenPrefixes), StripAll(allowed);
            var answer := WorkerAllows(raw, allowed, config);
            if ValidateRelPath(raw).None? || !AllValid(config.forbidden) || !AllValid(prefixes) then answer == None
            else if Listed(config.forbidden, path) || UnderSome(prefixes, path) then answer == Some(false)
            else
              && (forall i: nat :: Decides(scope, path, i) ==>
                    answer == if ValidateRelPath(scope[i]).None? then None else Some(true))
              && ((forall i: nat :: !Decides(scope, path, i)) ==> answer == Some(false))
  {
    var path, prefixes, scope := Components(raw), StripAll(config.forbiddenPrefixes), StripAll(allowed);
    ComponentsAreProper(raw);
    if !AllValid(config.forbidden) {
      ValidateAllFails(config.forbidden);
    } else if !AllValid(prefixes) {
      ValidateAllFails(prefixes);
    } else if ValidateRelPath(raw).Some? {
      ListedMeans(config.forbidden, path);
      CoveredMeans(prefixes, path);
      forall i: nat | Decides(scope, path, i)
        ensures AnyAllowed(allowed, AsPosix(path)) == if ValidateRelPath(scope[i]).None? then None else Some(true)
      {
        AnyAllowedDecides(allowed, path, i);
      }
      if forall i: nat :: !Decides(scope, path, i) { AnyAllowedMeans(allowed, path); }
    }
  }

  /** With a scope of valid paths that is: accepted if and only if under some base. */
  lemma ValidScopeMeans(raw: string, allowed: seq<string>, config: Scope)
    requires ValidateRelPath(raw).Some? && AllValid(config.forbidden)
    requires AllValid(StripAll(config.forbiddenPrefixes)) && AllValid(StripAll(allowed))
    ensures var path := Components(raw);
            WorkerAllows(raw, allowed, config) ==
              Some(UnderSome(StripAll(allowed), path) && !Listed(config.forbidden, path)
                   && !UnderSome(StripAll(config.forbiddenPrefixes), path))
  {
    var path, scope := Components(raw), StripAll(allowed);
    AllowedMeans(raw, allowed, config);
    if UnderSome(scope, path) {
      var i :| 0 <= i < |scope| && Under(Components(scope[i]), path);
      var k := FirstUnder(scope, path, i);
      assert Decides(scope, path, k);
    } else {
      forall i: nat ensures !Decides(scope, path, i) {}
    }
  }

  lemma {:induction false} FirstUnder(raws: seq<string>, path: seq<string>, i: nat) returns (k: nat)
    requires AllValid(raws) && i < |raws| && Under(Components(raws[i]), path)
    ensures Decides(raws, path, k)
  {
    if j :| 0 <= j < i && Under(Components(raws[j]), path) {
      k := FirstUnder(raws, path, j);
    } else {
      k := i;
    }
  }

  lemma ListedMeans(raws: seq<string>, path: seq<string>)
    requires AllValid(raws) && Proper(path)
    ensures ValidateAll(raws).Some? && (AsPosix(path) in ValidateAll(raws).value <==> Listed(raws, path))
  {
    ValidateAllIs(raws);
    var paths := ValidateAll(raws).value;
    forall i | 0 <= i < |raws| ensures paths[i] == AsPosix(path) <==> Components(raws[i]) == path {
      ComponentsAreProper(raws[i]);
      PosixInjective(Components(raws[i]), path);
    }
  }

  lemma CoveredMeans(raws: seq<string>, path: seq<string>)
    requires AllValid(raws) && Proper(path)
    ensures ValidateAll(raws).Some? && (AnyCovers(ValidateAll(raws).value, AsPosix(path)) <==> UnderSome(raws, path))
  {
    ValidateAllIs(raws);
    var paths := ValidateAll(raws).value;
    forall i | 0 <= i < |raws| ensures Covers(paths[i], AsPosix(path)) <==> Under(Components(raws[i]), path) {
      CoversRaw(raws[i], path);
    }
  }

  /** The scope "." does not mean the whole repository: it admits no path with a component. */
  lemma DotCoversNothing(raw: string, config: Scope)
    requires ValidateRelPath(raw).Some? && |Components(raw)| > 0
    requires AllValid(config.forbidden) && AllValid(StripAll(config.forbiddenPrefixes))
    ensures WorkerAllows(raw, ["."], config) == Some(false)
  {
    SplitComponent(".");
    assert Components(".") == [] by { assert Kept(["."]) == Kept([]); }
    assert StripAll(["."]) == ["."];
    ValidScopeMeans(raw, ["."], config);
  }

  // ---- what is refused, read off the text ----

  /** `name` stands in `s` from `i` on, between separators or the ends of the text. */
  predicate StandsAt(s: string, name: string, i: nat) {
    && i + |name| <= |s| && (forall k :: 0 <= k < |name| ==> s[i + k] == name[k])
    && (i == 0 || s[i - 1] == '/') && (i + |name| == |s| || s[i + |name|] == '/')
  }

  ghost predicate HasSegment(s: string, name: string) { exists i: nat :: StandsAt(s, name, i) }

  lemma StandsInTail(s: string, name: string, i: nat)
    requires |s| > 0 && i > 0 && StandsAt(s, name, i)
    ensures StandsAt(s[1..], name, i - 1)
  {}

  lemma StandsFurther(s: string, name: string, i: nat)
    requires |s| > 0 && StandsAt(s[1..], name, i) && (i > 0 || s[0] == '/')
    ensures StandsAt(s, name, i + 1)
  {
    forall k | 0 <= k < |name| ensures s[i + 1 + k] == name[k] { assert s[1..][i + k] == name[k]; }
  }

  /** The first part ends at the first separator. */
  lemma {:induction false} FirstPart(s: string)
    ensures var first := Split(s)[0];
            |first| <= |s| && s[..|first|] == first && '/' !in first && (|first| < |s| ==> s[|first|] == '/')
  {
    if |s| > 0 && s[0] != '/' {
      FirstPart(s[1..]);
      var first := Split(s[1..])[0];
      assert s[..|first| + 1] == [s[0]] + s[1..][..|first|];
    }
  }

  lemma {:induction false} SegmentAtStart(s: string, name: string)
    requires '/' !in name && StandsAt(s, name, 0)
    ensures Split(s)[0] == name
  {
    if |name| > 0 {
      assert s[0] == name[0];
      forall k | 0 <= k < |name| - 1 ensures s[1..][k] == name[1..][k] { assert s[k + 1] == name[k + 1]; }
      SegmentAtStart(s[1..], name[1..]);
      assert name == [name[0]] + name[1..];
    }
  }

  /** The parts of a text after its first one are those of the text after the first separator. */
  lemma {:induction false} PartsOfTail(s: string)
    requires |s| > 0
    ensures Split(s)[1..] == if s[0] == '/' then Split(s[1..]) else Split(s[1..])[1..]
  {}

  /** A part stands in the text; and what stands in the text is a part. */
  lemma {:induction false} PartStands(s: string, k: nat)
    requires k < |Split(s)|
    ensures HasSegment(s, Split(s)[k]) && '/' !in Split(s)[k]
    ensures k > 0 ==> exists i: nat :: i > 0 && StandsAt(s, Split(s)[k], i)
  {
    SplitPlain(s);
    if k == 0 {
      FirstPart(s);
      assert StandsAt(s, Split(s)[0], 0);
    } else {
      PartsOfTail(s);
      var k' := if s[0] == '/' then k - 1 else k;
      assert Split(s)[k] == Split(s[1..])[k'];
      PartStands(s[1..], k');
      var i: nat :| StandsAt(s[1..], Split(s)[k], i) && (i > 0 || s[0] == '/');
      StandsFurther(s, Split(s)[k], i);
    }
  }

  lemma {:induction false} StandsIsPart(s: string, name: string, i: nat)
    requires '/' !in name && StandsAt(s, name, i)
    ensures name in Split(s)
    ensures i > 0 ==> name in Split(s)[1..]
  {
    if i == 0 {
      SegmentAtStart(s, name);
    } else {
      StandsInTail(s, name, i);
      StandsIsPart(s[1..], name, i - 1);
      PartsOfTail(s);
    }
  }

  lemma {:induction false} KeptKeeps(parts: seq<string>, name: string)
    requires name != "" && name != "."
    ensures name in Kept(parts) <==> name in parts
  {
    if |parts| > 0 { KeptKeeps(parts[1..], name); }
  }

  lemma SegmentIsComponent(raw: string, name: string)
    requires name != "" && name != "." && '/' !in name
    ensures HasSegment(raw, name) <==> name in Components(raw)
  {
    KeptKeeps(Split(raw), name);
    if name in Split(raw) {
      var k :| 0 <= k < |Split(raw)| && Split(raw)[k] == name;
      PartStands(raw, k);
    }
    if HasSegment(raw, name) {
      var i: nat :| StandsAt(raw, name, i);
      StandsIsPart(raw, name, i);
    }
  }

  /** A path is refused exactly if it is empty, absolute, contains a NUL or a
      backslash, or goes through a parent directory or git metadata. */
  lemma RefusedPaths(raw: string)
    ensures ValidateRelPath(raw).None? <==>
              || raw == "" || raw[0] == '/' || '\0' in raw || '\\' in raw
              || HasSegment(raw, "..") || HasSegment(raw, ".git")
  {
    SegmentIsComponent(raw, "..");
    SegmentIsComponent(raw, ".git");
  }

  /** An accepted path is given with the components of the text, empty ones and dots left out. */
  lemma AcceptedPathIs(raw: string)
    requires ValidateRelPath(raw).Some?
    ensures Components(ValidateRelPath(raw).value) == Components(raw)
  {
    ComponentsAreProper(raw);
    ComponentsOfPosix(Components(raw));
  }

  /** rstrip("/"): what is left ends in no slash, and only slashes are gone. */
  lemma {:induction false} StripSlashesIs(s: string)
    ensures var left := StripSlashes(s);
            && left <= s && (|left| > 0 ==> left[|left| - 1] != '/')
            && forall i :: |left| <= i < |s| ==> s[i] == '/'
  {
    if |s| > 0 && s[|s| - 1] == '/' { StripSlashesIs(s[..|s| - 1]); }
  }
}
