/** Small shared vocabulary: optional values and the order PostgreSQL uses for
    uuid columns (and for text columns under the C collation). */
module Basics {

  datatype Option<+T> = None | Some(value: T)

  /** Strict lexicographic order on code units. */
  predicate StrLess(a: string, b: string) {
    |b| > 0 && (|a| == 0 || a[0] < b[0] || (a[0] == b[0] && StrLess(a[1..], b[1..])))
  }

  lemma {:induction false} StrIrreflexive(a: string)
    ensures !StrLess(a, a)
  {
    if |a| > 0 { StrIrreflexive(a[1..]); }
  }

  lemma {:induction false} StrTotal(a: string, b: string)
    ensures a == b || StrLess(a, b) || StrLess(b, a)
  {
    if |a| > 0 && |b| > 0 && a[0] == b[0] {
      StrTotal(a[1..], b[1..]);
      if a[1..] == b[1..] {
        assert a == [a[0]] + a[1..] && b == [b[0]] + b[1..];
      }
    }
  }

  lemma {:induction false} StrTransitive(a: string, b: string, c: string)
    requires StrLess(a, b) && StrLess(b, c)
    ensures StrLess(a, c)
  {
    if |a| > 0 && a[0] == b[0] == c[0] { StrTransitive(a[1..], b[1..], c[1..]); }
  }

  ghost predicate StrictOrderOn<T(!new)>(rows: set<T>, before: (T, T) -> bool) {
    && (forall a, b :: a in rows && b in rows && a != b ==> before(a, b) || before(b, a))
    && (forall a, b, c :: a in rows && b in rows && c in rows && before(a, b) && before(b, c) ==> before(a, c))
  }

  /** A non-empty set has a first element in any strict total order. */
  lemma {:induction false} FirstExists<T(!new)>(rows: set<T>, before: (T, T) -> bool) returns (first: T)
    requires rows != {} && StrictOrderOn(rows, before)
    ensures first in rows && forall a :: a in rows && a != first ==> before(first, a)
    decreases |rows|
  {
    first :| first in rows;
    if rows != {first} {
      var k := FirstExists(rows - {first}, before);
      if !before(first, k) { first := k; }
    }
  }
}
