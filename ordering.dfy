/**
 * The orders the document store sorts by. Strings compare by MongoDB's default binary
 * comparison, which for text is the lexicographic order on code points; a missing
 * value sorts below every present one (first when ascending, last when descending).
 */
module Ordering {
  import opened Common

  /** Lexicographic order on code points: `a` is `b` or sorts before it. */
  predicate StrLe(a: string, b: string)
  {
    if a == [] then true
    else if b == [] then false
    else if a[0] != b[0] then a[0] < b[0]
    else StrLe(a[1..], b[1..])
  }

  lemma {:induction false} StrLeReflexive(a: string)
    ensures StrLe(a, a)
  {
    if a != [] {
      StrLeReflexive(a[1..]);
    }
  }

  lemma {:induction false} StrLeTotal(a: string, b: string)
    ensures StrLe(a, b) || StrLe(b, a)
  {
    if a != [] && b != [] && a[0] == b[0] {
      StrLeTotal(a[1..], b[1..]);
    }
  }

  lemma {:induction false} StrLeTransitive(a: string, b: string, c: string)
    requires StrLe(a, b) && StrLe(b, c)
    ensures StrLe(a, c)
  {
    if a != [] && b != [] && c != [] && a[0] == b[0] && b[0] == c[0] {
      StrLeTransitive(a[1..], b[1..], c[1..]);
    }
  }

  lemma {:induction false} StrLeAntisymmetric(a: string, b: string)
    requires StrLe(a, b) && StrLe(b, a)
    ensures a == b
  {
    if a != [] && b != [] {
      StrLeAntisymmetric(a[1..], b[1..]);
      assert a == [a[0]] + a[1..] && b == [b[0]] + b[1..];
    }
  }

  /** Order on an optional string field: a missing value is below every present one. */
  predicate OptStrLe(a: Option<string>, b: Option<string>)
  {
    match a
    case None => true
    case Some(x) => b.Some? && StrLe(x, b.value)
  }

  /** Order on an optional time field: a missing value is below every present one. */
  predicate OptTimeLe(a: Option<int>, b: Option<int>)
  {
    match a
    case None => true
    case Some(x) => b.Some? && x <= b.value
  }

  lemma OptStrLeTotal(a: Option<string>, b: Option<string>)
    ensures OptStrLe(a, b) || OptStrLe(b, a)
  {
    if a.Some? && b.Some? {
      StrLeTotal(a.value, b.value);
    }
  }

  lemma OptStrLeTransitive(a: Option<string>, b: Option<string>, c: Option<string>)
    requires OptStrLe(a, b) && OptStrLe(b, c)
    ensures OptStrLe(a, c)
  {
    if a.Some? {
      StrLeTransitive(a.value, b.value, c.value);
    }
  }
}
