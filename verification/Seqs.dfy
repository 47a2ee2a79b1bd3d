/** Small facts about sequences that several modules share. */
module Seqs {
  datatype Option<+T> = None | Some(value: T)

  function Filter<T(!new)>(s: seq<T>, keep: T -> bool): (r: seq<T>)
    ensures forall x :: x in r <==> x in s && keep(x)
    ensures |r| <= |s|
  {
    if s == [] then []
    else if keep(s[0]) then [s[0]] + Filter(s[1..], keep)
    else Filter(s[1..], keep)
  }

  /** Two first filters that agree on what the second keeps give the same result. */
  lemma {:induction false} FilterTwice<T(!new)>(s: seq<T>, p1: T -> bool, p2: T -> bool, q: T -> bool)
    requires forall x :: x in s && q(x) ==> p1(x) == p2(x)
    ensures Filter(Filter(s, p1), q) == Filter(Filter(s, p2), q)
  {
    if s != [] {
      FilterTwice(s[1..], p1, p2, q);
      FilterHead(s, p1);
      FilterHead(s, p2);
    }
  }

  lemma FilterHead<T(!new)>(s: seq<T>, p: T -> bool)
    requires s != []
    ensures Filter(s, p) == if p(s[0]) then [s[0]] + Filter(s[1..], p) else Filter(s[1..], p)
    ensures p(s[0]) ==> Filter(s, p) != [] && Filter(s, p)[0] == s[0] && Filter(s, p)[1..] == Filter(s[1..], p)
  {
  }

  lemma {:induction false} FilterAgree<T(!new)>(s: seq<T>, p: T -> bool, q: T -> bool)
    requires forall x :: x in s ==> p(x) == q(x)
    ensures Filter(s, p) == Filter(s, q)
  {
    if s != [] {
      FilterAgree(s[1..], p, q);
    }
  }

  /** The first row a query returns, in row order. */
  function FirstAt<T(!new)>(rows: seq<T>, p: T -> bool): (found: Option<nat>)
    ensures found.Some? ==> found.value < |rows| && p(rows[found.value])
    ensures found.None? ==> forall i | 0 <= i < |rows| :: !p(rows[i])
  {
    if rows == [] then None
    else if p(rows[0]) then Some(0)
    else
      match FirstAt(rows[1..], p)
      case None => None
      case Some(i) => Some(i + 1)
  }

  lemma {:induction false} FirstAtIs<T(!new)>(rows: seq<T>, p: T -> bool, i: nat)
    requires i < |rows| && p(rows[i]) && forall j | 0 <= j < i :: !p(rows[j])
    ensures FirstAt(rows, p) == Some(i)
  {
    if i > 0 {
      FirstAtIs(rows[1..], p, i - 1);
    }
  }

  /** Rows changed beyond the query's sight, or added behind, leave its first row where it was. */
  lemma {:induction false} FirstAtStays<T(!new)>(a: seq<T>, b: seq<T>, p: T -> bool)
    requires |a| <= |b| && forall j | 0 <= j < |a| :: p(a[j]) == p(b[j])
    ensures FirstAt(a, p).Some? ==> FirstAt(b, p) == FirstAt(a, p)
    ensures FirstAt(b, p).Some? && FirstAt(b, p).value < |a| ==> FirstAt(a, p) == FirstAt(b, p)
  {
    if a != [] {
      assert p(a[0]) == p(b[0]);
      forall j | 0 <= j < |a[1..]| ensures p(a[1..][j]) == p(b[1..][j]) {
        assert p(a[j + 1]) == p(b[j + 1]);
      }
      FirstAtStays(a[1..], b[1..], p);
    }
  }

  /** The latest row a query returns: rows are in creation order. */
  function LastAt<T(!new)>(rows: seq<T>, p: T -> bool): (found: Option<nat>)
    ensures found.Some? ==> found.value < |rows| && p(rows[found.value])
    ensures found.Some? ==> forall i | found.value < i < |rows| :: !p(rows[i])
    ensures found.None? ==> forall i | 0 <= i < |rows| :: !p(rows[i])
  {
    if rows == [] then None
    else if p(rows[|rows| - 1]) then Some(|rows| - 1)
    else LastAt(rows[..|rows| - 1], p)
  }
}
