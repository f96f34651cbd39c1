/** Counting the members of a sequence that satisfy a predicate; the protocol
    modules use it to count the threads that are in some state. */
module Counting {

  function Count<T>(s: seq<T>, f: T -> bool): (n: nat)
    ensures n <= |s|
  {
    if s == [] then 0 else (if f(s[0]) then 1 else 0) + Count(s[1..], f)
  }

  /** Changing one member changes the count by that member only. */
  lemma {:induction false} CountUpdate<T>(s: seq<T>, i: nat, x: T, f: T -> bool)
    requires i < |s|
    ensures Count(s[i := x], f) + (if f(s[i]) then 1 else 0) == Count(s, f) + (if f(x) then 1 else 0)
  {
    if i == 0 {
      assert s[i := x][1..] == s[1..];
    } else {
      assert s[i := x][1..] == s[1..][i - 1 := x];
      CountUpdate(s[1..], i - 1, x, f);
    }
  }

  /** The count is positive exactly when some member satisfies the predicate. */
  lemma {:induction false} CountPositive<T>(s: seq<T>, f: T -> bool)
    ensures Count(s, f) > 0 <==> exists i :: 0 <= i < |s| && f(s[i])
  {
    if s != [] {
      CountPositive(s[1..], f);
      if exists i :: 0 <= i < |s| && f(s[i]) {
        var i :| 0 <= i < |s| && f(s[i]);
        assert i > 0 ==> f(s[1..][i - 1]);
      }
      if exists i :: 0 <= i < |s[1..]| && f(s[1..][i]) {
        var i :| 0 <= i < |s[1..]| && f(s[1..][i]);
        assert f(s[i + 1]);
      }
    }
  }

  /** Two sequences that agree pointwise on the predicate have the same count. */
  lemma {:induction false} CountPointwise<T>(s: seq<T>, t: seq<T>, f: T -> bool)
    requires |s| == |t| && forall i :: 0 <= i < |s| ==> f(s[i]) == f(t[i])
    ensures Count(s, f) == Count(t, f)
  {
    if s != [] {
      CountPointwise(s[1..], t[1..], f);
    }
  }

  /** Every member satisfies the predicate exactly when the count is the length. */
  lemma {:induction false} CountAll<T>(s: seq<T>, f: T -> bool)
    ensures Count(s, f) == |s| <==> forall i :: 0 <= i < |s| ==> f(s[i])
  {
    if s != [] {
      CountAll(s[1..], f);
      if forall i :: 0 <= i < |s[1..]| ==> f(s[1..][i]) {
        forall i | 1 <= i < |s| ensures f(s[i]) {
          assert f(s[1..][i - 1]);
        }
      }
    }
  }
}
