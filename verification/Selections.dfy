/** Selecting from a sequence, in order: what a query's `where` keeps. */
module Selections {

  function Where<T(!new)>(s: seq<T>, p: T -> bool): (r: seq<T>)
    ensures forall x :: x in r <==> x in s && p(x)
  {
    if s == [] then []
    else
      var init, last := Where(s[..|s| - 1], p), s[|s| - 1];
      if p(last) then init + [last] else init
  }

  lemma WhereAppend<T(!new)>(s: seq<T>, x: T, p: T -> bool)
    ensures Where(s + [x], p) == if p(x) then Where(s, p) + [x] else Where(s, p)
  {
    assert (s + [x])[..|s|] == s;
  }

  lemma {:induction false} WhereSame<T(!new)>(s: seq<T>, p: T -> bool, q: T -> bool)
    requires forall x :: x in s ==> p(x) == q(x)
    ensures Where(s, p) == Where(s, q)
  {
    if s == [] {
    } else {
      WhereSame(s[..|s| - 1], p, q);
      assert s[|s| - 1] in s;
    }
  }

  lemma {:induction false} WhereNone<T(!new)>(s: seq<T>, p: T -> bool)
    requires forall x :: x in s ==> !p(x)
    ensures Where(s, p) == []
  {
    if s == [] {
    } else {
      WhereNone(s[..|s| - 1], p);
      assert s[|s| - 1] in s;
    }
  }

  lemma {:induction false} WhereAll<T(!new)>(s: seq<T>, p: T -> bool)
    requires forall x :: x in s ==> p(x)
    ensures Where(s, p) == s
  {
    if s == [] {
    } else {
      WhereAll(s[..|s| - 1], p);
      assert s[|s| - 1] in s;
    }
  }

  lemma {:induction false} WhereConcat<T(!new)>(s: seq<T>, t: seq<T>, p: T -> bool)
    ensures Where(s + t, p) == Where(s, p) + Where(t, p)
    decreases |t|
  {
    if t == [] {
      assert s + t == s;
    } else {
      assert (s + t)[..|s + t| - 1] == s + t[..|t| - 1];
      WhereConcat(s, t[..|t| - 1], p);
    }
  }

  lemma {:induction false} WhereBoth<T(!new)>(s: seq<T>, p: T -> bool, q: T -> bool, both: T -> bool)
    requires forall x :: x in s ==> both(x) == (p(x) && q(x))
    ensures Where(Where(s, p), q) == Where(s, both)
  {
    if s == [] {
    } else {
      var init, x := s[..|s| - 1], s[|s| - 1];
      WhereBoth(init, p, q, both);
      assert x in s;
      WhereAppend(Where(init, p), x, q);
    }
  }

  lemma {:induction false} WhereWhere<T(!new)>(s: seq<T>, p: T -> bool, q: T -> bool)
    requires forall x :: q(x) ==> p(x)
    ensures Where(Where(s, p), q) == Where(s, q)
  {
    if s == [] {
    } else {
      var init, x := s[..|s| - 1], s[|s| - 1];
      WhereWhere(init, p, q);
      WhereAppend(Where(init, p), x, q);
    }
  }

  lemma {:induction false} WhereCounts<T(!new)>(s: seq<T>, p: T -> bool, x: T)
    requires p(x)
    ensures multiset(Where(s, p))[x] == multiset(s)[x]
  {
    if s == [] {
    } else {
      WhereCounts(s[..|s| - 1], p, x);
      assert s == s[..|s| - 1] + [s[|s| - 1]];
    }
  }

  lemma {:induction false} WherePartition<T(!new)>(s: seq<T>, p: T -> bool, p1: T -> bool, p2: T -> bool)
    requires forall x :: x in s ==> p(x) == (p1(x) || p2(x)) && !(p1(x) && p2(x))
    ensures multiset(Where(s, p)) == multiset(Where(s, p1)) + multiset(Where(s, p2))
  {
    if s == [] {
    } else {
      WherePartition(s[..|s| - 1], p, p1, p2);
      assert s[|s| - 1] in s;
    }
  }
}
