/** Array.prototype.filter. */
module Filters {
  function Kept<T(!new)>(s: seq<T>, keep: T -> bool): (r: seq<T>)
    ensures forall x :: x in r <==> x in s && keep(x)
  {
    if s == [] then [] else (if keep(s[0]) then [s[0]] else []) + Kept(s[1..], keep)
  }

  lemma {:induction false} KeptOfBoth<T(!new)>(s: seq<T>, t: seq<T>, keep: T -> bool)
    ensures Kept(s + t, keep) == Kept(s, keep) + Kept(t, keep)
  {
    if s == [] {
      assert s + t == t;
    } else {
      assert (s + t)[1..] == s[1..] + t;
      KeptOfBoth(s[1..], t, keep);
    }
  }

  lemma {:induction false} KeptAll<T(!new)>(s: seq<T>, keep: T -> bool)
    requires forall i :: 0 <= i < |s| ==> keep(s[i])
    ensures Kept(s, keep) == s
  {
    if s != [] {
      KeptAll(s[1..], keep);
      assert s == [s[0]] + s[1..];
    }
  }

  lemma {:induction false} KeptAgree<T(!new)>(s: seq<T>, one: T -> bool, other: T -> bool)
    requires forall i :: 0 <= i < |s| ==> one(s[i]) == other(s[i])
    ensures Kept(s, one) == Kept(s, other)
  {
    if s != [] {
      KeptAgree(s[1..], one, other);
    }
  }

  lemma KeptSkips<T(!new)>(front: seq<T>, x: T, back: seq<T>, keep: T -> bool)
    requires !keep(x)
    ensures Kept(front + [x] + back, keep) == Kept(front + back, keep)
  {
    KeptOfBoth(front + [x], back, keep);
    KeptOfBoth(front, [x], keep);
    KeptOfBoth(front, back, keep);
  }

  predicate NoneTwice<T(==)>(s: seq<T>) {
    forall i, j :: 0 <= i < j < |s| ==> s[i] != s[j]
  }

  lemma NoneTwiceOfBoth<T>(s: seq<T>, t: seq<T>)
    ensures NoneTwice(s + t) <==> NoneTwice(s) && NoneTwice(t) && (forall x :: !(x in s && x in t))
  {
    var all := s + t;
    if NoneTwice(all) {
      forall i, j | 0 <= i < j < |s| ensures s[i] != s[j] {
        assert all[i] != all[j];
      }
      forall i, j | 0 <= i < j < |t| ensures t[i] != t[j] {
        assert all[|s| + i] != all[|s| + j];
      }
      forall i, j | 0 <= i < |s| && 0 <= j < |t| ensures s[i] != t[j] {
        assert all[i] != all[|s| + j];
      }
    }
    if NoneTwice(s) && NoneTwice(t) && (forall x :: !(x in s && x in t)) {
      forall i, j | 0 <= i < j < |all| ensures all[i] != all[j] {
        assert j >= |s| && i < |s| ==> all[i] in s && all[j] in t;
      }
    }
  }

  lemma NoneTwiceCounts<T>(s: seq<T>)
    ensures NoneTwice(s) <==> forall x :: x in s ==> multiset(s)[x] == 1
    decreases |s|
  {
    if s != [] {
      var t := s[1..];
      assert s == [s[0]] + t;
      assert multiset(s) == multiset{s[0]} + multiset(t);
      NoneTwiceCounts(t);
      NoneTwiceOfBoth([s[0]], t);
      assert s[0] in [s[0]];
      if forall x :: x in s ==> multiset(s)[x] == 1 {
        assert multiset(s)[s[0]] == 1;
        assert s[0] !in multiset(t);
        forall x | x in t ensures multiset(t)[x] == 1 {
          assert x in s && x in multiset(t);
        }
      }
      if NoneTwice(s) {
        assert s[0] !in t;
        forall x | x in s ensures multiset(s)[x] == 1 {
          assert x == s[0] || x in t;
          assert x == s[0] ==> x !in multiset(t);
        }
      }
    }
  }
}
