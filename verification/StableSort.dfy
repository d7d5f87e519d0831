/** Array.prototype.sort by a number, highest first. It is stable: equal ranks keep their order. */
module StableSort {
  function Sorted<T>(s: seq<T>, rank: T -> int): (r: seq<T>) {
    if s == [] then [] else Inserted(s[0], Sorted(s[1..], rank), rank)
  }

  function Inserted<T>(x: T, s: seq<T>, rank: T -> int): (r: seq<T>) {
    if s == [] || rank(x) >= rank(s[0]) then [x] + s else [s[0]] + Inserted(x, s[1..], rank)
  }

  predicate Descending<T>(s: seq<T>, rank: T -> int) {
    forall i, j :: 0 <= i < j < |s| ==> rank(s[i]) >= rank(s[j])
  }

  /** The elements of one rank, in order. */
  function Tied<T>(s: seq<T>, rank: T -> int, n: int): (r: seq<T>) {
    if s == [] then []
    else (if rank(s[0]) == n then [s[0]] else []) + Tied(s[1..], rank, n)
  }

  lemma {:induction false} InsertedHolds<T>(x: T, s: seq<T>, rank: T -> int)
    ensures multiset(Inserted(x, s, rank)) == multiset{x} + multiset(s)
  {
    if s != [] && rank(x) < rank(s[0]) {
      InsertedHolds(x, s[1..], rank);
      assert s == [s[0]] + s[1..];
    }
  }

  lemma {:induction false} SortedIsAPermutation<T>(s: seq<T>, rank: T -> int)
    ensures multiset(Sorted(s, rank)) == multiset(s)
    ensures |Sorted(s, rank)| == |s|
  {
    if s != [] {
      SortedIsAPermutation(s[1..], rank);
      InsertedHolds(s[0], Sorted(s[1..], rank), rank);
      assert s == [s[0]] + s[1..];
      assert |multiset(Sorted(s, rank))| == |s|;
    }
  }

  lemma {:induction false} InsertedDescends<T>(x: T, s: seq<T>, rank: T -> int)
    requires Descending(s, rank)
    ensures Descending(Inserted(x, s, rank), rank)
  {
    if s != [] && rank(x) < rank(s[0]) {
      InsertedDescends(x, s[1..], rank);
      var r := Inserted(x, s[1..], rank);
      InsertedHolds(x, s[1..], rank);
      forall i | 0 <= i < |r| ensures rank(r[i]) <= rank(s[0]) {
        assert r[i] in multiset(r);
        assert r[i] == x || r[i] in s[1..];
      }
    }
  }

  lemma {:induction false} SortedDescends<T>(s: seq<T>, rank: T -> int)
    ensures Descending(Sorted(s, rank), rank)
  {
    if s != [] {
      SortedDescends(s[1..], rank);
      InsertedDescends(s[0], Sorted(s[1..], rank), rank);
    }
  }

  lemma {:induction false} InsertedKeepsTies<T>(x: T, s: seq<T>, rank: T -> int, n: int)
    ensures Tied(Inserted(x, s, rank), rank, n) == Tied([x] + s, rank, n)
  {
    if s != [] && rank(x) < rank(s[0]) {
      InsertedKeepsTies(x, s[1..], rank, n);
      assert ([x] + s)[1..] == s;
      assert ([x] + s[1..])[1..] == s[1..];
    }
  }

  lemma {:induction false} SortedKeepsTies<T>(s: seq<T>, rank: T -> int, n: int)
    ensures Tied(Sorted(s, rank), rank, n) == Tied(s, rank, n)
  {
    if s != [] {
      var rest := Sorted(s[1..], rank);
      SortedKeepsTies(s[1..], rank, n);
      InsertedKeepsTies(s[0], rest, rank, n);
      assert ([s[0]] + rest)[1..] == rest;
    }
  }

  lemma {:induction false} InsertedAgrees<T>(x: T, s: seq<T>, rank: T -> int, other: T -> int)
    requires rank(x) == other(x) && forall i :: 0 <= i < |s| ==> rank(s[i]) == other(s[i])
    ensures Inserted(x, s, rank) == Inserted(x, s, other)
  {
    if s != [] {
      InsertedAgrees(x, s[1..], rank, other);
    }
  }

  /** Only the ranks of its elements decide how a sequence is sorted. */
  lemma {:induction false} SortedAgrees<T>(s: seq<T>, rank: T -> int, other: T -> int)
    requires forall i :: 0 <= i < |s| ==> rank(s[i]) == other(s[i])
    ensures Sorted(s, rank) == Sorted(s, other)
  {
    if s != [] {
      SortedAgrees(s[1..], rank, other);
      var rest := Sorted(s[1..], rank);
      SortedIsAPermutation(s[1..], rank);
      forall i | 0 <= i < |rest| ensures rank(rest[i]) == other(rest[i]) {
        assert rest[i] in multiset(rest);
        assert rest[i] in s[1..];
      }
      InsertedAgrees(s[0], rest, rank, other);
    }
  }

  lemma {:induction false} TiedAtMostFirst<T>(s: seq<T>, rank: T -> int, n: int)
    requires Descending(s, rank) && Tied(s, rank, n) != []
    ensures s != [] && rank(s[0]) >= n
  {
    if rank(s[0]) != n {
      TiedAtMostFirst(s[1..], rank, n);
    }
  }

  lemma FirstTied<T>(s: seq<T>, rank: T -> int)
    requires s != []
    ensures Tied(s, rank, rank(s[0])) == [s[0]] + Tied(s[1..], rank, rank(s[0]))
  {
  }

  lemma TiedTail<T>(s: seq<T>, rank: T -> int, n: int)
    requires s != []
    ensures Tied(s[1..], rank, n) == if rank(s[0]) == n then Tied(s, rank, n)[1..] else Tied(s, rank, n)
  {
  }

  ghost predicate SameTies<T>(s: seq<T>, t: seq<T>, rank: T -> int) {
    forall n :: Tied(s, rank, n) == Tied(t, rank, n)
  }

  lemma SameTiesSameFirst<T>(s: seq<T>, t: seq<T>, rank: T -> int)
    requires Descending(s, rank) && Descending(t, rank) && SameTies(s, t, rank) && s != []
    ensures t != [] && s[0] == t[0]
  {
    hide Tied, Descending;
    FirstTied(s, rank);
    TiedAtMostFirst(t, rank, rank(s[0]));
    FirstTied(t, rank);
    TiedAtMostFirst(s, rank, rank(t[0]));
    assert Tied(s, rank, rank(s[0]))[0] == s[0] && Tied(t, rank, rank(s[0]))[0] == t[0];
  }

  /** Order and ties settle the whole result: there is one stable way to sort. */
  lemma {:induction false} OneStableOrder<T>(s: seq<T>, t: seq<T>, rank: T -> int)
    requires Descending(s, rank) && Descending(t, rank) && SameTies(s, t, rank)
    ensures s == t
  {
    hide Tied;
    if s == [] {
      if t != [] {
        SameTiesSameFirst(t, s, rank);
      }
    } else {
      SameTiesSameFirst(s, t, rank);
      forall n ensures Tied(s[1..], rank, n) == Tied(t[1..], rank, n) {
        TiedTail(s, rank, n);
        TiedTail(t, rank, n);
      }
      OneStableOrder(s[1..], t[1..], rank);
    }
  }
}
