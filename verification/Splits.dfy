/** String.prototype.split at one character, on any sequence. */
module Splits {
  function Split<T(==)>(s: seq<T>, separator: T): (pieces: seq<seq<T>>)
    ensures |pieces| >= 1
    ensures forall i :: 0 <= i < |pieces| ==> separator !in pieces[i]
  {
    if s == [] then [[]] else Led(s[0], Split(s[1..], separator), separator)
  }

  /** The pieces with one more element in front of them. */
  function Led<T(==)>(x: T, pieces: seq<seq<T>>, separator: T): (led: seq<seq<T>>)
    requires pieces != []
    ensures led != []
  {
    if x == separator then [[]] + pieces else [[x] + pieces[0]] + pieces[1..]
  }

  lemma LedOfBoth<T>(x: T, pieces: seq<seq<T>>, more: seq<seq<T>>, separator: T)
    requires pieces != []
    ensures Led(x, pieces + more, separator) == Led(x, pieces, separator) + more
  {
  }

  lemma {:induction false} SplitAtSeparator<T>(s: seq<T>, t: seq<T>, separator: T)
    ensures Split(s + [separator] + t, separator) == Split(s, separator) + Split(t, separator)
  {
    var all := s + [separator] + t;
    if s == [] {
      assert all[1..] == t;
    } else {
      hide Led;
      SplitAtSeparator(s[1..], t, separator);
      LedOfBoth(s[0], Split(s[1..], separator), Split(t, separator), separator);
      assert all[1..] == s[1..] + [separator] + t;
    }
  }

  lemma {:induction false} SplitWithout<T>(s: seq<T>, separator: T)
    requires separator !in s
    ensures Split(s, separator) == [s]
  {
    if s != [] {
      SplitWithout(s[1..], separator);
      assert s == [s[0]] + s[1..];
    }
  }
}
