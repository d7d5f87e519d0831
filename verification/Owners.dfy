/** Whose repositories a listing holds, most first and capped (frontend/src/code.tsx:708-716). */
module Owners {
  import opened Filters
  import opened Splits
  import opened StableSort
  import opened Texts

  datatype Repository = Repository(owner: string, name: string)

  const CAP := 6

  function Count(repositories: seq<Repository>, owner: string): nat {
    if repositories == [] then 0
    else
      var k := |repositories| - 1;
      Count(repositories[..k], owner) + if repositories[k].owner == owner then 1 else 0
  }

  /** Each owner once, in the order they first appear. */
  function FirstSeen(repositories: seq<Repository>): seq<string> {
    if repositories == [] then []
    else
      var k := |repositories| - 1;
      var before := FirstSeen(repositories[..k]);
      if repositories[k].owner in before then before else before + [repositories[k].owner]
  }

  function Ranked(repositories: seq<Repository>): seq<string> {
    Sorted(FirstSeen(repositories), owner => Count(repositories, owner))
  }

  function Named(repositories: seq<Repository>): seq<string> {
    var ranked := Ranked(repositories);
    if |ranked| <= CAP then ranked else ranked[..CAP]
  }

  function More(repositories: seq<Repository>): nat { |Ranked(repositories)| - |Named(repositories)| }

  function OwnersText(repositories: seq<Repository>): string {
    var names := Joined(Named(repositories), ", ");
    if More(repositories) == 0 then names else names + " and " + Decimal(More(repositories)) + " more"
  }

  method Owners(repositories: seq<Repository>) returns (text: string)
    ensures text == OwnersText(repositories)
  {
    var entries: seq<string> := [];
    var counted: map<string, int> := map[];
    for k := 0 to |repositories|
      invariant entries == FirstSeen(repositories[..k])
      invariant forall owner :: owner in counted <==> owner in entries
      invariant forall owner :: owner in counted ==> counted[owner] == Count(repositories[..k], owner)
    {
      var owner := repositories[k].owner;
      assert repositories[..k + 1][..k] == repositories[..k];
      NotSeenNotCounted(repositories[..k], owner);
      if owner !in counted {
        entries := entries + [owner];
      }
      counted := counted[owner := (if owner in counted then counted[owner] else 0) + 1];
    }
    assert repositories[..|repositories|] == repositories;
    var rank := owner => if owner in counted then counted[owner] else 0;
    SortedAgrees(entries, rank, owner => Count(repositories, owner));
    var sorted := Sorted(entries, rank);
    if |sorted| <= 6 {
      return Joined(sorted, ", ");
    }
    text := Joined(sorted[..6], ", ") + " and " + Decimal(|sorted| - 6) + " more";
  }

  lemma {:induction false} NotSeenNotCounted(repositories: seq<Repository>, owner: string)
    ensures owner in FirstSeen(repositories) <==> Count(repositories, owner) > 0
  {
    if repositories != [] {
      NotSeenNotCounted(repositories[..|repositories| - 1], owner);
    }
  }

  lemma {:induction false} SeenOnce(repositories: seq<Repository>)
    ensures NoneTwice(FirstSeen(repositories))
  {
    if repositories != [] {
      SeenOnce(repositories[..|repositories| - 1]);
    }
  }

  function Total(repositories: seq<Repository>, owners: seq<string>): nat {
    if owners == [] then 0 else Count(repositories, owners[0]) + Total(repositories, owners[1..])
  }

  lemma {:induction false} TotalOfOneMore(repositories: seq<Repository>, owners: seq<string>)
    requires repositories != [] && NoneTwice(owners)
    ensures var k := |repositories| - 1;
      Total(repositories, owners) ==
        Total(repositories[..k], owners) + if repositories[k].owner in owners then 1 else 0
  {
    if owners != [] {
      assert owners == [owners[0]] + owners[1..];
      NoneTwiceOfBoth([owners[0]], owners[1..]);
      assert owners[0] in [owners[0]];
      TotalOfOneMore(repositories, owners[1..]);
    }
  }

  lemma {:induction false} TotalOfBoth(repositories: seq<Repository>, owners: seq<string>, more: seq<string>)
    ensures Total(repositories, owners + more) == Total(repositories, owners) + Total(repositories, more)
  {
    if owners == [] {
      assert owners + more == more;
    } else {
      assert (owners + more)[1..] == owners[1..] + more;
      TotalOfBoth(repositories, owners[1..], more);
    }
  }

  /** Every repository is counted for one owner. */
  lemma {:induction false} CountsSumUp(repositories: seq<Repository>)
    ensures Total(repositories, FirstSeen(repositories)) == |repositories|
  {
    if repositories != [] {
      var k := |repositories| - 1;
      var before := repositories[..k];
      CountsSumUp(before);
      SeenOnce(repositories);
      TotalOfOneMore(repositories, FirstSeen(repositories));
      var owner := repositories[k].owner;
      NotSeenNotCounted(before, owner);
      if owner !in FirstSeen(before) {
        TotalOfBoth(before, FirstSeen(before), [owner]);
        assert Total(before, [owner][1..]) == 0;
      }
    }
  }

  function AllOwners(repositories: seq<Repository>): set<string> {
    set repository <- repositories :: repository.owner
  }

  lemma {:induction false} SeenAreAll(repositories: seq<Repository>)
    ensures forall owner :: owner in FirstSeen(repositories) <==> owner in AllOwners(repositories)
  {
    if repositories != [] {
      var k := |repositories| - 1;
      SeenAreAll(repositories[..k]);
      assert repositories == repositories[..k] + [repositories[k]];
    }
  }

  lemma {:induction false} OnceEach(owners: seq<string>, all: set<string>)
    requires NoneTwice(owners) && forall owner :: owner in owners <==> owner in all
    ensures |owners| == |all|
  {
    if owners != [] {
      assert owners == [owners[0]] + owners[1..];
      NoneTwiceOfBoth([owners[0]], owners[1..]);
      assert owners[0] in [owners[0]];
      OnceEach(owners[1..], all - {owners[0]});
    } else {
      assert all == {};
    }
  }

  /** Every owner is ranked once, none but owners are, and nobody ahead has fewer repositories. */
  lemma RankedIsExact(repositories: seq<Repository>)
    ensures var ranked := Ranked(repositories);
      NoneTwice(ranked) && |ranked| == |AllOwners(repositories)| &&
      (forall owner :: owner in ranked <==> owner in AllOwners(repositories)) &&
      Descending(ranked, owner => Count(repositories, owner))
  {
    var seen, ranked := FirstSeen(repositories), Ranked(repositories);
    var rank := owner => Count(repositories, owner);
    SortedIsAPermutation(seen, rank);
    SortedDescends(seen, rank);
    SeenOnce(repositories);
    SeenAreAll(repositories);
    NoneTwiceCounts(seen);
    NoneTwiceCounts(ranked);
    forall owner ensures owner in ranked <==> owner in seen {
      assert owner in ranked <==> owner in multiset(ranked);
      assert owner in seen <==> owner in multiset(seen);
    }
    OnceEach(ranked, AllOwners(repositories));
  }

  /**
   Six names at most; no owner left out has more repositories than one who is named; and the names
   with the number behind them account for every owner.
   */
  lemma TheCapKeepsTheLargest(repositories: seq<Repository>)
    ensures var named := Named(repositories);
      |named| <= 6 && NoneTwice(named) &&
      |named| + More(repositories) == |AllOwners(repositories)| &&
      (More(repositories) > 0 ==> |named| == 6) &&
      (forall owner :: owner in named ==> owner in AllOwners(repositories)) &&
      (forall one, other :: one in named && other in AllOwners(repositories) && other !in named ==>
        Count(repositories, one) >= Count(repositories, other))
  {
    RankedIsExact(repositories);
    var ranked, named := Ranked(repositories), Named(repositories);
    assert forall k :: 0 <= k < |named| ==> named[k] == ranked[k];
    forall one, other | one in named && other in AllOwners(repositories) && other !in named
      ensures Count(repositories, one) >= Count(repositories, other)
    {
      var i :| 0 <= i < |named| && named[i] == one;
      var j :| 0 <= j < |ranked| && ranked[j] == other;
    }
  }

  /** Owners with as many repositories as each other stay in the order they were first seen in. */
  lemma TiesKeepTheListingsOrder(repositories: seq<Repository>, n: int)
    ensures var rank := owner => Count(repositories, owner);
      Tied(Ranked(repositories), rank, n) == Tied(FirstSeen(repositories), rank, n)
  {
    SortedKeepsTies(FirstSeen(repositories), owner => Count(repositories, owner), n);
  }

  // --- reading the line ---

  /** An owner's name as GitHub has them. */
  predicate IsName(owner: string) { owner != "" && ' ' !in owner && ',' !in owner }

  /** A word of a list, without the comma behind it. */
  function Bare(word: string): string {
    if word != "" && word[|word| - 1] == ',' then word[..|word| - 1] else word
  }

  function AllBare(words: seq<string>): seq<string> {
    if words == [] then [] else [Bare(words[0])] + AllBare(words[1..])
  }

  /** What a reader makes of the line: the names, and how many more there are. */
  function ReadOwners(text: string): (seq<string>, nat) {
    var words := Split(text, ' ');
    var n := |words|;
    if text == "" then ([], 0)
    else if n > 3 && words[n - 3] == "and" && words[n - 1] == "more"
    then (AllBare(words[..n - 3]), NumeralValue(words[n - 2]))
    else (AllBare(words), 0)
  }

  function Listed(names: seq<string>): seq<string> {
    if |names| <= 1 then names else [names[0] + ","] + Listed(names[1..])
  }

  lemma {:induction false} JoinedSplits(names: seq<string>)
    requires names != [] && forall i :: 0 <= i < |names| ==> IsName(names[i])
    ensures Split(Joined(names, ", "), ' ') == Listed(names) && |Listed(names)| == |names|
    ensures AllBare(Listed(names)) == names
    ensures forall i :: 0 <= i < |names| - 1 ==> Listed(names)[i] == names[i] + ","
    ensures Joined(names, ", ") != ""
  {
    if |names| == 1 {
      SplitWithout(names[0], ' ');
      NameIsBare(names[0]);
      assert AllBare(names[1..]) == [];
      assert names == [names[0]];
    } else {
      var rest := Joined(names[1..], ", ");
      JoinedSplits(names[1..]);
      NameIsBare(names[0]);
      assert Joined(names, ", ") == names[0] + "," + [' '] + rest;
      SplitAtSeparator(names[0] + ",", rest, ' ');
      SplitWithout(names[0] + ",", ' ');
      assert names == [names[0]] + names[1..];
    }
  }

  lemma NameIsBare(name: string)
    requires IsName(name)
    ensures Bare(name) == name && Bare(name + ",") == name
  {
  }

  lemma MoreSplits(names: string, count: string)
    requires ' ' !in count
    ensures Split(names + " and " + count + " more", ' ') == Split(names, ' ') + ["and", count, "more"]
  {
    hide Split;
    var front := names + [' '] + "and";
    assert " and " == [' '] + "and" + [' '] && " more" == [' '] + "more";
    assert names + " and " == front + [' '];
    assert names + " and " + count + " more" == front + [' '] + count + [' '] + "more";
    SplitAtSeparator(front + [' '] + count, "more", ' ');
    SplitAtSeparator(front, count, ' ');
    SplitAtSeparator(names, "and", ' ');
    SplitWithout("and", ' ');
    SplitWithout(count, ' ');
    SplitWithout("more", ' ');
  }

  /** The line says what it is meant to: the owners named, in order, and how many are not. */
  lemma TheLineIsReadable(repositories: seq<Repository>)
    requires forall i :: 0 <= i < |repositories| ==> IsName(repositories[i].owner)
    ensures ReadOwners(OwnersText(repositories)) == (Named(repositories), More(repositories))
  {
    hide Split, Joined, NumeralValue, Decimal;
    var named, more := Named(repositories), More(repositories);
    TheCapKeepsTheLargest(repositories);
    NamesAreNames(repositories);
    if named == [] {
      assert more == 0;
      NothingJoined();
    } else {
      JoinedSplits(named);
      var names := Joined(named, ", ");
      if more > 0 {
        DecimalSaysIt(more);
        assert ' ' !in Decimal(more);
        MoreSplits(names, Decimal(more));
        assert (Listed(named) + ["and", Decimal(more), "more"])[..|named|] == Listed(named);
      } else if |named| > 3 {
        assert Listed(named)[|named| - 3] == named[|named| - 3] + ",";
        assert (named[|named| - 3] + ",")[|named[|named| - 3]|] == ',';
      }
    }
  }

  lemma NothingJoined()
    ensures Joined([], ", ") == ""
  {
  }

  lemma NamesAreNames(repositories: seq<Repository>)
    requires forall i :: 0 <= i < |repositories| ==> IsName(repositories[i].owner)
    ensures forall i :: 0 <= i < |Named(repositories)| ==> IsName(Named(repositories)[i])
  {
    hide Ranked;
    RankedIsExact(repositories);
    forall i | 0 <= i < |Named(repositories)| ensures IsName(Named(repositories)[i]) {
      assert Named(repositories)[i] == Ranked(repositories)[i];
      assert Ranked(repositories)[i] in Ranked(repositories);
      assert Ranked(repositories)[i] in AllOwners(repositories);
    }
  }
}
